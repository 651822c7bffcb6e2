/**
  No double booking: in every reachable state the live bookings of a vehicle hold disjoint days, and so
  only so many rental days can be billed inside a stretch of the calendar.
*/
module Calendar {
  import opened Tables
  import opened Domain
  import opened System
  import Relay
  import B = Bookings
  import P = Payments
  import SagaSafety

  ghost predicate Disjoint(rows: map<Uuid, Booking>) {
    && (forall k | k in rows :: rows[k].startDate < rows[k].endDate)
    && forall k, l | k in rows && l in rows && k != l && Live(rows[k]) && Live(rows[l]) :: !Clash(rows[k], rows[l])
  }

  // A decision may end a booking but cannot revive one, and leaves its vehicle and dates alone.
  lemma DecisionsKeepDates(row: Booking, c: B.Command)
    requires B.Decide(row, c).Ok?
    ensures var row' := B.Decide(row, c).value.row;
      && row'.vehicleId == row.vehicleId && row'.startDate == row.startDate && row'.endDate == row.endDate
      && Live(row)
  {
    SagaSafety.DecideByTable(row, c);
  }

  lemma ExecuteKeepsDisjoint(db: B.BookingDb, b: Uuid, c: B.Command, id: Uuid)
    requires Disjoint(db.rows) && B.Execute(db, b, c, id).Ok?
    ensures Disjoint(B.Execute(db, b, c, id).value.rows)
  {
    hide B.Decide;
    DecisionsKeepDates(db.rows[b], c);
  }

  lemma CreateKeepsDisjoint(db: B.BookingDb, b: Uuid, row: Booking, id: Uuid)
    requires Disjoint(db.rows) && row.startDate < row.endDate && B.CreateBooking(db, b, row, id).Ok?
    ensures Disjoint(B.CreateBooking(db, b, row, id).value.rows)
  {
  }

  lemma ApplyKeepsDisjoint(s: System, step: Step)
    requires |s.commands.parts| > 0 && |s.events.parts| > 0 && Disjoint(s.booking.rows)
    ensures Disjoint(Apply(s, step).booking.rows)
  {
    hide B.Execute, B.CreateBooking, P.ReceiveMessage;
    match step {
      case Request(b, renterId, vehicleId, vehicle, startDate, endDate, id) =>
        if startDate < endDate
          && B.RequestBooking(s.booking, b, renterId, vehicleId, vehicle, startDate, endDate, id).Ok?
        {
          CreateKeepsDisjoint(s.booking, b, B.NewBooking(renterId, vehicleId, vehicle.value, startDate, endDate), id);
        }
      case Command(b, c, id) =>
        if B.Execute(s.booking, b, c, id).Ok? { ExecuteKeepsDisjoint(s.booking, b, c, id); }
      case BookingConsumes(q, id) =>
        if Relay.HasNext(s.events, q) {
          var m := Relay.Next(s.events, q);
          var db := s.booking.(inbox := s.booking.inbox + {m.id});
          if m.id !in s.booking.inbox && B.Execute(db, m.key, B.ReactionTo(m.body), id).Ok? {
            ExecuteKeepsDisjoint(db, m.key, B.ReactionTo(m.body), id);
          }
        }
      case _ =>
    }
  }

  lemma {:induction false} RunKeepsDisjoint(s: System, steps: seq<Step>)
    requires |s.commands.parts| > 0 && |s.events.parts| > 0 && Disjoint(s.booking.rows)
    ensures Disjoint(Run(s, steps).booking.rows)
    decreases steps
  {
    hide Apply, Disjoint;
    if steps != [] {
      ApplyKeepsDisjoint(s, steps[0]);
      RunKeepsDisjoint(Apply(s, steps[0]), steps[1..]);
    }
  }

  // Two live bookings of one vehicle never share a day, whatever happened to their statuses.
  lemma NoDoubleBooking(s: System, k: Uuid, l: Uuid)
    requires Reachable(s) && k in s.booking.rows && l in s.booking.rows && k != l
    requires s.booking.rows[k].status !in {Cancelled, Rejected} && s.booking.rows[l].status !in {Cancelled, Rejected}
    requires s.booking.rows[k].vehicleId == s.booking.rows[l].vehicleId
    ensures s.booking.rows[k].endDate < s.booking.rows[l].startDate
      || s.booking.rows[l].endDate < s.booking.rows[k].startDate
  {
    hide Apply;
    var s0, steps :| Init(s0) && s == Run(s0, steps);
    RunKeepsDisjoint(s0, steps);
  }

  // ----- the packing bound -----

  // The days from..until, both included.
  function Span(from: Date, until: Date): (days: set<Date>)
    ensures forall d :: d in days <==> from <= d <= until
    ensures |days| == if from <= until then until - from + 1 else 0
    decreases until - from + 1
  {
    if from > until then {} else Span(from, until - 1) + {until}
  }

  function Held(rows: map<Uuid, Booking>, ids: seq<Uuid>): set<Date>
    requires forall k | k in ids :: k in rows
  {
    if ids == [] then {}
    else Held(rows, ids[1..]) + Span(rows[ids[0]].startDate, rows[ids[0]].endDate)
  }

  function Billed(rows: map<Uuid, Booking>, ids: seq<Uuid>): int
    requires forall k | k in ids :: k in rows
  {
    if ids == [] then 0 else RentalDays(rows[ids[0]]) + Billed(rows, ids[1..])
  }

  // Live bookings of `vehicle`, each once, that lie inside the days from..until.
  ghost predicate Packed(rows: map<Uuid, Booking>, ids: seq<Uuid>, vehicle: Uuid, from: Date, until: Date) {
    && (forall i, j | 0 <= i < j < |ids| :: ids[i] != ids[j])
    && forall k | k in ids :: k in rows && rows[k].status !in {Cancelled, Rejected} && rows[k].vehicleId == vehicle
         && from <= rows[k].startDate && rows[k].endDate <= until
  }

  // Every held day is a day of one of the bookings.
  lemma {:induction false} HeldBy(rows: map<Uuid, Booking>, ids: seq<Uuid>, d: Date) returns (k: Uuid)
    requires (forall k | k in ids :: k in rows) && d in Held(rows, ids)
    ensures k in ids && rows[k].startDate <= d <= rows[k].endDate
  {
    hide Span;
    if d in Span(rows[ids[0]].startDate, rows[ids[0]].endDate) {
      k := ids[0];
    } else {
      k := HeldBy(rows, ids[1..], d);
    }
  }

  lemma {:induction false} HeldDays(rows: map<Uuid, Booking>, ids: seq<Uuid>, vehicle: Uuid, from: Date, until: Date)
    requires Disjoint(rows) && Packed(rows, ids, vehicle, from, until)
    ensures |Held(rows, ids)| == Billed(rows, ids) + |ids|
  {
    hide Span;
    if ids != [] {
      var b := rows[ids[0]];
      HeldDays(rows, ids[1..], vehicle, from, until);
      forall d | d in Held(rows, ids[1..]) ensures d !in Span(b.startDate, b.endDate) {
        var k := HeldBy(rows, ids[1..], d);
        assert k != ids[0] && !Clash(b, rows[k]);
      }
      assert Held(rows, ids[1..]) !! Span(b.startDate, b.endDate);
      assert |Held(rows, ids)| == |Held(rows, ids[1..])| + |Span(b.startDate, b.endDate)|;
    }
  }

  lemma SubsetSize<T>(a: set<T>, b: set<T>)
    requires a <= b
    ensures |a| <= |b|
  {
    assert b == a + (b - a);
  }

  // k live bookings inside a window of N days bill at most N - k days between them: each one keeps its
  // return day to itself without charging for it.
  lemma PackingBound(s: System, ids: seq<Uuid>, vehicle: Uuid, from: Date, until: Date)
    requires Reachable(s) && Packed(s.booking.rows, ids, vehicle, from, until) && from <= until
    ensures Billed(s.booking.rows, ids) <= (until - from + 1) - |ids|
  {
    hide Apply;
    var s0, steps :| Init(s0) && s == Run(s0, steps);
    RunKeepsDisjoint(s0, steps);
    HeldDays(s.booking.rows, ids, vehicle, from, until);
    forall d | d in Held(s.booking.rows, ids) ensures d in Span(from, until) {
      var k := HeldBy(s.booking.rows, ids, d);
    }
    SubsetSize(Held(s.booking.rows, ids), Span(from, until));
  }
}
