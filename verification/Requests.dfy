/**
  What a booking request stores and sends, and what every request and command is answered: column by
  column and error by error, whatever functions the service computes them with.
*/
module Requests {
  import opened Tables
  import opened Domain
  import opened Relay
  import opened System
  import Guarantees
  import SagaHistory
  import SagaSafety
  import B = Bookings
  import P = Payments
  import Saga

  // A committed request stores the renter's choice and listing's answer, logs one event, and asks for the
  // hold at once if listing says the vehicle books instantly. Nothing else changes.
  lemma RequestStores(db: B.BookingDb, b: Uuid, renterId: Uuid, vehicleId: Uuid, vehicle: Option<B.VehicleInfo>,
                      startDate: Date, endDate: Date, id: Uuid)
    requires B.RequestBooking(db, b, renterId, vehicleId, vehicle, startDate, endDate, id).Ok?
    ensures vehicle.Some? && vehicle.value.approved && startDate <= endDate && b !in db.rows
    ensures var db', v :=
      B.RequestBooking(db, b, renterId, vehicleId, vehicle, startDate, endDate, id).value, vehicle.value;
      && db'.rows == db.rows[b := Booking(
           vehicleId, v.hostId, renterId, startDate, endDate, v.dailyPriceCents, v.dailyMileageLimit, v.mode,
           Requested, 2, None, None, 0)]
      && db'.events == db.events + [Row(b, B.Stored(2, BookingRequested))]
      && db'.inbox == db.inbox
    ensures var db', v :=
      B.RequestBooking(db, b, renterId, vehicleId, vehicle, startDate, endDate, id).value, vehicle.value;
      var days := if startDate == endDate then 1 else endDate - startDate;
      db'.outbox == db.outbox
        + if v.mode == Instant then [Msg(id, b, B.AuthorizePaymentRequested(renterId, v.dailyPriceCents * days))]
          else []
  {
    var v := vehicle.value;
    var stamped := Tag(b, B.Stamp(1, [BookingRequested]));
    assert stamped == [Row(b, B.Stored(2, BookingRequested))];
  }

  // Whatever happens to it later, the booking keeps those columns.
  predicate AsRequested(row: Booking, renterId: Uuid, vehicleId: Uuid, v: B.VehicleInfo, startDate: Date,
                        endDate: Date) {
    && row.vehicleId == vehicleId && row.hostId == v.hostId && row.renterId == renterId
    && row.startDate == startDate && row.endDate == endDate
    && row.dailyPriceCents == v.dailyPriceCents && row.dailyMileageLimit == v.dailyMileageLimit && row.mode == v.mode
  }

  lemma SameColumns(b: Booking, t: Booking, renterId: Uuid, vehicleId: Uuid, v: B.VehicleInfo, startDate: Date,
                    endDate: Date)
    requires Saga.AsCreated(t) == Saga.AsCreated(b) && AsRequested(b, renterId, vehicleId, v, startDate, endDate)
    ensures AsRequested(t, renterId, vehicleId, v, startDate, endDate)
  {
    var c := Saga.AsCreated(t);
    assert c.vehicleId == t.vehicleId && c.hostId == t.hostId && c.renterId == t.renterId && c.mode == t.mode;
    assert c.startDate == t.startDate && c.endDate == t.endDate;
    assert c.dailyPriceCents == t.dailyPriceCents && c.dailyMileageLimit == t.dailyMileageLimit;
  }

  lemma AskedExactly(v: Saga.Saga)
    requires Saga.Inv(v) && v.row.Some?
    ensures Saga.HasAuthorize(v.sent) <==> v.row.value.mode == Instant || Saga.HasAccept(v.log)
  {
    hide Saga.LogInv, Saga.ReadingInv, Saga.PaymentInv, Saga.StripeInv, Saga.HeardInv;
  }

  // At any later time the booking is still the one requested, and payment has been asked to hold its price
  // exactly if listing called the vehicle instant or the host has accepted.
  lemma HoldAskedExactly(s: System, b: Uuid, renterId: Uuid, vehicleId: Uuid, vehicle: Option<B.VehicleInfo>,
                         startDate: Date, endDate: Date, id: Uuid, steps: seq<Step>)
    requires Reachable(s) && startDate < endDate
    requires B.RequestBooking(s.booking, b, renterId, vehicleId, vehicle, startDate, endDate, id).Ok?
    ensures |s.commands.parts| > 0 && |s.events.parts| > 0
    ensures var t := Run(Apply(s, Request(b, renterId, vehicleId, vehicle, startDate, endDate, id)), steps);
      && b in t.booking.rows
      && AsRequested(t.booking.rows[b], renterId, vehicleId, vehicle.value, startDate, endDate)
      && (Saga.HasAuthorize(Sent(t.booking.outbox, b))
          <==> vehicle.value.mode == Instant || Saga.HasAccept(Of(t.booking.events, b)))
  {
    hide Reachable, Run, Saga.Inv, Relay.Inv, Saga.AsCreated, Saga.HasAuthorize, Saga.HasAccept;
    var request := Request(b, renterId, vehicleId, vehicle, startDate, endDate, id);
    RequestStores(s.booking, b, renterId, vehicleId, vehicle, startDate, endDate, id);
    StaysReachable(s, request);
    var s' := Apply(s, request);
    ReachableInv(s');
    Guarantees.RunPersistsViews(s', steps, b);
    RunKeepsInv(s', steps);
    var t := Run(s', steps);
    SameColumns(s'.booking.rows[b], t.booking.rows[b], renterId, vehicleId, vehicle.value, startDate, endDate);
    assert Saga.Inv(View(t, b));
    AskedExactly(View(t, b));
  }

  // ----- answers -----

  // A booking that still counts holds one of these days of the vehicle, first and last day included.
  predicate Holds(row: Booking, vehicleId: Uuid, startDate: Date, endDate: Date) {
    row.vehicleId == vehicleId && row.status !in {Cancelled, Rejected}
    && row.startDate <= endDate && startDate <= row.endDate
  }

  lemma NoEventsBeforeTheRow(s: System, b: Uuid, version: nat)
    requires SagaInv(s) && b !in s.booking.rows
    ensures !B.VersionUsed(s.booking.events, b, version)
  {
    assert Saga.Inv(View(s, b));
    forall i | 0 <= i < |s.booking.events| ensures s.booking.events[i].key != b {
      if s.booking.events[i].key == b { OfMember(s.booking.events, b, i); }
    }
  }

  // What a booking request is answered in any reachable state.
  function RequestRefusal(s: System, b: Uuid, vehicleId: Uuid, vehicle: Option<B.VehicleInfo>,
                          startDate: Date, endDate: Date, id: Uuid): Option<Error>
  {
    if vehicle.None? || !vehicle.value.approved then Some(VehicleNotBookable)
    else if startDate > endDate then Some(InvalidDateRange)
    else if b in s.booking.rows
      || (exists k | k in s.booking.rows :: Holds(s.booking.rows[k], vehicleId, startDate, endDate))
    then Some(OverlappingBooking)
    else if vehicle.value.mode == Instant && (exists j | 0 <= j < |s.booking.outbox| :: s.booking.outbox[j].id == id)
    then Some(IntegrityError)
    else None
  }

  lemma RequestAnswered(s: System, b: Uuid, renterId: Uuid, vehicleId: Uuid, vehicle: Option<B.VehicleInfo>,
                        startDate: Date, endDate: Date, id: Uuid)
    requires Reachable(s)
    ensures var r := B.RequestBooking(s.booking, b, renterId, vehicleId, vehicle, startDate, endDate, id);
      var refusal := RequestRefusal(s, b, vehicleId, vehicle, startDate, endDate, id);
      if refusal.Some? then r == Err(refusal.value) else r.Ok?
  {
    hide Reachable, SagaInv;
    ReachableInv(s);
    if b !in s.booking.rows { NoEventsBeforeTheRow(s, b, 2); }
    if vehicle.Some? {
      var row := B.NewBooking(renterId, vehicleId, vehicle.value, startDate, endDate);
      assert forall k | k in s.booking.rows ::
        (Live(s.booking.rows[k]) && Clash(s.booking.rows[k], row))
        <==> Holds(s.booking.rows[k], vehicleId, startDate, endDate);
    }
  }

  // What a command or a reaction is answered in any reachable state. A missing odometer reading and a
  // concurrent update, which the code provides for, are never met one transaction at a time.
  function CommandRefusal(s: System, b: Uuid, c: B.Command, id: Uuid): Option<Error> {
    if b !in s.booking.rows then Some(BookingNotFound)
    else
      var row := s.booking.rows[b];
      if (c.Accept? || c.Reject? || c.Handover? || c.Return?) && c.hostId != row.hostId then Some(NotBookingParty)
      else if row.status != SagaSafety.Needs(c) || (c.Accept? && row.mode != RequestToBook) then Some(InvalidTransition)
      else if !c.Handover? && (exists j | 0 <= j < |s.booking.outbox| :: s.booking.outbox[j].id == id)
      then Some(IntegrityError)
      else None
  }

  // Why a decision on a row is refused, in the order the code looks.
  lemma DecisionRefused(row: Booking, c: B.Command)
    ensures B.Decide(row, c).Err? ==>
      B.Decide(row, c).error
      == if (c.Accept? || c.Reject? || c.Handover? || c.Return?) && c.hostId != row.hostId then NotBookingParty
         else if c.Return? && row.status == Active then NoStartOdometer
         else InvalidTransition
    ensures SagaSafety.Allowed(row, c) ==> B.MessageOf(SagaSafety.Becomes(row, c), c).None? == c.Handover?
  {
  }

  // On any tables: a transaction is refused for want of the booking, by the decision, because one of its
  // versions is taken, or because the id of its message is; and it writes nothing else.
  lemma ExecuteRefused(db: B.BookingDb, b: Uuid, c: B.Command, id: Uuid)
    ensures var r := B.Execute(db, b, c, id);
      && (b !in db.rows ==> r == Err(BookingNotFound))
      && (b in db.rows && B.Decide(db.rows[b], c).Err? ==> r == Err(B.Decide(db.rows[b], c).error))
      && (b in db.rows && SagaSafety.Allowed(db.rows[b], c) ==>
           var version, n := db.rows[b].version, |SagaSafety.Logs(db.rows[b], c)|;
           if exists i | 0 <= i < |db.events| ::
             TakesVersion(db.events[i], b, version, n) then r == Err(ConcurrentUpdate)
           else if !c.Handover? && Used(db.outbox, id) then r == Err(IntegrityError)
           else r.Ok?)
  {
    hide B.Decide;
    if b in db.rows && SagaSafety.Allowed(db.rows[b], c) {
      SagaSafety.DecideByTable(db.rows[b], c);
      DecisionRefused(db.rows[b], c);
      ConflictMeans(db.events, b, db.rows[b].version, |SagaSafety.Logs(db.rows[b], c)|);
    }
  }

  predicate TakesVersion(row: Row<B.Stored>, b: Uuid, version: nat, n: nat) {
    row.key == b && version < row.value.version <= version + n
  }

  lemma ConflictMeans(events: seq<Row<B.Stored>>, b: Uuid, version: nat, n: nat)
    ensures B.Conflict(events, b, version, n)
      <==> exists i | 0 <= i < |events| :: TakesVersion(events[i], b, version, n)
  {
    if i :| 0 <= i < |events| && TakesVersion(events[i], b, version, n) {
      assert B.VersionUsed(events, b, events[i].value.version);
    }
    if B.Conflict(events, b, version, n) {
      var v :| version < v <= version + n && B.VersionUsed(events, b, v);
      var i :| 0 <= i < |events| && events[i].key == b && events[i].value.version == v;
      assert TakesVersion(events[i], b, version, n);
    }
  }

  lemma CommandAnswered(s: System, b: Uuid, c: B.Command, id: Uuid)
    requires Reachable(s)
    ensures var r, refusal := B.Execute(s.booking, b, c, id), CommandRefusal(s, b, c, id);
      if refusal.Some? then r == Err(refusal.value) else r.Ok?
  {
    hide Reachable, Saga.Inv, B.Decide, B.Conflict, B.MessageOf, Relay.Inv;
    ReachableInv(s);
    if b in s.booking.rows {
      var row := s.booking.rows[b];
      assert Saga.Inv(View(s, b));
      ActiveHasStart(View(s, b));
      SagaSafety.DecideByTable(row, c);
      DecisionRefused(row, c);
      Guarantees.NoVersionConflict(s, b, |SagaSafety.Logs(row, c)|);
    }
  }

  lemma ActiveHasStart(v: Saga.Saga)
    requires Saga.Inv(v) && v.row.Some?
    ensures v.row.value.status == Active ==> v.row.value.start.Some?
  {
    hide Saga.LogInv, Saga.SentInv, Saga.PaymentInv, Saga.StripeInv, Saga.HeardInv;
  }

  // Payment's transaction fails only on a constraint of its tables: an amount that is not positive, or an
  // event id already taken. A message it has claimed is acknowledged and changes nothing.
  lemma MessageAnswered(db: P.PaymentDb, stripe: map<Uuid, P.Stripe>, m: Msg<B.Message>, v: P.Verdicts, id: Uuid)
    ensures var (memory, r) := P.ReceiveMessage(db, stripe, m, v, id);
      && (m.id in db.inbox ==> r == Ok(db) && memory == stripe)
      && (r.Err? ==>
           r.error == IntegrityError
             && (Used(db.outbox, id) || (m.body.CapturePaymentRequested? && m.body.holdAmountCents <= 0)))
      && (r.Ok? ==> r.value.inbox == db.inbox + {m.id} && db.outbox <= r.value.outbox && db.ledger <= r.value.ledger)
  {
    assert m.id in db.inbox ==> db.inbox + {m.id} == db.inbox;
  }
}
