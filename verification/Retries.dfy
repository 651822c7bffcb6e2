/**
  What becomes of a request whose transaction runs a second time, however much later. The HTTP guard lets
  that happen to a retry that was past its lookup when the first response was stored
  (shared/idempotency.py:64-81); whether the second run commits is then up to the booking tables alone.
*/
module Retries {
  import opened Tables
  import opened Domain
  import opened Relay
  import opened System
  import opened SagaSafety
  import opened Guarantees
  import opened LateRejection
  import Requests
  import SagaHistory
  import B = Bookings
  import Saga

  // ----- host commands -----

  // When the second run of a host command commits, given the row it then meets.
  predicate CommitsAgain(row: Booking, c: B.Command) {
    (c.Accept? && row.status == Requested) || (c.Return? && row.status == Active)
  }

  lemma {:induction false} HandoversGrow(log: seq<B.Stored>, longer: seq<B.Stored>)
    requires log <= longer
    ensures Saga.Handovers(log) <= Saga.Handovers(longer)
  {
    if |longer| > |log| {
      HandoversGrow(log, longer[..|longer| - 1]);
    } else {
      assert longer == log;
    }
  }

  // A rejection is final, and after a handover the booking never waits for one again.
  lemma NeedsPassed(s: Saga.Saga, t: Saga.Saga, b: Booking, c: B.Command)
    requires s.row == Some(b) && (c.Reject? || c.Handover?) && Saga.Inv(s) && Saga.Inv(t) && SagaHistory.Persists(s, t)
    requires b.status == Settles(c)
    ensures t.row.Some? && t.row.value.status != Needs(c)
  {
    hide Saga.LogInv, Saga.SentInv, Saga.PaymentInv, Saga.StripeInv, Saga.HeardInv;
    if c.Handover? {
      HandoversGrow(s.log, t.log);
    }
  }

  lemma SameTerms(b: Booking, t: Booking)
    requires Saga.AsCreated(t) == Saga.AsCreated(b)
    ensures t.hostId == b.hostId && t.mode == b.mode
  {
    assert Saga.AsCreated(t).hostId == t.hostId && Saga.AsCreated(t).mode == t.mode;
  }

  // Whatever happens after a host command committed, running it again commits exactly if it is an accept
  // and the booking still waits, or a return and the booking is still active. A rejection and a handover
  // never commit twice.
  lemma RepeatedCommandCommitsExactly(s: System, b: Uuid, c: B.Command, id: Uuid, steps: seq<Step>, again: Uuid)
    requires Reachable(s) && Saga.FromHost(c) && B.Execute(s.booking, b, c, id).Ok?
    ensures |s.commands.parts| > 0 && |s.events.parts| > 0
    ensures var t := Run(Apply(s, Command(b, c, id)), steps);
      && b in t.booking.rows
      && (!Used(t.booking.outbox, again) ==>
            (B.Execute(t.booking, b, c, again).Ok? <==> CommitsAgain(t.booking.rows[b], c)))
    ensures CommitsAgain(Apply(s, Command(b, c, id)).booking.rows[b], c) <==> c.Accept? || c.Return?
  {
    hide Reachable, Run, B.Conflict, B.Decide, Saga.Inv;
    StaysReachable(s, Command(b, c, id));
    var s' := Apply(s, Command(b, c, id));
    RunStaysReachable(s', steps);
    var t := Run(s', steps);
    DecideByTable(s.booking.rows[b], c);
    AllowedLater(s', t, steps, b, c);
    DecideByTable(t.booking.rows[b], c);
    NoVersionConflict(t, b, |Logs(t.booking.rows[b], c)|);
  }

  lemma AllowedLater(s: System, t: System, steps: seq<Step>, b: Uuid, c: B.Command)
    requires Reachable(s) && |s.commands.parts| > 0 && |s.events.parts| > 0 && t == Run(s, steps) && Saga.FromHost(c)
    requires b in s.booking.rows && s.booking.rows[b].status == Settles(c) && s.booking.rows[b].hostId == c.hostId
    requires c.Accept? ==> s.booking.rows[b].mode == RequestToBook
    ensures Reachable(t) && b in t.booking.rows
      && (Allowed(t.booking.rows[b], c) <==> CommitsAgain(t.booking.rows[b], c))
  {
    hide Reachable, Run, Saga.Inv, Saga.AsCreated, Relay.Inv;
    RunStaysReachable(s, steps);
    ReachableInv(s);
    RunPersistsViews(s, steps, b);
    InvOf(s, b);
    InvOf(t, b);
    var v, w := View(s, b), View(t, b);
    SameTerms(v.row.value, w.row.value);
    if c.Reject? || c.Handover? {
      NeedsPassed(v, w, v.row.value, c);
    } else if w.row.value.status == Active {
      Requests.ActiveHasStart(w);
    }
  }

  // ----- booking requests -----

  // Made at any time under a new booking id, a request for a bookable vehicle commits exactly if every
  // booking of the vehicle is over (cancelled or rejected), ends before it starts or starts after it ends.
  lemma RequestCommitsExactly(t: System, b: Uuid, renterId: Uuid, vehicleId: Uuid, vehicle: B.VehicleInfo,
                              startDate: Date, endDate: Date, id: Uuid)
    requires Reachable(t) && b !in t.booking.rows && !Used(t.booking.outbox, id)
    requires vehicle.approved && startDate <= endDate
    ensures B.RequestBooking(t.booking, b, renterId, vehicleId, Some(vehicle), startDate, endDate, id).Ok? <==>
      forall k | k in t.booking.rows && t.booking.rows[k].vehicleId == vehicleId ::
        || t.booking.rows[k].status in {Cancelled, Rejected}
        || t.booking.rows[k].endDate < startDate || endDate < t.booking.rows[k].startDate
  {
    Requests.RequestAnswered(t, b, renterId, vehicleId, Some(vehicle), startDate, endDate, id);
    assert forall k | k in t.booking.rows ::
      Requests.Holds(t.booking.rows[k], vehicleId, startDate, endDate) <==>
      !(|| t.booking.rows[k].vehicleId != vehicleId || t.booking.rows[k].status in {Cancelled, Rejected}
        || t.booking.rows[k].endDate < startDate || endDate < t.booking.rows[k].startDate);
  }

  // A request that committed commits again only after its first booking has been rejected or cancelled:
  // until then that booking holds the days. (`now` is what listing answers the second time.)
  lemma RepeatedRequestNeedsEnd(s: System, b: Uuid, renterId: Uuid, vehicleId: Uuid, vehicle: Option<B.VehicleInfo>,
                                startDate: Date, endDate: Date, id: Uuid, steps: seq<Step>,
                                other: Uuid, now: Option<B.VehicleInfo>, again: Uuid)
    requires Reachable(s) && startDate < endDate
    requires B.RequestBooking(s.booking, b, renterId, vehicleId, vehicle, startDate, endDate, id).Ok?
    ensures |s.commands.parts| > 0 && |s.events.parts| > 0
    ensures var t := Run(Apply(s, Request(b, renterId, vehicleId, vehicle, startDate, endDate, id)), steps);
      && b in t.booking.rows
      && (t.booking.rows[b].status !in {Cancelled, Rejected} ==>
            B.RequestBooking(t.booking, other, renterId, vehicleId, now, startDate, endDate, again)
            == Err(if now.Some? && now.value.approved then OverlappingBooking else VehicleNotBookable))
  {
    hide Reachable, Run, Saga.Inv, Relay.Inv, Saga.AsCreated;
    var request := Request(b, renterId, vehicleId, vehicle, startDate, endDate, id);
    StaysReachable(s, request);
    var s' := Apply(s, request);
    ReachableInv(s');
    RunPersistsViews(s', steps, b);
    var t := Run(s', steps);
    SameDays(s'.booking.rows[b], t.booking.rows[b]);
    if Live(t.booking.rows[b]) && now.Some? {
      assert Clash(t.booking.rows[b], B.NewBooking(renterId, vehicleId, now.value, startDate, endDate));
    }
  }

  lemma SameDays(b: Booking, t: Booking)
    requires Saga.AsCreated(t) == Saga.AsCreated(b)
    ensures t.vehicleId == b.vehicleId && t.startDate == b.startDate && t.endDate == b.endDate
  {
    assert Saga.AsCreated(t).vehicleId == t.vehicleId && Saga.AsCreated(t).startDate == t.startDate;
    assert Saga.AsCreated(t).endDate == t.endDate;
  }

  // It does: the first booking is rejected, and the same request then leaves a second booking for the same
  // renter, vehicle and days, with a hold asked for each.
  lemma SameRequestTwice() returns (s: System)
    ensures Reachable(s) && s.booking.rows.Keys == {0, 1}
    ensures s.booking.rows[0] == s.booking.rows[1].(status := Rejected, version := s.booking.rows[0].version)
    ensures Saga.HasAuthorize(Sent(s.booking.outbox, 0)) && Saga.HasAuthorize(Sent(s.booking.outbox, 1))
  {
    hide Reachable, Saga.HasAuthorize, Sent;
    var s1 := RequestPlaced();
    StaysReachable(s1, Command(0, B.Reject(3), 8));
    var s2 := Apply(s1, Command(0, B.Reject(3), 8));
    StaysReachable(s2, Request(1, 1, 2, Some(Offer), 0, 2, 9));
    s := Apply(s2, Request(1, 1, 2, Some(Offer), 0, 2, 9));
    BothAsked(s.booking.outbox);
  }

  lemma BothAsked(outbox: seq<Msg<B.Message>>)
    requires |outbox| == 3 && outbox[0].key == 0 && outbox[2].key == 1
    requires outbox[0].body.AuthorizePaymentRequested? && outbox[2].body.AuthorizePaymentRequested?
    ensures Saga.HasAuthorize(Sent(outbox, 0)) && Saga.HasAuthorize(Sent(outbox, 1))
  {
    AskStays(outbox, 0);
    AskStays(outbox, 2);
  }

  lemma {:induction false} AskStays(outbox: seq<Msg<B.Message>>, j: nat)
    requires j < |outbox| && outbox[j].body.AuthorizePaymentRequested?
    ensures Saga.HasAuthorize(Sent(outbox, outbox[j].key))
  {
    hide Saga.HasAuthorize;
    var init, last := outbox[..|outbox| - 1], outbox[|outbox| - 1];
    assert outbox == init + [last];
    SentAppend(init, {}, last, outbox[j].key);
    Saga.GrowSent(Sent(init, outbox[j].key), last.body);
    if j < |init| {
      AskStays(init, j);
      assert last.key != outbox[j].key ==> Sent(outbox, outbox[j].key) == Sent(init, outbox[j].key);
    }
  }
}
