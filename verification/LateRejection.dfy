/**
  A host may reject a booking after its hold was requested (services/booking/service.py:129-143). That it
  happens, and what it costs: the refused event holds up every later event of its partition, those of other
  bookings included.
*/
module LateRejection {
  import opened Tables
  import opened Domain
  import opened Relay
  import opened System
  import opened SagaFacts
  import Guarantees
  import Liveness
  import SagaSafety
  import B = Bookings
  import P = Payments
  import Saga

  // ----- it happens -----

  // A system where nothing has happened, with one partition on either topic.
  const Fresh := System(
    B.BookingDb(map[], [], [], {}), Link(_ => 0, 0, [Partition([], 0, 0)]),
    P.PaymentDb(map[], [], [], {}), Link(_ => 0, 0, [Partition([], 0, 0)]), map[])

  const Offer := B.VehicleInfo(3, 5000, 100, Instant, true)

  lemma FreshIsReachable()
    ensures Reachable(Fresh)
  {
    assert Init(Fresh) && Fresh == Run(Fresh, []);
  }

  // Nothing keeps a host from rejecting a booking that is still `requested`, whatever payment did.
  lemma RejectCommits(s: System, b: Uuid, id: Uuid)
    requires Reachable(s) && b in s.booking.rows && s.booking.rows[b].status == Requested && !Used(s.booking.outbox, id)
    ensures |s.commands.parts| > 0 && |s.events.parts| > 0
    ensures var t := Apply(s, Command(b, B.Reject(s.booking.rows[b].hostId), id));
      && Reachable(t) && b in t.booking.rows && t.booking.rows[b].status == Rejected
      && t.payment == s.payment && |t.booking.outbox| > 0
      && t.booking.outbox[..|t.booking.outbox| - 1] == s.booking.outbox
  {
    hide Reachable, B.Conflict;
    var c := B.Reject(s.booking.rows[b].hostId);
    StaysReachable(s, Command(b, c, id));
    Guarantees.NoVersionConflict(s, b, 1);
  }

  // A request for the offered vehicle asks for a hold at once.
  lemma RequestPlaced() returns (s: System)
    ensures Reachable(s) && 0 in s.booking.rows && s.booking.rows[0].status == Requested
    ensures s.booking.outbox == [Msg(7, 0, B.AuthorizePaymentRequested(1, 10000))]
    ensures s.booking.rows == map[0 := Booking(2, 3, 1, 0, 2, 5000, 100, Instant, Requested, 2, None, None, 0)]
    ensures s.booking.events == [Row(0, B.Stored(2, BookingRequested))] && s == Fresh.(booking := s.booking)
    ensures s.booking.inbox == {}
  {
    var request := Request(0, 1, 2, Some(Offer), 0, 2, 7);
    FreshIsReachable();
    StaysReachable(Fresh, request);
    s := Apply(Fresh, request);
  }

  lemma HoldPlaced() returns (s: System)
    ensures Reachable(s) && 0 in s.booking.rows && s.booking.rows[0].status == Requested
    ensures s.booking.outbox == [Msg(7, 0, B.AuthorizePaymentRequested(1, 10000))]
    ensures 0 in s.payment.payments && s.payment.payments[0].status == P.Authorized
  {
    hide Reachable;
    var s1 := RequestPlaced();
    StaysReachable(s1, ShipCommand);
    var s2 := Apply(s1, ShipCommand);
    var pay := PaymentConsumes(0, P.Verdicts(P.Decides(P.Succeeded(5)), P.RequestLost), 8);
    StaysReachable(s2, pay);
    s := Apply(s2, pay);
  }

  // Late rejections are reachable: before payment has answered, and after the hold was placed.
  lemma RequestedThenRejected() returns (s: System)
    ensures Reachable(s) && 0 in s.booking.rows && s.booking.rows[0].status == Rejected
    ensures Saga.HasAuthorize(Sent(s.booking.outbox, 0))
  {
    hide Reachable, Apply;
    var s1 := RequestPlaced();
    var id := Unused(s1);
    RejectCommits(s1, 0, id);
    s := Apply(s1, Command(0, B.Reject(s1.booking.rows[0].hostId), id));
    StillAsked(s.booking.outbox);
  }

  lemma HeldThenRejected() returns (s: System)
    ensures Reachable(s) && 0 in s.booking.rows && s.booking.rows[0].status == Rejected
    ensures 0 in s.payment.payments && s.payment.payments[0].status == P.Authorized
  {
    hide Reachable, Apply;
    var s1 := HoldPlaced();
    var id := Unused(s1);
    RejectCommits(s1, 0, id);
    s := Apply(s1, Command(0, B.Reject(s1.booking.rows[0].hostId), id));
  }

  lemma Unused(s: System) returns (id: Uuid)
    requires s.booking.outbox == [Msg(7, 0, B.AuthorizePaymentRequested(1, 10000))]
    ensures !Used(s.booking.outbox, id)
  {
    id := 8;
  }

  lemma {:induction false} OneAsked(m: B.Message)
    requires m.AuthorizePaymentRequested?
    ensures Sent([Msg(7, 0, m)], 0) == [m] && Saga.HasAuthorize([m])
  {
    hide Saga.HasAuthorize;
    SentAppend([], {}, Msg(7, 0, m), 0);
    Saga.GrowSent([], m);
    assert [] + [Msg(7, 0, m)] == [Msg(7, 0, m)];
    assert [] + [m] == [m];
  }

  lemma {:induction false} StillAsked(outbox: seq<Msg<B.Message>>)
    requires |outbox| > 0 && outbox[..|outbox| - 1] == [Msg(7, 0, B.AuthorizePaymentRequested(1, 10000))]
    ensures Saga.HasAuthorize(Sent(outbox, 0))
  {
    hide Saga.HasAuthorize;
    var asked, last := outbox[..|outbox| - 1], outbox[|outbox| - 1];
    assert outbox == asked + [last];
    OneAsked(B.AuthorizePaymentRequested(1, 10000));
    SentAppend(asked, {}, last, 0);
    if last.key == 0 {
      Saga.GrowSent(Sent(asked, 0), last.body);
    } else {
      assert Sent(outbox, 0) == Sent(asked, 0);
    }
  }

  // ----- what it holds up -----

  ghost predicate KeepsRouting(s: System, t: System) {
    s.payment.outbox <= t.payment.outbox && t.events.hash == s.events.hash && |t.events.parts| == |s.events.parts|
  }

  lemma StepKeepsRouting(s: System, step: Step)
    requires |s.commands.parts| > 0 && |s.events.parts| > 0
    ensures KeepsRouting(s, Apply(s, step))
  {
    hide P.Handle, P.Interrupted, B.Execute, B.CreateBooking;
  }

  lemma {:induction false} RunKeepsRouting(s: System, steps: seq<Step>)
    requires |s.commands.parts| > 0 && |s.events.parts| > 0
    ensures KeepsRouting(s, Run(s, steps))
    decreases steps
  {
    hide Apply;
    if steps != [] {
      StepKeepsRouting(s, steps[0]);
      RunKeepsRouting(Apply(s, steps[0]), steps[1..]);
    }
  }

  lemma {:induction false} NoneTaken<T>(outbox: seq<Msg<T>>, inbox: set<Uuid>, b: Uuid)
    requires Taken(outbox, inbox, b) == 0
    ensures forall j | 0 <= j < |outbox| && outbox[j].key == b :: outbox[j].id !in inbox
  {
    if outbox != [] {
      NoneTaken(outbox[..|outbox| - 1], inbox, b);
    }
  }

  lemma NothingClaimedBehind(t: System, j: nat, k: nat)
    requires RelayInv(t) && SagaInv(t) && j <= k < |t.payment.outbox|
    requires Home(t.events, t.payment.outbox[j].key) == Home(t.events, t.payment.outbox[k].key)
    requires var b := t.payment.outbox[j].key; b in t.booking.rows && t.booking.rows[b].status == Rejected
    ensures t.payment.outbox[k].id !in t.booking.inbox
  {
    hide Saga.Inv, Distinct, Sourced, Shipped, Ordered, Consumed;
    var b := t.payment.outbox[j].key;
    assert Saga.Inv(View(t, b));
    Guarantees.RejectedHeardNothing(View(t, b));
    NoneTaken(t.payment.outbox, t.booking.inbox, b);
  }

  // The event of a rejected booking, and every event after it on its partition, whichever booking it is
  // for, is never claimed by any run.
  lemma RejectedEventBlocksPartition(s: System, j: nat, k: nat, steps: seq<Step>)
    requires Reachable(s) && j <= k < |s.payment.outbox| && |s.events.parts| > 0
    requires Home(s.events, s.payment.outbox[j].key) == Home(s.events, s.payment.outbox[k].key)
    requires var b := s.payment.outbox[j].key; b in s.booking.rows && s.booking.rows[b].status == Rejected
    ensures |s.commands.parts| > 0
    ensures var t := Run(s, steps);
      k < |t.payment.outbox| && t.payment.outbox[k] == s.payment.outbox[k] && t.payment.outbox[k].id !in t.booking.inbox
  {
    hide Reachable, Apply, Run, Relay.Inv, Saga.Inv, SagaInv;
    var b := s.payment.outbox[j].key;
    ReachableInv(s);
    RunKeepsRouting(s, steps);
    RunKeepsInv(s, steps);
    Guarantees.RunPersistsViews(s, steps, b);
    var t := Run(s, steps);
    assert t.payment.outbox[j] == s.payment.outbox[j] && t.payment.outbox[k] == s.payment.outbox[k];
    assert View(t, b).row == Some(s.booking.rows[b]);
    NothingClaimedBehind(t, j, k);
  }

  // ----- and nothing else holds it up -----

  // No event of a rejected booking stands at row k or before it on its partition.
  ghost predicate Unblocked(s: System, k: nat)
    requires |s.events.parts| > 0 && k < |s.payment.outbox|
  {
    forall j | 0 <= j <= k && Home(s.events, s.payment.outbox[j].key) == Home(s.events, s.payment.outbox[k].key) ::
      !Rejects(s, s.payment.outbox[j].key)
  }

  predicate Rejects(s: System, b: Uuid) {
    b in s.booking.rows && s.booking.rows[b].status == Rejected
  }

  // A row that is shipped and not claimed is still to be read.
  lemma ShippedIsAhead<T>(outbox: seq<Msg<T>>, link: Link<T>, inbox: set<Uuid>, k: nat)
    requires Relay.Inv(outbox, link, inbox) && k < link.cursor && k < |outbox| && outbox[k].id !in inbox
    ensures HasNext(link, Home(link, outbox[k].key))
  {
    hide Distinct, Sourced, Ordered, ClaimedInOrder;
    var p := link.parts[Home(link, outbox[k].key)];
    var i :| 0 <= i < |p.log| && p.log[i] == outbox[k];
  }

  // The reaction to what is read next on row k's partition commits, and rejects nothing.
  lemma NextIsHeard(s: System, k: nat, id: Uuid)
    requires Reachable(s) && |s.events.parts| > 0 && k < |s.payment.outbox|
      && s.payment.outbox[k].id !in s.booking.inbox
    requires Unblocked(s, k) && !Used(s.booking.outbox, id)
    requires var q := Home(s.events, s.payment.outbox[k].key); HasNext(s.events, q)
    ensures var q := Home(s.events, s.payment.outbox[k].key);
      && B.ReceivePaymentEvent(s.booking, Next(s.events, q), id).Ok?
      && forall b | Rejects(BookingReads(s, q, id), b) :: Rejects(s, b)
  {
    hide Reachable, Saga.Inv;
    var q := Home(s.events, s.payment.outbox[k].key);
    ReachableInv(s);
    NextIsBefore(s.payment.outbox, s.events, s.booking.inbox, q, k);
    var m := Next(s.events, q);
    if m.id !in s.booking.inbox {
      Guarantees.StallsExactlyWhenRejected(s, q, id);
      SagaSafety.DecideByTable(s.booking.rows[m.key], B.ReactionTo(m.body));
    }
  }

  lemma NextIsBefore<T>(outbox: seq<Msg<T>>, link: Link<T>, inbox: set<Uuid>, q: nat, k: nat)
    requires Relay.Inv(outbox, link, inbox) && HasNext(link, q)
    requires k < |outbox| && Home(link, outbox[k].key) == q && outbox[k].id !in inbox
    ensures exists j :: 0 <= j <= k && outbox[j] == Next(link, q) && Home(link, outbox[j].key) == q
  {
    hide Relay.Inv;
    var j := NextIsDue(outbox, link, inbox, q);
    assert j <= k;
  }

  lemma {:induction false} ClaimIsReachable(s: System, k: nat) returns (steps: seq<Step>)
    requires Reachable(s) && |s.commands.parts| > 0 && |s.events.parts| > 0 && k < |s.payment.outbox| && Unblocked(s, k)
    ensures k < |Run(s, steps).payment.outbox| && s.payment.outbox[k].id in Run(s, steps).booking.inbox
    decreases |s.payment.outbox| - s.events.cursor,
      var p := s.events.parts[Home(s.events, s.payment.outbox[k].key)]; |p.log| - p.position
  {
    hide Reachable, Relay.Inv, Saga.Inv, SagaInv;
    ReachableInv(s);
    var q := Home(s.events, s.payment.outbox[k].key);
    if s.payment.outbox[k].id in s.booking.inbox {
      steps := [];
      return;
    }
    var step: Step;
    if s.events.cursor < |s.payment.outbox| {
      step := ShipEvent;
    } else {
      var id := Liveness.FreshId(s.booking.outbox);
      ShippedIsAhead(s.payment.outbox, s.events, s.booking.inbox, k);
      NextIsHeard(s, k, id);
      step := BookingConsumes(q, id);
    }
    StaysReachable(s, step);
    var rest := ClaimIsReachable(Apply(s, step), k);
    steps := [step] + rest;
    assert steps[1..] == rest;
  }

  // A row of payment's outbox can still be claimed exactly if no row at or before it on its partition
  // belongs to a rejected booking.
  lemma ClaimableExactly(s: System, k: nat)
    requires Reachable(s) && |s.commands.parts| > 0 && |s.events.parts| > 0 && k < |s.payment.outbox|
    ensures (exists steps :: s.payment.outbox[k].id in Run(s, steps).booking.inbox) <==> Unblocked(s, k)
  {
    hide Reachable, Run;
    if Unblocked(s, k) {
      var steps := ClaimIsReachable(s, k);
    } else {
      var j :| 0 <= j <= k && Home(s.events, s.payment.outbox[j].key) == Home(s.events, s.payment.outbox[k].key)
        && Rejects(s, s.payment.outbox[j].key);
      forall steps ensures s.payment.outbox[k].id !in Run(s, steps).booking.inbox {
        RejectedEventBlocksPartition(s, j, k, steps);
      }
    }
  }
}
