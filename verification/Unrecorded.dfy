/**
  Money Stripe holds or took and the payment service does not show. Its handlers treat a call whose answer
  is lost as a failed one and settle the payment for good (services/payment/service.py:26-44, 76-92 and
  104-117), so what Stripe did under that key may stay unrecorded. This module says exactly when it does.
*/
module Unrecorded {
  import opened Tables
  import opened Domain
  import opened Relay
  import opened System
  import opened SagaFacts
  import opened SagaSafety
  import opened LateRejection
  import Guarantees
  import Liveness
  import SagaHistory
  import B = Bookings
  import P = Payments
  import Saga

  // ----- the message that settles a payment -----

  lemma RepliesAsRemembered(s: P.Stripe, op: P.Op, call: P.Call, v: P.Verdict)
    requires P.SlotOf(s, op).Some? ==> P.SlotOf(s, op).value.call == call
    ensures var (s', reply) := P.Invoke(s, op, call, v);
      && (Saga.Remembers(P.SlotOf(s', op)) ==> (reply.Succeeded? <==> v.Decides?))
      && (reply.Succeeded? ==> Saga.Remembers(P.SlotOf(s', op)))
      && forall other | other != op :: P.SlotOf(s', other) == P.SlotOf(s, other)
  {
  }

  lemma KnownCalls(s: Saga.Saga, b: Booking)
    requires s.row == Some(b) && Saga.Inv(s) && s.taken < |s.sent| && s.sent[s.taken].CapturePaymentRequested?
    requires s.pay.Some? && s.pay.value.status == P.Authorized
    ensures var m := s.sent[s.taken];
      && (s.stripe.capture.Some? ==> s.stripe.capture.value.call == P.Call(m.holdAmountCents, s.pay.value.intentId))
      && (s.stripe.overage.Some? ==> m.overageCents > 0 && s.stripe.overage.value.call == P.Call(m.overageCents, None))
      && (s.stripe.overage.Some? ==> Saga.Remembers(s.stripe.capture))
      && s.pay.value.overageCents == 0
  {
    hide Saga.LogInv, Saga.ReadingInv, Saga.SentInv, Saga.HeardInv;
    TakeKeepsQueue(s, b);
    assert P.SlotOf(s.stripe, P.CaptureOp) == s.stripe.capture && P.SlotOf(s.stripe, P.OverageOp) == s.stripe.overage;
  }

  // A capture Stripe remembers stays out of the books exactly if its answer did not arrive when the
  // payment was settled; an overage charge, exactly if either answer did not.
  lemma SettlingOutcome(s: Saga.Saga, b: Booking, v: P.Verdicts)
    requires s.row == Some(b) && Saga.Inv(s) && s.taken < |s.sent| && s.sent[s.taken].CapturePaymentRequested?
    requires s.pay.Some? && s.pay.value.status == P.Authorized
    requires P.Handle(s.pay, s.stripe, s.sent[s.taken], v).result.Ok?
    ensures var t := Saga.Deliver(s, v);
      && t.pay.Some? && Saga.Settled(t.pay.value)
      && (Saga.Remembers(t.stripe.capture) ==> (t.pay.value.status == P.CaptureFailed <==> !v.first.Decides?))
      && (Saga.Remembers(t.stripe.overage) ==>
           (t.pay.value.overageCents == 0 <==> !v.first.Decides? || !v.second.Decides?))
  {
    hide Saga.Inv;
    KnownCalls(s, b);
    var m := s.sent[s.taken];
    RepliesAsRemembered(s.stripe, P.CaptureOp, P.Call(m.holdAmountCents, s.pay.value.intentId), v.first);
    var s1 := P.Invoke(s.stripe, P.CaptureOp, P.Call(m.holdAmountCents, s.pay.value.intentId), v.first).0;
    if m.overageCents > 0 {
      RepliesAsRemembered(s1, P.OverageOp, P.Call(m.overageCents, None), v.second);
    }
  }

  // A hold Stripe remembers is denied by the payment exactly if its answer did not arrive.
  lemma PlacingOutcome(s: Saga.Saga, b: Booking, v: P.Verdicts)
    requires s.row == Some(b) && Saga.Inv(s) && s.taken < |s.sent| && s.sent[s.taken].AuthorizePaymentRequested?
    requires s.pay.None?
    ensures var t := Saga.Deliver(s, v);
      && t.pay.Some?
      && (Saga.Remembers(t.stripe.hold) ==> (t.pay.value.intentId.None? <==> !v.first.Decides?))
  {
    hide Saga.LogInv, Saga.ReadingInv, Saga.SentInv, Saga.PaymentInv, Saga.HeardInv;
    TakeKeepsQueue(s, b);
    assert P.SlotOf(s.stripe, P.HoldOp) == s.stripe.hold;
    RepliesAsRemembered(s.stripe, P.HoldOp, P.Call(s.sent[s.taken].amountCents, None), v.first);
  }

  // ----- the step of a run that settles a payment -----

  predicate SettledAt(s: System, b: Uuid) {
    b in s.payment.payments && Saga.Settled(s.payment.payments[b])
  }

  // Payment consumes a first capture command for an authorized hold and its handler succeeds.
  ghost predicate Settles(s: System, q: nat, v: P.Verdicts, id: Uuid, b: Uuid) {
    && HasNext(s.commands, q)
    && var m := Next(s.commands, q);
       && m.key == b && m.id !in s.payment.inbox && m.body.CapturePaymentRequested?
       && b in s.payment.payments && s.payment.payments[b].status == P.Authorized
       && P.ReceiveMessage(s.payment, s.stripe, m, v, id).1.Ok?
  }

  // The payment was settled while Stripe gave these verdicts.
  ghost predicate SettledUnder(s: System, b: Uuid, v: P.Verdicts) {
    exists before, q, id, steps :: SettledAfter(s, b, v, before, q, id, steps)
  }

  ghost predicate SettledAfter(s: System, b: Uuid, v: P.Verdicts, before: System, q: nat, id: Uuid, steps: seq<Step>) {
    && Reachable(before) && |before.commands.parts| > 0 && |before.events.parts| > 0
    && Settles(before, q, v, id, b) && s == Run(Apply(before, PaymentConsumes(q, v, id)), steps)
  }

  lemma OnlyCapturesSettle(s: System, step: Step, b: Uuid)
    requires |s.commands.parts| > 0 && |s.events.parts| > 0 && !SettledAt(s, b) && SettledAt(Apply(s, step), b)
    ensures step.PaymentConsumes? && Settles(s, step.q, step.verdicts, step.id, b)
  {
    hide B.Execute, B.CreateBooking, P.Interrupted, P.Invoke;
  }

  lemma {:induction false} SettlingStepOf(s: System, steps: seq<Step>, b: Uuid) returns (v: P.Verdicts)
    requires Reachable(s) && |s.commands.parts| > 0 && |s.events.parts| > 0
    requires !SettledAt(s, b) && SettledAt(Run(s, steps), b)
    ensures SettledUnder(Run(s, steps), b, v)
    decreases steps
  {
    hide Apply, Reachable, Settles;
    var step := steps[0];
    if SettledAt(Apply(s, step), b) {
      OnlyCapturesSettle(s, step, b);
      v := step.verdicts;
      assert SettledAfter(Run(s, steps), b, v, s, step.q, step.id, steps[1..]);
    } else {
      StaysReachable(s, step);
      v := SettlingStepOf(Apply(s, step), steps[1..], b);
    }
  }

  // Every settled payment was settled under some verdicts.
  lemma SettledUnderSome(s: System, b: Uuid) returns (v: P.Verdicts)
    requires Reachable(s) && SettledAt(s, b)
    ensures SettledUnder(s, b, v)
  {
    hide Apply, Run, SettledUnder;
    var s0, steps :| Init(s0) && s == Run(s0, steps);
    InitIsReachable(s0);
    v := SettlingStepOf(s0, steps, b);
  }

  // In any reachable state: what Stripe remembers having captured for a settled payment is missing from
  // the ledger exactly if the capture's answer was lost when the payment was settled, and an overage it
  // remembers having charged exactly if that answer or the capture's was.
  lemma UnrecordedExactly(s: System, b: Uuid, v: P.Verdicts)
    requires SettledUnder(s, b, v)
    ensures Reachable(s) && SettledAt(s, b)
    ensures Saga.Remembers(P.StripeAt(s.stripe, b).capture) ==>
      (Of(s.payment.ledger, b) == [] <==> !v.first.Decides?)
    ensures Saga.Remembers(P.StripeAt(s.stripe, b).overage) ==>
      (s.payment.payments[b].overageCents == 0 <==> !v.first.Decides? || !v.second.Decides?)
  {
    hide Apply, Run, Reachable, Saga.Inv, Relay.Inv, Settles, Saga.Remembers, Of;
    var before, q, id, steps :| SettledAfter(s, b, v, before, q, id, steps);
    var step := PaymentConsumes(q, v, id);
    SettledByStep(before, q, v, id, b);
    StaysReachable(before, step);
    RunStaysReachable(Apply(before, step), steps);
    ReachableInv(Apply(before, step));
    Guarantees.RunPersistsViews(Apply(before, step), steps, b);
    Guarantees.LedgerConservation(s, b);
  }

  lemma SettledByStep(s: System, q: nat, v: P.Verdicts, id: Uuid, b: Uuid)
    requires Reachable(s) && Settles(s, q, v, id, b) && |s.commands.parts| > 0 && |s.events.parts| > 0
    ensures var t := Apply(s, PaymentConsumes(q, v, id)); var stripe := P.StripeAt(t.stripe, b);
      && SettledAt(t, b)
      && (Saga.Remembers(stripe.capture) ==> (t.payment.payments[b].status == P.CaptureFailed <==> !v.first.Decides?))
      && (Saga.Remembers(stripe.overage) ==>
            (t.payment.payments[b].overageCents == 0 <==> !v.first.Decides? || !v.second.Decides?))
  {
    hide Reachable, Saga.Inv, Relay.Inv, P.Handle, Sent, Taken, Of;
    ReachableInv(s);
    var w := View(s, b);
    assert Saga.Inv(w);
    ConsumeTakesNext(s.booking.outbox, s.commands, s.payment.inbox, q);
    Guarantees.RowBehindPayment(w);
    SettlingOutcome(w, w.row.value, v);
  }

  // ----- the step of a run that places a hold -----

  ghost predicate Places(s: System, q: nat, v: P.Verdicts, id: Uuid, b: Uuid) {
    && HasNext(s.commands, q)
    && var m := Next(s.commands, q);
       && m.key == b && m.id !in s.payment.inbox && m.body.AuthorizePaymentRequested? && b !in s.payment.payments
       && P.ReceiveMessage(s.payment, s.stripe, m, v, id).1.Ok?
  }

  // The payment was made, or failed, while Stripe gave these verdicts.
  ghost predicate PlacedUnder(s: System, b: Uuid, v: P.Verdicts) {
    exists before, q, id, steps :: PlacedAfter(s, b, v, before, q, id, steps)
  }

  ghost predicate PlacedAfter(s: System, b: Uuid, v: P.Verdicts, before: System, q: nat, id: Uuid, steps: seq<Step>) {
    && Reachable(before) && |before.commands.parts| > 0 && |before.events.parts| > 0
    && Places(before, q, v, id, b) && s == Run(Apply(before, PaymentConsumes(q, v, id)), steps)
  }

  lemma OnlyAuthorizationsPlace(s: System, step: Step, b: Uuid)
    requires |s.commands.parts| > 0 && |s.events.parts| > 0
    requires b !in s.payment.payments && b in Apply(s, step).payment.payments
    ensures step.PaymentConsumes? && Places(s, step.q, step.verdicts, step.id, b)
  {
    hide B.Execute, B.CreateBooking, P.Interrupted, P.Invoke;
  }

  lemma {:induction false} PlacingStepOf(s: System, steps: seq<Step>, b: Uuid) returns (v: P.Verdicts)
    requires Reachable(s) && |s.commands.parts| > 0 && |s.events.parts| > 0
    requires b !in s.payment.payments && b in Run(s, steps).payment.payments
    ensures PlacedUnder(Run(s, steps), b, v)
    decreases steps
  {
    hide Apply, Reachable, Places;
    var step := steps[0];
    if b in Apply(s, step).payment.payments {
      OnlyAuthorizationsPlace(s, step, b);
      v := step.verdicts;
      assert PlacedAfter(Run(s, steps), b, v, s, step.q, step.id, steps[1..]);
    } else {
      StaysReachable(s, step);
      v := PlacingStepOf(Apply(s, step), steps[1..], b);
    }
  }

  // Every payment was placed under some verdicts.
  lemma PlacedUnderSome(s: System, b: Uuid) returns (v: P.Verdicts)
    requires Reachable(s) && b in s.payment.payments
    ensures PlacedUnder(s, b, v)
  {
    hide Apply, Run, PlacedUnder;
    var s0, steps :| Init(s0) && s == Run(s0, steps);
    InitIsReachable(s0);
    v := PlacingStepOf(s0, steps, b);
  }

  // In any reachable state: a payment reads `authorization_failed` although Stripe holds the money exactly
  // if the answer was lost when the hold was placed.
  lemma DeniedHoldExactly(s: System, b: Uuid, v: P.Verdicts)
    requires PlacedUnder(s, b, v)
    ensures Reachable(s) && b in s.payment.payments
    ensures Saga.Remembers(P.StripeAt(s.stripe, b).hold) ==>
      (s.payment.payments[b].status == P.AuthorizationFailed <==> !v.first.Decides?)
  {
    hide Apply, Run, Reachable, Saga.Inv, Relay.Inv, Places, Saga.Remembers, Of;
    var before, q, id, steps :| PlacedAfter(s, b, v, before, q, id, steps);
    var step := PaymentConsumes(q, v, id);
    PlacedByStep(before, q, v, id, b);
    StaysReachable(before, step);
    RunStaysReachable(Apply(before, step), steps);
    ReachableInv(Apply(before, step));
    Guarantees.RunPersistsViews(Apply(before, step), steps, b);
    ReachableInv(s);
    FailedMeansNoIntent(View(s, b));
  }

  lemma FailedMeansNoIntent(w: Saga.Saga)
    requires Saga.Inv(w) && w.pay.Some?
    ensures w.pay.value.status == P.AuthorizationFailed <==> w.pay.value.intentId.None?
  {
    hide Saga.LogInv, Saga.ReadingInv, Saga.SentInv, Saga.HeardInv, Saga.StripeInv;
  }

  lemma PlacedByStep(s: System, q: nat, v: P.Verdicts, id: Uuid, b: Uuid)
    requires Reachable(s) && Places(s, q, v, id, b) && |s.commands.parts| > 0 && |s.events.parts| > 0
    ensures var t := Apply(s, PaymentConsumes(q, v, id));
      && b in t.payment.payments
      && (Saga.Remembers(P.StripeAt(t.stripe, b).hold) ==>
            (t.payment.payments[b].intentId.None? <==> !v.first.Decides?))
  {
    hide Reachable, Saga.Inv, Relay.Inv, P.Handle, Sent, Taken, Of;
    ReachableInv(s);
    var w := View(s, b);
    assert Saga.Inv(w);
    ConsumeTakesNext(s.booking.outbox, s.commands, s.payment.inbox, q);
    Liveness.SentMeansRow(w);
    PlacingOutcome(w, w.row.value, v);
  }

  // ----- it happens -----

  const AtHandover := Reading(100, 50, "out")
  const AtReturn := Reading(400, 40, "home")

  function RowAt(status: Status, version: nat, start: Option<Reading>, end: Option<Reading>, overage: int): Booking {
    Booking(2, 3, 1, 0, 2, 5000, 100, Instant, status, version, start, end, overage)
  }

  const AskHold := Msg(7, 0, B.AuthorizePaymentRequested(1, 10000))
  const HoldMade := Msg(8, 0, B.Authorized)
  const Notice := Msg(9, 0, B.LifecycleNotice(B.NoticeConfirmed, 1, 3, Confirmed))
  const AskCapture := Msg(11, 0, B.CapturePaymentRequested(3, 10000, 5000))

  const Hold := P.Payment(1, 10000, 0, P.Authorized, Some(5), None)
  const HoldAtStripe :=
    P.Stripe(Some(P.Slot(P.Call(10000, None), P.Succeeded(5))), None, None,
      [P.KeyedCall(P.HoldOp, P.Call(10000, None))])

  // A hold was placed and its event shipped.
  lemma HoldShipped() returns (s: System)
    ensures Reachable(s)
    ensures s.booking.rows == map[0 := RowAt(Requested, 2, None, None, 0)] && s.booking.outbox == [AskHold]
      && s.booking.inbox == {}
    ensures s.booking.events == [Row(0, B.Stored(2, BookingRequested))]
    ensures s.payment == P.PaymentDb(map[0 := Hold], [], [HoldMade], {7}) && s.stripe == map[0 := HoldAtStripe]
    ensures |s.commands.parts| == 1 && s.commands.parts[0].log == [AskHold] && s.commands.parts[0].position == 1
      && s.commands.cursor == 1
    ensures |s.events.parts| == 1 && s.events.parts[0].log == [HoldMade] && s.events.parts[0].position == 0
  {
    hide Reachable;
    var s1 := RequestPlaced();
    StaysReachable(s1, ShipCommand);
    var s2 := Apply(s1, ShipCommand);
    var pay := PaymentConsumes(0, P.Verdicts(P.Decides(P.Succeeded(5)), P.RequestLost), 8);
    StaysReachable(s2, pay);
    var s3 := Apply(s2, pay);
    assert [] + [P.KeyedCall(P.HoldOp, P.Call(10000, None))] == [P.KeyedCall(P.HoldOp, P.Call(10000, None))];
    StaysReachable(s3, ShipEvent);
    s := Apply(s3, ShipEvent);
  }

  // Booking hears of it.
  lemma HoldHeard() returns (s: System)
    ensures Reachable(s)
    ensures s.booking.rows == map[0 := RowAt(Confirmed, 4, None, None, 0)]
    ensures s.booking.outbox == [AskHold, Notice]
    ensures forall i | 0 <= i < |s.booking.events| :: s.booking.events[i].value.version <= 4
    ensures s.payment == P.PaymentDb(map[0 := Hold], [], [HoldMade], {7}) && s.stripe == map[0 := HoldAtStripe]
    ensures |s.commands.parts| == 1 && s.commands.parts[0].log == [AskHold] && s.commands.parts[0].position == 1
      && s.commands.cursor == 1
    ensures |s.events.parts| == 1
  {
    hide Reachable;
    var s1 := HoldShipped();
    StaysReachable(s1, BookingConsumes(0, 9));
    assert Next(s1.events, 0) == HoldMade;
    s := Apply(s1, BookingConsumes(0, 9));
  }

  // The rental begins.
  lemma HandedOver() returns (s: System)
    ensures Reachable(s)
    ensures s.booking.rows == map[0 := RowAt(Active, 5, Some(AtHandover), None, 0)]
    ensures s.booking.outbox == [AskHold, Notice]
    ensures forall i | 0 <= i < |s.booking.events| :: s.booking.events[i].value.version <= 5
    ensures s.payment == P.PaymentDb(map[0 := Hold], [], [HoldMade], {7}) && s.stripe == map[0 := HoldAtStripe]
    ensures |s.commands.parts| == 1 && s.commands.parts[0].log == [AskHold] && s.commands.parts[0].position == 1
      && s.commands.cursor == 1
    ensures |s.events.parts| == 1
  {
    hide Reachable;
    var s1 := HoldHeard();
    var handover := Command(0, B.Handover(3, AtHandover), 10);
    StaysReachable(s1, handover);
    s := Apply(s1, handover);
  }

  // It ends 100 miles over the allowance.
  lemma Returned() returns (s: System)
    ensures Reachable(s) && s.booking.outbox == [AskHold, Notice, AskCapture]
    ensures s.payment == P.PaymentDb(map[0 := Hold], [], [HoldMade], {7}) && s.stripe == map[0 := HoldAtStripe]
    ensures |s.commands.parts| == 1 && s.commands.parts[0].log == [AskHold] && s.commands.parts[0].position == 1
      && s.commands.cursor == 1
    ensures |s.events.parts| == 1
  {
    hide Reachable;
    var s1 := HandedOver();
    var back := Command(0, B.Return(3, AtReturn), 11);
    StaysReachable(s1, back);
    s := Apply(s1, back);
  }

  // The capture command reaches payment.
  lemma CaptureAsked() returns (s: System)
    ensures Reachable(s)
    ensures s.payment.payments == map[0 := Hold] && s.payment.ledger == [] && s.payment.outbox == [HoldMade]
      && 11 !in s.payment.inbox
    ensures s.stripe == map[0 := HoldAtStripe]
    ensures HasNext(s.commands, 0) && Next(s.commands, 0) == AskCapture && |s.events.parts| > 0
  {
    hide Reachable;
    var s1 := Returned();
    StaysReachable(s1, ShipCommand);
    var s2 := Apply(s1, ShipCommand);
    StaysReachable(s2, ShipCommand);
    var s3 := Apply(s2, ShipCommand);
    assert s3.commands.parts[0].log == [AskHold, Notice, AskCapture];
    var skip := PaymentConsumes(0, P.Verdicts(P.RequestLost, P.RequestLost), 12);
    StaysReachable(s3, skip);
    s := Apply(s3, skip);
  }

  // Stripe captures the hold but its answer is lost: the payment fails for good with the money taken.
  lemma CaptureGoesUnrecorded() returns (s: System)
    ensures Reachable(s) && SettledAt(s, 0)
    ensures Saga.Remembers(P.StripeAt(s.stripe, 0).capture) && Of(s.payment.ledger, 0) == []
  {
    hide Reachable;
    var s1 := CaptureAsked();
    var capture := PaymentConsumes(0, P.Verdicts(P.ReplyLost(P.Succeeded(5)), P.RequestLost), 13);
    StaysReachable(s1, capture);
    s := Apply(s1, capture);
  }

  // The overage is charged but its answer is lost: the payment is captured without it.
  lemma OverageGoesUnrecorded() returns (s: System)
    ensures Reachable(s) && SettledAt(s, 0) && s.payment.payments[0].status == P.Captured
    ensures Saga.Remembers(P.StripeAt(s.stripe, 0).overage) && s.payment.payments[0].overageCents == 0
  {
    hide Reachable;
    var s1 := CaptureAsked();
    var capture := PaymentConsumes(0, P.Verdicts(P.Decides(P.Succeeded(5)), P.ReplyLost(P.Succeeded(6))), 13);
    StaysReachable(s1, capture);
    s := Apply(s1, capture);
  }

  // The hold is placed but its answer is lost: the payment fails, the booking is cancelled, and Stripe
  // keeps the hold.
  lemma CancelledWithHold() returns (s: System)
    ensures Reachable(s) && 0 in s.booking.rows && s.booking.rows[0].status == Cancelled
    ensures 0 in s.payment.payments && s.payment.payments[0].status == P.AuthorizationFailed
    ensures Saga.Remembers(P.StripeAt(s.stripe, 0).hold)
  {
    hide Reachable;
    var s1 := HoldAnswerLost();
    StaysReachable(s1, ShipEvent);
    var s2 := Apply(s1, ShipEvent);
    assert Next(s2.events, 0) == Msg(8, 0, B.AuthorizationFailed);
    StaysReachable(s2, BookingConsumes(0, 9));
    s := Apply(s2, BookingConsumes(0, 9));
  }

  lemma HoldAnswerLost() returns (s: System)
    ensures Reachable(s)
    ensures s.booking.rows == map[0 := RowAt(Requested, 2, None, None, 0)] && s.booking.outbox == [AskHold]
    ensures s.booking.inbox == {} && s.booking.events == [Row(0, B.Stored(2, BookingRequested))]
    ensures s.payment.outbox == [Msg(8, 0, B.AuthorizationFailed)] && s.events == Fresh.events
    ensures |s.commands.parts| > 0
    ensures 0 in s.payment.payments && s.payment.payments[0].status == P.AuthorizationFailed
    ensures Saga.Remembers(P.StripeAt(s.stripe, 0).hold)
  {
    hide Reachable;
    var s1 := RequestPlaced();
    StaysReachable(s1, ShipCommand);
    var s2 := Apply(s1, ShipCommand);
    var pay := PaymentConsumes(0, P.Verdicts(P.ReplyLost(P.Succeeded(5)), P.RequestLost), 8);
    StaysReachable(s2, pay);
    s := Apply(s2, pay);
  }
}
