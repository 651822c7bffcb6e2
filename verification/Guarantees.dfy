/**
  The guarantees of the booking saga, for every state any run can reach: across both services, any
  number of bookings, duplicated and redelivered messages, crashes, and whatever Stripe answers.
*/
module Guarantees {
  import opened Tables
  import opened Domain
  import opened Relay
  import opened System
  import opened SagaFacts
  import opened SagaHistory
  import B = Bookings
  import P = Payments
  import Saga

  // Both outboxes are shipped and every row of them is claimed.
  ghost predicate Quiescent(s: System) {
    && (forall j | 0 <= j < |s.booking.outbox| :: s.booking.outbox[j].id in s.payment.inbox)
    && (forall j | 0 <= j < |s.payment.outbox| :: s.payment.outbox[j].id in s.booking.inbox)
  }

  lemma InvOf(s: System, b: Uuid)
    requires Reachable(s)
    ensures Saga.Inv(View(s, b)) && (b in s.booking.rows ==> View(s, b).row == Some(s.booking.rows[b]))
  {
    hide Saga.Inv, Relay.Inv;
    ReachableInv(s);
  }

  // Once everything is delivered, the two services agree on every booking.
  lemma QuiescentAgreement(s: System, b: Uuid)
    requires Reachable(s) && Quiescent(s) && b in s.booking.rows
    ensures var row, p, log := s.booking.rows[b], Lookup(s.payment.payments, b), Of(s.booking.events, b);
      match row.status
      case Requested => p.None? && row.mode == RequestToBook && !Saga.HasAccept(log)
      case Rejected => p.None? && row.mode == RequestToBook && !Saga.HasAccept(log)
      case Cancelled => p.Some? && p.value.status == P.AuthorizationFailed
      case Confirmed => p.Some? && p.value.status == P.Authorized
      case Active =>
        p.Some? && p.value.status == (if Saga.Returns(log) == [] then P.Authorized else P.CaptureFailed)
      case Completed => p.Some? && p.value.status == P.Captured && Saga.Returns(log) != []
  {
    hide Saga.Inv, Reachable;
    InvOf(s, b);
    AllTaken(s.booking.outbox, s.payment.inbox, b);
    AllTaken(s.payment.outbox, s.booking.inbox, b);
    DrainedAgreement(View(s, b), s.booking.rows[b]);
  }

  // Drained or not, booking is never ahead of payment.
  lemma BookingNeverAheadOfPayment(s: System, b: Uuid)
    requires Reachable(s) && b in s.booking.rows
    ensures var row, p := s.booking.rows[b], Lookup(s.payment.payments, b);
      && (row.status == Confirmed || row.status == Active || row.status == Completed ==>
            p.Some? && p.value.status != P.AuthorizationFailed && p.value.intentId.Some?)
      && (row.status == Completed ==>
           p.Some? && p.value.status == P.Captured && Saga.Returns(Of(s.booking.events, b)) != [])
      && (row.status == Cancelled ==> p.Some? && p.value.status == P.AuthorizationFailed)
  {
    hide Saga.Inv, Reachable;
    InvOf(s, b);
    NeverAheadOfPayment(View(s, b), s.booking.rows[b]);
  }

  lemma NoPaymentBeforeAcceptance(s: System, b: Uuid)
    requires Reachable(s) && b in s.booking.rows && s.booking.rows[b].mode == RequestToBook
    requires b in s.payment.payments || s.booking.rows[b].status in {Confirmed, Active, Completed, Cancelled}
    ensures Saga.HasAccept(Of(s.booking.events, b))
  {
    hide Saga.Inv, Reachable;
    InvOf(s, b);
    NoPaymentWithoutAcceptance(View(s, b), s.booking.rows[b]);
  }

  // ----- redelivery cannot be refused, but for one case -----

  lemma VersionsBounded(s: System, b: Uuid)
    requires SagaInv(s) && b in s.booking.rows
    ensures forall count: nat :: !B.Conflict(s.booking.events, b, s.booking.rows[b].version, count)
  {
    hide Saga.ReadingInv, Saga.SentInv, Saga.PaymentInv, Saga.StripeInv, Saga.HeardInv;
    assert Saga.Inv(View(s, b));
    var log, row := Of(s.booking.events, b), s.booking.rows[b];
    forall i | 0 <= i < |s.booking.events| && s.booking.events[i].key == b
      ensures s.booking.events[i].value.version <= row.version
    {
      OfMember(s.booking.events, b, i);
      var k :| 0 <= k < |log| && log[k] == s.booking.events[i].value;
    }
  }

  // Appends made one transaction at a time never collide on a version.
  lemma NoVersionConflict(s: System, b: Uuid, count: nat)
    requires Reachable(s) && b in s.booking.rows
    ensures !B.Conflict(s.booking.events, b, s.booking.rows[b].version, count)
  {
    hide Reachable, SagaInv;
    ReachableInv(s);
    VersionsBounded(s, b);
  }

  // The next unclaimed payment event is applied unless its booking was rejected; a refused one is
  // refused by the state machine. (`id` is the random id drawn for the notice it would post.)
  lemma StallsExactlyWhenRejected(s: System, q: nat, id: Uuid)
    requires Reachable(s) && HasNext(s.events, q) && Next(s.events, q).id !in s.booking.inbox
    requires !Used(s.booking.outbox, id)
    ensures var m := Next(s.events, q);
      && m.key in s.booking.rows
      && (B.ReceivePaymentEvent(s.booking, m, id).Ok? <==> s.booking.rows[m.key].status != Rejected)
      && (s.booking.rows[m.key].status == Rejected ==> m.body == B.Authorized || m.body == B.AuthorizationFailed)
  {
    hide Saga.Inv, Reachable, Relay.Inv, Of;
    var m := Next(s.events, q);
    ReachableInv(s);
    ConsumeTakesNext(s.payment.outbox, s.events, s.booking.inbox, q);
    var v := View(s, m.key);
    assert Saga.Inv(v);
    RowBehindEvents(v);
    PendingEventAccepted(v, v.row.value);
    var decision := B.Decide(v.row.value, B.ReactionTo(m.body));
    if decision.Ok? { NoVersionConflict(s, m.key, |decision.value.events|); }
  }

  lemma RowBehindEvents(v: Saga.Saga)
    requires Saga.Inv(v) && v.events != []
    ensures v.row.Some?
  {
  }

  // ----- money -----

  // Every capture command names exactly the amount held for its booking, which is what the rental costs.
  lemma CaptureEqualsHold(s: System, j: nat)
    requires Reachable(s) && j < |s.booking.outbox| && s.booking.outbox[j].body.CapturePaymentRequested?
    requires s.booking.outbox[j].key in s.payment.payments
    ensures var m, b := s.booking.outbox[j].body, s.booking.outbox[j].key;
      && b in s.booking.rows && m.hostId == s.booking.rows[b].hostId
      && m.holdAmountCents == s.payment.payments[b].holdAmountCents
      && s.booking.rows[b].startDate < s.booking.rows[b].endDate
      && m.holdAmountCents
         == s.booking.rows[b].dailyPriceCents * (s.booking.rows[b].endDate - s.booking.rows[b].startDate)
  {
    hide Saga.Inv, Reachable;
    var b := s.booking.outbox[j].key;
    var v := View(s, b);
    InvOf(s, b);
    SentMember(s.booking.outbox, j);
    var i :| 0 <= i < |v.sent| && v.sent[i] == s.booking.outbox[j].body;
    RowBehindPayment(v);
    CaptureNamesTheHold(v, v.row.value, i);
  }

  lemma {:induction false} SentMember<T>(outbox: seq<Msg<T>>, j: nat)
    requires j < |outbox|
    ensures outbox[j].body in Sent(outbox, outbox[j].key)
  {
    if j < |outbox| - 1 {
      SentMember(outbox[..|outbox| - 1], j);
    }
  }

  lemma RowBehindPayment(v: Saga.Saga)
    requires Saga.Inv(v) && (v.pay.Some? || v.stripe.calls != [] || v.ledger != [])
    ensures v.row.Some?
  {
  }

  // Whatever was crashed, retried or redelivered, two calls under one idempotency key are the same
  // request: one hold, one capture of that hold, one overage charge.
  lemma KeyedCallsAgree(s: System, b: Uuid, i: nat, j: nat)
    requires Reachable(s) && b in s.stripe && i < |s.stripe[b].calls| && j < |s.stripe[b].calls|
    requires s.stripe[b].calls[i].op == s.stripe[b].calls[j].op
    ensures s.stripe[b].calls[i].call == s.stripe[b].calls[j].call
  {
    hide Saga.Inv, Reachable;
    InvOf(s, b);
    RowBehindPayment(View(s, b));
    SameKeySameCall(View(s, b), i, j);
  }

  // A booking has ledger entries exactly when its payment is captured; then the renter's debits and the
  // host's credits both add up to the hold and the overage, and every amount is positive.
  lemma LedgerConservation(s: System, b: Uuid)
    requires Reachable(s)
    ensures var entries, p := Of(s.payment.ledger, b), Lookup(s.payment.payments, b);
      && (entries != [] <==> p.Some? && p.value.status == P.Captured)
      && Sum(entries, P.Debit) == Sum(entries, P.Credit) == CapturedCents(p)
      && (entries != [] ==> b in s.booking.rows)
      && forall e | e in entries :: ProperEntry(s.booking.rows[b], e)
    ensures var entries, p := Of(s.payment.ledger, b), Lookup(s.payment.payments, b);
      entries != [] ==> forall d ::
        SumFor(entries, P.Rental, d) == p.value.holdAmountCents
        && SumFor(entries, P.MileageOverage, d) == p.value.overageCents
  {
    hide Saga.Inv, Reachable;
    InvOf(s, b);
    var v := View(s, b);
    if v.pay.Some? || v.ledger != [] {
      RowBehindPayment(v);
      LedgerBalances(v, v.row.value);
    }
  }

  // What the ledger records, Stripe did: it captured the hold the payment names, for its full amount,
  // and charged the recorded overage, which is the overage of the first return.
  lemma LedgerBackedByStripe(s: System, b: Uuid)
    requires Reachable(s) && b in s.payment.payments && s.payment.payments[b].status == P.Captured
    ensures b in s.stripe
    ensures var p, stripe := s.payment.payments[b], P.StripeAt(s.stripe, b);
      && p.intentId.Some? && stripe.hold == Some(P.Slot(P.Call(p.holdAmountCents, None), P.Succeeded(p.intentId.value)))
      && Succeeded(stripe.capture, P.Call(p.holdAmountCents, p.intentId))
      && (p.overageCents > 0 ==>
           p.overageIntentId.Some?
           && stripe.overage == Some(P.Slot(P.Call(p.overageCents, None), P.Succeeded(p.overageIntentId.value))))
    ensures var p, returned := s.payment.payments[b], Saga.Returns(Of(s.booking.events, b));
      returned != [] && (p.overageCents == 0 || p.overageCents == returned[0].overageCents)
  {
    hide Saga.Inv, Reachable;
    InvOf(s, b);
    var v := View(s, b);
    RowBehindPayment(v);
    LedgerIsBacked(v, v.row.value);
    LedgerBalances(v, v.row.value);
    NeverAheadOfPayment(v, v.row.value);
  }

  // Whatever its status, a payment names the intents Stripe answered with: its hold's, unless the
  // authorization failed, and its overage charge's exactly if it records an overage.
  lemma IntentsAreStripes(s: System, b: Uuid)
    requires Reachable(s) && b in s.payment.payments
    ensures var p, stripe := s.payment.payments[b], P.StripeAt(s.stripe, b);
      && (p.intentId.None? <==> p.status == P.AuthorizationFailed)
      && (p.intentId.Some? ==> stripe.hold.Some? && stripe.hold.value.reply == P.Succeeded(p.intentId.value))
      && (p.overageIntentId.Some? <==> p.overageCents > 0)
      && (p.overageIntentId.Some? ==>
           stripe.overage.Some? && stripe.overage.value.reply == P.Succeeded(p.overageIntentId.value))
  {
    hide Saga.Inv, Reachable;
    InvOf(s, b);
    RowBehindPayment(View(s, b));
    IntentsKnown(View(s, b), View(s, b).row.value);
  }

  // The ledger's positive-amount check never stops a consumer while vehicles have positive prices.
  lemma AmountCheckNeverFires(s: System, q: nat, v: P.Verdicts, id: Uuid)
    requires Reachable(s) && HasNext(s.commands, q) && !Used(s.payment.outbox, id)
    requires var b := Next(s.commands, q).key; b in s.booking.rows && s.booking.rows[b].dailyPriceCents > 0
    ensures P.ReceiveMessage(s.payment, s.stripe, Next(s.commands, q), v, id).1.Ok?
  {
    hide Saga.Inv, Reachable, Relay.Inv;
    var m := Next(s.commands, q);
    ReachableInv(s);
    if m.id !in s.payment.inbox {
      ConsumeTakesNext(s.booking.outbox, s.commands, s.payment.inbox, q);
      assert Saga.Inv(View(s, m.key));
      OnlyFreeBookingsFail(View(s, m.key), s.booking.rows[m.key], v);
    }
  }

  // ----- the log -----

  // The row is the projection of its log: replaying the logged events from the created row gives back
  // status, readings and overage, and versions run from 2 without a gap. Two-event facts are adjacent.
  lemma RowIsProjectionOfLog(s: System, b: Uuid)
    requires Reachable(s) && b in s.booking.rows
    ensures var row, log := s.booking.rows[b], Of(s.booking.events, b);
      && row == Saga.Replay(Saga.AsCreated(row), log)
      && row.version == |log| + 1 && Saga.Numbered(log)
      && (forall i | 0 <= i < |log| :: Adjacent(log, i))
      && |Saga.Handovers(log)| <= 1
  {
    hide Saga.Inv, Reachable;
    InvOf(s, b);
    LogIsWhole(View(s, b), s.booking.rows[b]);
  }

  // Every log is a word of the grammar, and where it stops in the grammar is the row's status.
  lemma LogFollowsGrammar(s: System, b: Uuid)
    requires Reachable(s) && b in s.booking.rows
    ensures var row, log := s.booking.rows[b], Of(s.booking.events, b);
      Saga.Parse(log) == Saga.PhaseFor(row.status, Taken(s.payment.outbox, s.booking.inbox, b), Saga.Returns(log) != [])
  {
    hide Reachable, Saga.ReadingInv, Saga.SentInv, Saga.PaymentInv, Saga.StripeInv, Saga.HeardInv;
    InvOf(s, b);
  }

  lemma OverageDecidedByReadings(s: System, b: Uuid)
    requires Reachable(s) && b in s.booking.rows && s.booking.rows[b].status in {Active, Completed}
    ensures var row, log := s.booking.rows[b], Of(s.booking.events, b);
      && row.start.Some? && Saga.Handovers(log) == [row.start.value]
      && (Saga.Returns(log) == [] ==> row.overageCents == 0)
    ensures var row, returned := s.booking.rows[b], Saga.Returns(Of(s.booking.events, b));
      returned != [] ==>
        var last := returned[|returned| - 1].reading;
        var excess := last.odometer - row.start.value.odometer - row.dailyMileageLimit * (row.endDate - row.startDate);
        row.end == Some(last) && row.overageCents == 50 * (if excess > 0 then excess else 0)
  {
    hide Saga.Inv, Reachable;
    InvOf(s, b);
    OverageIsFromReadings(View(s, b), s.booking.rows[b]);
  }

  // ----- what a run cannot undo -----

  lemma {:induction false} RunPersistsViews(s: System, steps: seq<Step>, b: Uuid)
    requires |s.commands.parts| > 0 && |s.events.parts| > 0 && RelayInv(s) && SagaInv(s)
    ensures Persists(View(s, b), View(Run(s, steps), b))
    decreases steps
  {
    hide Apply, RelayInv, Saga.Inv, Saga.Next;
    if steps != [] {
      var s' := Apply(s, steps[0]);
      ApplyMovesOneSaga(s, steps[0]);
      SagaStepKeepsInv(s, s');
      var k, st :| Moves(s, s', k, st);
      assert Saga.Inv(View(s, b));
      SagaHistory.NextPersists(View(s, b), st);
      RunPersistsViews(s', steps[1..], b);
      PersistsTransitively(View(s, b), View(s', b), View(Run(s', steps[1..]), b));
    }
  }

  // Whatever happens later: the event log, ledger and messages of a booking only grow, a finished
  // booking and a settled payment stay exactly as they are, a hold keeps its amount, renter and intent.
  lemma HistoryIsPermanent(s: System, steps: seq<Step>, b: Uuid)
    requires Reachable(s)
    ensures var t := Run(s, steps);
      && Of(s.booking.events, b) <= Of(t.booking.events, b) && Of(s.payment.ledger, b) <= Of(t.payment.ledger, b)
      && (b in s.booking.rows ==> b in t.booking.rows)
      && (b in s.booking.rows && Terminal(s.booking.rows[b].status) ==> t.booking.rows[b] == s.booking.rows[b])
      && (b in s.payment.payments ==>
           b in t.payment.payments && KeepsTerms(s.payment.payments[b], t.payment.payments[b]))
      && (b in s.payment.payments && s.payment.payments[b].status != P.Authorized ==>
           t.payment.payments[b] == s.payment.payments[b])
  {
    hide Reachable, Apply, Run;
    ReachableInv(s);
    RunPersistsViews(s, steps, b);
  }

  // A booking rejected while its hold was being placed never hears of it, and the hold is never settled.
  lemma RejectedHoldIsNeverReleased(s: System, steps: seq<Step>, b: Uuid)
    requires Reachable(s) && b in s.booking.rows && s.booking.rows[b].status == Rejected
    requires b in s.payment.payments && s.payment.payments[b].status == P.Authorized
    ensures var t := Run(s, steps);
      && b in t.booking.rows && t.booking.rows[b] == s.booking.rows[b]
      && b in t.payment.payments && t.payment.payments[b] == s.payment.payments[b]
      && !Quiescent(t)
  {
    hide Reachable, Apply, Run, Saga.Inv;
    ReachableInv(s);
    InvOf(s, b);
    RunPersistsViews(s, steps, b);
    RejectedHeardNothing(View(s, b));
    var t := Run(s, steps);
    if Quiescent(t) {
      AllTaken(t.payment.outbox, t.booking.inbox, b);
      assert false;
    }
  }

  lemma RejectedHeardNothing(v: Saga.Saga)
    requires Saga.Inv(v) && v.row.Some? && v.row.value.status == Rejected
    ensures v.heard == 0 && (v.pay.Some? ==> v.events != [])
  {
  }
}
