/**
  What the log of one saga can look like, and what no later step can change.
*/
module SagaHistory {
  import opened Tables
  import opened Domain
  import opened Saga
  import opened SagaSafety
  import B = Bookings
  import P = Payments

  // ----- the log -----

  predicate Resting(p: Phase) {
    p != Broken && p != Paid && p != Unpaid && p != Phase.Taken
  }

  // The second half of a fact that is recorded as two events.
  function Completes(e: Event): Option<Event> {
    match e
    case PaymentAuthorized => Some(BookingConfirmed)
    case PaymentAuthorizationFailed => Some(BookingCancelled)
    case PaymentCaptured => Some(BookingCompleted)
    case _ => None
  }

  ghost predicate Adjacent(log: seq<B.Stored>, i: nat)
    requires i < |log|
  {
    var second := Completes(log[i].event);
    second.Some? ==> i + 1 < |log| && log[i + 1].event == second.value
  }

  // In a log the grammar accepts, only the last event can be waiting for its other half.
  lemma {:induction false} HalvesAreAdjacent(log: seq<B.Stored>, i: nat)
    requires Parse(log) != Broken && i < |log|
    ensures i < |log| - 1 ==> Adjacent(log, i)
    ensures i == |log| - 1 && Completes(log[i].event).Some? ==> !Resting(Parse(log))
  {
    var init := log[..|log| - 1];
    if i < |log| - 1 {
      HalvesAreAdjacent(init, i);
      if i < |init| - 1 {
        assert Adjacent(init, i);
      } else if Completes(log[i].event).Some? {
        assert Parse(init) == Parse(init[..|init| - 1] + [init[i]])
          by { assert init == init[..|init| - 1] + [init[i]]; }
      }
    }
  }

  // Nothing but a saga's own grammar: every two-event fact is whole, and there is one handover at most.
  lemma LogIsWhole(s: Saga, b: Booking)
    requires s.row == Some(b) && Inv(s)
    ensures forall i | 0 <= i < |s.log| :: Adjacent(s.log, i)
    ensures |Handovers(s.log)| <= 1
    ensures b == Replay(AsCreated(b), s.log) && b.version == |s.log| + 1 && Numbered(s.log)
  {
    hide SentInv, PaymentInv, StripeInv;
    assert Resting(Parse(s.log));
    forall i | 0 <= i < |s.log| ensures Adjacent(s.log, i) {
      HalvesAreAdjacent(s.log, i);
    }
  }

  // An active or completed row's overage is 50 cents for each mile beyond the allowance, between the
  // one handover and the last return.
  lemma OverageIsFromReadings(s: Saga, b: Booking)
    requires s.row == Some(b) && Inv(s) && (b.status == Active || b.status == Completed)
    ensures b.start.Some? && Handovers(s.log) == [b.start.value]
    ensures Returns(s.log) == [] ==> b.overageCents == 0
    ensures Returns(s.log) != [] ==> var last := Returns(s.log)[|Returns(s.log)| - 1].reading;
      var excess := last.odometer - b.start.value.odometer - b.dailyMileageLimit * (b.endDate - b.startDate);
      b.end == Some(last) && b.overageCents == 50 * (if excess > 0 then excess else 0)
  {
    hide LogInv, SentInv, PaymentInv, StripeInv, HeardInv;
  }

  // ----- what later steps keep -----

  predicate Terminal(status: Status) {
    status == Completed || status == Cancelled || status == Rejected
  }

  // Histories only grow, terminal rows and settled payments stay and Stripe is asked nothing more about
  // the latter, a hold keeps its terms, and a rejected booking's payment is stuck as it is.
  ghost predicate Persists(s: Saga, t: Saga) {
    && s.log <= t.log && s.sent <= t.sent && s.ledger <= t.ledger && s.events <= t.events
    && s.taken <= t.taken && s.heard <= t.heard
    && (s.row.Some? ==> t.row.Some? && AsCreated(t.row.value) == AsCreated(s.row.value))
    && (s.row.Some? && Terminal(s.row.value.status) ==> t.row == s.row)
    && (s.pay.Some? ==> t.pay.Some? && KeepsTerms(s.pay.value, t.pay.value) && t.stripe.hold == s.stripe.hold)
    && (s.pay.Some? && s.pay.value.status != P.Authorized ==> t.pay == s.pay && t.stripe == s.stripe)
    && (s.row.Some? && s.row.value.status == Rejected ==> t.heard == s.heard && (s.pay.Some? ==> t.pay == s.pay))
  }

  predicate KeepsTerms(p: P.Payment, q: P.Payment) {
    q.renterId == p.renterId && q.holdAmountCents == p.holdAmountCents && q.intentId == p.intentId
  }

  lemma RunPersists(s: Saga, b: Booking, c: B.Command, heard: nat)
    requires s.row == Some(b) && Allowed(b, c) && heard >= s.heard
    ensures Persists(s, Run(s, c).value.(heard := heard))
  {
    DecideByTable(b, c);
    LogsMakeTheRow(b, c);
  }

  lemma TakePersists(s: Saga, b: Booking, v: P.Verdicts)
    requires s.row == Some(b) && Inv(s) && s.taken < |s.sent|
    ensures Persists(s, Deliver(s, v))
  {
    hide LogInv, ReadingInv, SentInv, PaymentInv, StripeInv, HeardInv;
    TakeKeepsQueue(s, b);
    if s.pay.Some? && s.sent[s.taken].CapturePaymentRequested? {
      CapturesMeanReturned(s, b);
    }
  }

  lemma NextPersists(s: Saga, step: Step)
    requires Inv(s)
    ensures Persists(s, Next(s, step))
  {
    hide LogInv, ReadingInv, SentInv, PaymentInv, StripeInv, HeardInv;
    if s.row.Some? {
      var b := s.row.value;
      match step {
        case Do(c) =>
          DecideByTable(b, c);
          if FromHost(c) && Allowed(b, c) { RunPersists(s, b, c, s.heard); }
        case Take(v) => if s.taken < |s.sent| { TakePersists(s, b, v); }
        case Hear =>
          if s.heard < |s.events| {
            var c := B.ReactionTo(s.events[s.heard]);
            DecideByTable(b, c);
            if Allowed(b, c) { RunPersists(s, b, c, s.heard + 1); }
          }
        case _ =>
      }
    }
  }

  lemma PersistsTransitively(s: Saga, t: Saga, u: Saga)
    requires Persists(s, t) && Persists(t, u)
    ensures Persists(s, u)
  {
  }
}
