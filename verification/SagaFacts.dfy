/**
  What the invariant of one saga says, spelled out.
*/
module SagaFacts {
  import opened Tables
  import opened Domain
  import opened Saga
  import opened SagaSafety
  import B = Bookings
  import P = Payments

  // Everything either side sent has been taken or heard by the other.
  predicate Drained(s: Saga) {
    s.taken == |s.sent| && s.heard == |s.events|
  }

  lemma DrainedAgreement(s: Saga, b: Booking)
    requires s.row == Some(b) && Inv(s) && Drained(s)
    ensures match b.status
      case Requested => s.pay.None? && b.mode == RequestToBook && !HasAccept(s.log)
      case Rejected => s.pay.None? && b.mode == RequestToBook && !HasAccept(s.log)
      case Cancelled => HasPayment(s, P.AuthorizationFailed)
      case Confirmed => HasPayment(s, P.Authorized)
      case Active => (HasPayment(s, P.Authorized) && Returns(s.log) == [])
        || (HasPayment(s, P.CaptureFailed) && Returns(s.log) != [])
      case Completed => HasPayment(s, P.Captured) && Returns(s.log) != []
  {
    hide LogInv, StripeInv;
    assert s.sent[..s.taken] == s.sent;
  }

  lemma NeverAheadOfPayment(s: Saga, b: Booking)
    requires s.row == Some(b) && Inv(s)
    ensures b.status == Confirmed || b.status == Active || b.status == Completed ==>
      s.pay.Some? && s.pay.value.status != P.AuthorizationFailed && s.pay.value.intentId.Some?
    ensures b.status == Completed ==> HasPayment(s, P.Captured) && Returns(s.log) != []
    ensures b.status == Cancelled ==> HasPayment(s, P.AuthorizationFailed)
    ensures s.pay.Some? && Settled(s.pay.value) ==>
      Returns(s.log) != [] && (b.status == Active || b.status == Completed)
  {
    hide LogInv, ReadingInv, SentInv, PaymentInv, StripeInv, HeardInv;
    StatusFitsPayment(s, b);
    if s.pay.Some? && Settled(s.pay.value) {
      SettledMeansCaptures(s, b);
      CapturesMeanReturned(s, b);
    }
  }

  lemma {:induction false} AuthorizeTaken(sent: seq<B.Message>, n: nat)
    requires n <= |sent| && HasAuthorize(sent[..n])
    ensures HasAuthorize(sent)
  {
    if n < |sent| {
      assert sent[..|sent| - 1][..n] == sent[..n];
      AuthorizeTaken(sent[..|sent| - 1], n);
    } else {
      assert sent[..n] == sent;
    }
  }

  // The confirm transition does not test acceptance; it is implied by there being a payment at all.
  lemma NoPaymentWithoutAcceptance(s: Saga, b: Booking)
    requires s.row == Some(b) && Inv(s) && b.mode == RequestToBook
    requires s.pay.Some? || b.status == Confirmed || b.status == Active || b.status == Completed
      || b.status == Cancelled
    ensures HasAccept(s.log)
  {
    NeverAheadOfPayment(s, b);
    hide LogInv, ReadingInv, StripeInv, HeardInv;
    AuthorizeTaken(s.sent, s.taken);
  }

  // The reaction to the next payment event is accepted exactly when the booking was not rejected.
  lemma PendingEventAccepted(s: Saga, b: Booking)
    requires s.row == Some(b) && Inv(s) && s.heard < |s.events|
    ensures Run(s, B.ReactionTo(s.events[s.heard])).Some? <==> b.status != Rejected
    ensures s.events[s.heard] == B.Captured || s.events[s.heard] == B.CaptureFailed ==> b.status != Rejected
  {
    hide LogInv, ReadingInv, SentInv, PaymentInv, StripeInv, HeardInv;
    PendingEventFits(s, b);
    DecideByTable(b, B.ReactionTo(s.events[s.heard]));
  }

  // The amount a message names is the amount held, and what Stripe was asked under one key is always
  // the same request.
  lemma CaptureNamesTheHold(s: Saga, b: Booking, i: nat)
    requires s.row == Some(b) && Inv(s) && i < |s.sent| && s.sent[i].CapturePaymentRequested? && s.pay.Some?
    ensures s.sent[i].holdAmountCents == s.pay.value.holdAmountCents == b.dailyPriceCents * (b.endDate - b.startDate)
    ensures b.startDate < b.endDate
    ensures s.sent[i].hostId == b.hostId && s.pay.value.renterId == b.renterId
  {
    hide LogInv, StripeInv, HeardInv;
  }

  lemma SameKeySameCall(s: Saga, i: nat, j: nat)
    requires s.row.Some? && Inv(s) && i < |s.stripe.calls| && j < |s.stripe.calls|
    requires s.stripe.calls[i].op == s.stripe.calls[j].op
    ensures s.stripe.calls[i].call == s.stripe.calls[j].call
  {
    hide LogInv, ReadingInv, SentInv, PaymentInv, HeardInv;
  }

  // ----- the ledger of one booking -----

  function Sum(entries: seq<P.Entry>, d: P.Direction): int {
    if entries == [] then 0
    else
      var e := entries[|entries| - 1];
      Sum(entries[..|entries| - 1], d) + if e.direction == d then e.amountCents else 0
  }

  lemma {:induction false} SumConcat(a: seq<P.Entry>, b: seq<P.Entry>, d: P.Direction)
    ensures Sum(a + b, d) == Sum(a, d) + Sum(b, d)
  {
    if b == [] {
      assert a + b == a;
    } else {
      assert (a + b)[..|a + b| - 1] == a + b[..|b| - 1];
      SumConcat(a, b[..|b| - 1], d);
    }
  }

  lemma SumOne(e: P.Entry, d: P.Direction)
    ensures Sum([e], d) == if e.direction == d then e.amountCents else 0
  {
    assert [e][..0] == [];
  }

  lemma SumPair(renterId: Uuid, hostId: Uuid, amount: int, reason: P.Reason, d: P.Direction)
    ensures Sum(P.LedgerPair(renterId, hostId, amount, reason), d) == amount
  {
    var pair := P.LedgerPair(renterId, hostId, amount, reason);
    assert pair == [pair[0]] + [pair[1]];
    SumConcat([pair[0]], [pair[1]], d);
    SumOne(pair[0], d);
    SumOne(pair[1], d);
  }

  // Debits or credits entered for one reason.
  function SumFor(entries: seq<P.Entry>, reason: P.Reason, d: P.Direction): int {
    if entries == [] then 0
    else
      var e := entries[|entries| - 1];
      SumFor(entries[..|entries| - 1], reason, d) + if e.direction == d && e.reason == reason then e.amountCents else 0
  }

  lemma {:induction false} SumForConcat(a: seq<P.Entry>, b: seq<P.Entry>, reason: P.Reason, d: P.Direction)
    ensures SumFor(a + b, reason, d) == SumFor(a, reason, d) + SumFor(b, reason, d)
  {
    if b == [] {
      assert a + b == a;
    } else {
      assert (a + b)[..|a + b| - 1] == a + b[..|b| - 1];
      SumForConcat(a, b[..|b| - 1], reason, d);
    }
  }

  lemma PairFor(renterId: Uuid, hostId: Uuid, amount: int, reason: P.Reason, asked: P.Reason, d: P.Direction)
    ensures SumFor(P.LedgerPair(renterId, hostId, amount, reason), asked, d) == if reason == asked then amount else 0
  {
    var pair := P.LedgerPair(renterId, hostId, amount, reason);
    assert pair == [pair[0]] + [pair[1]];
    SumForConcat([pair[0]], [pair[1]], asked, d);
    assert [pair[0]][..0] == [] && [pair[1]][..0] == [];
  }

  function AmountFor(p: P.Payment, reason: P.Reason): int {
    if p.status != P.Captured then 0 else if reason == P.Rental then p.holdAmountCents else p.overageCents
  }

  lemma LedgerSumsFor(b: Booking, p: P.Payment, reason: P.Reason, d: P.Direction)
    requires p.overageCents >= 0
    ensures SumFor(LedgerOf(b, p), reason, d) == AmountFor(p, reason)
  {
    if p.status == P.Captured {
      var rental := P.LedgerPair(b.renterId, b.hostId, p.holdAmountCents, P.Rental);
      var extra :=
        if p.overageCents == 0 then []
        else P.LedgerPair(b.renterId, b.hostId, p.overageCents, P.MileageOverage);
      SumForConcat(rental, extra, reason, d);
      PairFor(b.renterId, b.hostId, p.holdAmountCents, P.Rental, reason, d);
      PairFor(b.renterId, b.hostId, p.overageCents, P.MileageOverage, reason, d);
    }
  }

  lemma LedgerSums(b: Booking, p: P.Payment, d: P.Direction)
    requires p.overageCents >= 0
    ensures Sum(LedgerOf(b, p), d) == if p.status == P.Captured then p.holdAmountCents + p.overageCents else 0
  {
    if p.status == P.Captured {
      var rental := P.LedgerPair(b.renterId, b.hostId, p.holdAmountCents, P.Rental);
      var extra := if p.overageCents == 0 then []
        else P.LedgerPair(b.renterId, b.hostId, p.overageCents, P.MileageOverage);
      SumConcat(rental, extra, d);
      SumPair(b.renterId, b.hostId, p.holdAmountCents, P.Rental, d);
      SumPair(b.renterId, b.hostId, p.overageCents, P.MileageOverage, d);
    }
  }

  function CapturedCents(p: Option<P.Payment>): int {
    if p.Some? && p.value.status == P.Captured then p.value.holdAmountCents + p.value.overageCents else 0
  }

  function CapturedOverage(p: Option<P.Payment>): int {
    if p.Some? then p.value.overageCents else 0
  }

  predicate ProperEntry(b: Booking, e: P.Entry) {
    e.amountCents > 0
    && e.account == if e.direction == P.Debit then P.RenterAccount(b.renterId) else P.HostAccount(b.hostId)
  }

  lemma LedgerBalances(s: Saga, b: Booking)
    requires s.row == Some(b) && Inv(s)
    ensures s.ledger != [] <==> HasPayment(s, P.Captured)
    ensures forall d :: Sum(s.ledger, d) == CapturedCents(s.pay)
    ensures forall e | e in s.ledger :: ProperEntry(b, e)
    ensures s.pay.Some? ==> forall reason, d :: SumFor(s.ledger, reason, d) == AmountFor(s.pay.value, reason)
    ensures CapturedOverage(s.pay) != 0 ==>
      Returns(s.log) != [] && CapturedOverage(s.pay) == Returns(s.log)[0].overageCents
  {
    hide LogInv, ReadingInv, StripeInv, HeardInv;
    if s.pay.Some? {
      forall d { LedgerSums(b, s.pay.value, d); }
      forall reason, d { LedgerSumsFor(b, s.pay.value, reason, d); }
    }
  }

  predicate Succeeded(slot: Option<P.Slot>, call: P.Call) {
    slot.Some? && slot.value.call == call && slot.value.reply.Succeeded?
  }

  // Every captured cent was captured by Stripe, from the hold the payment points at.
  lemma LedgerIsBacked(s: Saga, b: Booking)
    requires s.row == Some(b) && Inv(s) && HasPayment(s, P.Captured)
    ensures var p := s.pay.value;
      && p.intentId.Some?
      && s.stripe.hold == Some(P.Slot(P.Call(p.holdAmountCents, None), P.Succeeded(p.intentId.value)))
      && Succeeded(s.stripe.capture, P.Call(p.holdAmountCents, p.intentId))
      && (p.overageCents > 0 ==>
           p.overageIntentId.Some?
           && s.stripe.overage == Some(P.Slot(P.Call(p.overageCents, None), P.Succeeded(p.overageIntentId.value))))
  {
    hide LogInv, ReadingInv, SentInv, HeardInv;
    assert P.SlotOf(s.stripe, P.HoldOp).Some? && P.SlotOf(s.stripe, P.CaptureOp).Some?;
    assert s.pay.value.overageCents > 0 ==> P.SlotOf(s.stripe, P.OverageOp).Some?;
  }

  lemma IntentsKnown(s: Saga, b: Booking)
    requires s.row == Some(b) && Inv(s) && s.pay.Some?
    ensures var p := s.pay.value;
      (p.intentId.None? <==> p.status == P.AuthorizationFailed) && (p.overageIntentId.Some? <==> p.overageCents > 0)
    ensures Backed(s.pay.value, s.stripe)
  {
    hide LogInv, ReadingInv, SentInv, HeardInv, CallsInv;
  }

  // The ledger's amount check can only fire for a booking priced at nothing or less.
  lemma OnlyFreeBookingsFail(s: Saga, b: Booking, v: P.Verdicts)
    requires s.row == Some(b) && Inv(s) && s.taken < |s.sent|
    ensures P.Handle(s.pay, s.stripe, s.sent[s.taken], v).result.Err? ==> b.dailyPriceCents <= 0
  {
    hide LogInv, ReadingInv, SentInv, PaymentInv, StripeInv, HeardInv;
    if Effective(s) {
      EffectiveTakeIsGood(s, b, v, P.Handle(s.pay, s.stripe, s.sent[s.taken], v));
      if b.dailyPriceCents > 0 { assert B.AmountDue(b) >= b.dailyPriceCents * 1; }
    }
  }
}
