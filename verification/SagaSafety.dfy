/**
  Every step of a saga keeps its invariant, one conjunct and one kind of step at a time.
*/
module SagaSafety {
  import opened Tables
  import opened Domain
  import opened Saga
  import B = Bookings
  import P = Payments

  // ----- a new booking -----

  lemma CreateKeepsLog(s: Saga, row: Booking)
    requires s == Nothing && NewRow(row)
    ensures var s' := Begin(s, row); var b := s'.row.value; LogInv(s'.log, 0, b) && ReadingInv(s'.log, b)
  {
    var s', x := Begin(s, row), B.Stored(2, BookingRequested);
    assert s'.log == [] + [x];
    GrowLog(AsCreated(s'.row.value), [], x);
    GrowReading([], x);
  }

  lemma CreateKeepsSent(s: Saga, row: Booking)
    requires s == Nothing && NewRow(row)
    ensures var s' := Begin(s, row); SentInv(s'.log, s'.sent, s'.row.value)
  {
    var s', x := Begin(s, row), B.Stored(2, BookingRequested);
    assert s'.log == [] + [x];
    GrowReading([], x);
    if row.mode == Instant {
      assert s'.sent == [] + [B.AuthorizeMessage(row)];
      GrowSent([], B.AuthorizeMessage(row));
    }
  }

  lemma CreateKeepsInv(s: Saga, row: Booking)
    requires s == Nothing && NewRow(row)
    ensures Inv(Begin(s, row))
  {
    hide LogInv, ReadingInv, SentInv;
    CreateKeepsLog(s, row);
    CreateKeepsSent(s, row);
    assert Begin(s, row).sent[..0] == [];
  }

  // ----- the state machine as a table -----

  // The status a command needs, the status it settles on, and the events it logs.
  function Needs(c: B.Command): Status {
    match c
    case Accept(_) => Requested
    case Reject(_) => Requested
    case Handover(_, _) => Confirmed
    case Return(_, _) => Active
    case ApplyAuthorized => Requested
    case ApplyAuthorizationFailed => Requested
    case ApplyCaptured => Active
    case ApplyCaptureFailed => Active
  }

  function Settles(c: B.Command): Status {
    match c
    case Accept(_) => Requested
    case Reject(_) => Rejected
    case Handover(_, _) => Active
    case Return(_, _) => Active
    case ApplyAuthorized => Confirmed
    case ApplyAuthorizationFailed => Cancelled
    case ApplyCaptured => Completed
    case ApplyCaptureFailed => Active
  }

  function Overage(b: Booking, endOdometer: int): int {
    if b.start.None? then 0
    else ComputeOverageCents(b.start.value.odometer, endOdometer, b.dailyMileageLimit, RentalDays(b))
  }

  function Logs(b: Booking, c: B.Command): seq<Event> {
    match c
    case Accept(_) => [BookingRequestAccepted]
    case Reject(_) => [BookingRejected]
    case Handover(_, reading) => [HandoverRecorded(reading)]
    case Return(_, reading) => [ReturnRecorded(reading, Overage(b, reading.odometer))]
    case ApplyAuthorized => [PaymentAuthorized, BookingConfirmed]
    case ApplyAuthorizationFailed => [PaymentAuthorizationFailed, BookingCancelled]
    case ApplyCaptured => [PaymentCaptured, BookingCompleted]
    case ApplyCaptureFailed => [PaymentCaptureFailed]
  }

  function Becomes(b: Booking, c: B.Command): Booking {
    var b1 := b.(version := b.version + |Logs(b, c)|, status := Settles(c));
    match c
    case Handover(_, reading) => b1.(start := Some(reading))
    case Return(_, reading) => b1.(end := Some(reading), overageCents := Overage(b, reading.odometer))
    case _ => b1
  }

  predicate Allowed(b: Booking, c: B.Command) {
    b.status == Needs(c) && (c.Accept? ==> b.mode == RequestToBook) && (c.Return? ==> b.start.Some?)
    && (FromHost(c) ==> c.hostId == b.hostId)
  }

  lemma DecideByTable(b: Booking, c: B.Command)
    ensures B.Decide(b, c).Ok? <==> Allowed(b, c)
    ensures Allowed(b, c) ==>
      B.Decide(b, c).value == B.Effect(Becomes(b, c), Logs(b, c), B.MessageOf(Becomes(b, c), c))
  {
  }

  // ----- a command or a reaction -----

  // The log after a decision, which adds one event or two.
  lemma GrowByEvents(created: Booking, log: seq<B.Stored>, version: nat, es: seq<Event>)
    requires 1 <= |es| <= 2
    ensures var log', last := log + B.Stamp(version, es), es[|es| - 1];
      && Replay(created, log')
           == Evolve(if |es| == 1 then Replay(created, log) else Evolve(Replay(created, log), es[0]), last)
      && Parse(log') == After(if |es| == 1 then Parse(log) else After(Parse(log), es[0]), last)
  {
    var stamped := B.Stamp(version, es);
    GrowLog(created, log, stamped[0]);
    if |es| == 1 {
      assert log + stamped == log + [stamped[0]];
    } else {
      assert log + stamped == (log + [stamped[0]]) + [stamped[1]];
      GrowLog(created, log + [stamped[0]], stamped[1]);
    }
  }

  predicate Plain(e: Event) {
    !e.HandoverRecorded? && !e.ReturnRecorded? && !e.BookingRequestAccepted?
  }

  // What those events add to the readings and the acceptances on the log.
  lemma GrowReadings(log: seq<B.Stored>, version: nat, es: seq<Event>)
    requires |es| == 1 || (|es| == 2 && Plain(es[0]) && Plain(es[1]))
    ensures var log', e := log + B.Stamp(version, es), es[0];
      && Handovers(log') == Handovers(log) + (if e.HandoverRecorded? then [e.reading] else [])
      && Returns(log') == Returns(log) + (if e.ReturnRecorded? then [LoggedReturn(e.reading, e.overageCents)] else [])
      && (HasAccept(log') <==> HasAccept(log) || e.BookingRequestAccepted?)
  {
    var stamped := B.Stamp(version, es);
    GrowReading(log, stamped[0]);
    if |es| == 1 {
      assert log + stamped == log + [stamped[0]];
    } else {
      assert log + stamped == (log + [stamped[0]]) + [stamped[1]];
      GrowReading(log + [stamped[0]], stamped[1]);
    }
  }

  // What is known when a command or a reaction runs: a reaction marks the next event heard, and a
  // capture's outcome is only heard by an active booking that has been returned.
  ghost predicate Fits(s: Saga, c: B.Command, heard: nat) {
    && (FromHost(c) ==> heard == s.heard)
    && (c.ApplyAuthorized? || c.ApplyAuthorizationFailed? ==> s.heard == 0 && heard == 1)
    && (c.ApplyCaptured? || c.ApplyCaptureFailed? ==> s.heard == 1 && heard == 2 && Returns(s.log) != [])
  }

  function LogAfter(s: Saga, b: Booking, c: B.Command): seq<B.Stored> {
    s.log + B.Stamp(b.version, Logs(b, c))
  }

  lemma LogsMakeTheRow(b: Booking, c: B.Command)
    requires Allowed(b, c)
    ensures 1 <= |Logs(b, c)| <= 2 && AsCreated(Becomes(b, c)) == AsCreated(b)
    ensures var es := Logs(b, c);
      Becomes(b, c) == Evolve(if |es| == 1 then b else Evolve(b, es[0]), es[|es| - 1])
  {
  }

  lemma LogsFollowTheGrammar(b: Booking, c: B.Command, heard0: nat, heard: nat, returned: bool)
    requires Allowed(b, c) && (returned ==> b.status != Requested && b.status != Confirmed)
    requires FromHost(c) ==> heard == heard0
    requires c.ApplyCaptured? || c.ApplyCaptureFailed? ==> heard0 == 1 && heard == 2 && returned
    requires c.Handover? ==> heard == 1
    ensures var es, p := Logs(b, c), PhaseFor(b.status, heard0, returned);
      After(if |es| == 1 then p else After(p, es[0]), es[|es| - 1])
        == PhaseFor(Settles(c), heard, returned || c.Return?)
  {
  }

  lemma RunReplays(s: Saga, b: Booking, c: B.Command)
    requires Allowed(b, c) && b == Replay(AsCreated(b), s.log)
    ensures Becomes(b, c) == Replay(AsCreated(Becomes(b, c)), LogAfter(s, b, c))
  {
    LogsMakeTheRow(b, c);
    hide Allowed, Becomes, Logs, AsCreated, Evolve;
    GrowByEvents(AsCreated(b), s.log, b.version, Logs(b, c));
  }

  lemma RunParses(s: Saga, b: Booking, c: B.Command, heard: nat)
    requires Allowed(b, c) && Fits(s, c, heard) && Parse(s.log) == PhaseFor(b.status, s.heard, Returns(s.log) != [])
    requires b.status == Requested || b.status == Confirmed ==> Returns(s.log) == []
    requires b.status == Confirmed ==> s.heard == 1
    ensures Parse(LogAfter(s, b, c)) == PhaseFor(Settles(c), heard, Returns(LogAfter(s, b, c)) != [])
  {
    hide PhaseFor, After, Evolve;
    LogsFollowTheGrammar(b, c, s.heard, heard, Returns(s.log) != []);
    GrowByEvents(b, s.log, b.version, Logs(b, c));
    GrowReadings(s.log, b.version, Logs(b, c));
  }

  lemma RunKeepsLog(s: Saga, b: Booking, c: B.Command, heard: nat)
    requires Allowed(b, c) && Fits(s, c, heard) && LogInv(s.log, s.heard, b)
    requires b.status == Requested || b.status == Confirmed ==> Returns(s.log) == []
    requires b.status == Confirmed ==> s.heard == 1
    ensures LogInv(LogAfter(s, b, c), heard, Becomes(b, c))
  {
    hide Allowed, Fits, PhaseFor, Logs, AsCreated;
    RunReplays(s, b, c);
    RunParses(s, b, c, heard);
  }

  lemma HandoverKeepsReadings(s: Saga, b: Booking, c: B.Command)
    requires Allowed(b, c) && c.Handover? && ReadingInv(s.log, b)
    ensures ReadingInv(LogAfter(s, b, c), Becomes(b, c))
  {
    GrowReadings(s.log, b.version, Logs(b, c));
  }

  lemma ReturnKeepsReadings(s: Saga, b: Booking, c: B.Command)
    requires Allowed(b, c) && c.Return? && ReadingInv(s.log, b)
    ensures ReadingInv(LogAfter(s, b, c), Becomes(b, c))
  {
    GrowReadings(s.log, b.version, Logs(b, c));
    assert Charged(Returns(s.log) + [LoggedReturn(c.reading, Overage(b, c.reading.odometer))],
                   b.start.value.odometer, b.dailyMileageLimit, RentalDays(b));
  }

  lemma LogsByKind(b: Booking, c: B.Command)
    ensures var es := Logs(b, c);
      && (|es| == 1 || (|es| == 2 && Plain(es[0]) && Plain(es[1])))
      && (c.Accept? <==> es[0].BookingRequestAccepted?)
      && (c.Handover? <==> es[0].HandoverRecorded?)
      && (c.Return? <==> es[0].ReturnRecorded?)
  {
  }

  lemma OthersKeepTheReadings(b: Booking, c: B.Command)
    requires Allowed(b, c) && !c.Handover? && !c.Return?
    ensures var b' := Becomes(b, c); b' == b.(version := b'.version, status := b'.status)
    ensures Settles(c) == Active || Settles(c) == Completed <==> b.status == Active || b.status == Completed
    ensures Becomes(b, c).status == Settles(c) && (Settles(c) == Completed ==> c.ApplyCaptured?)
  {
  }

  lemma OtherKeepsReadings(s: Saga, b: Booking, c: B.Command)
    requires Allowed(b, c) && !c.Handover? && !c.Return? && ReadingInv(s.log, b)
    requires c.ApplyCaptured? ==> Returns(s.log) != []
    ensures ReadingInv(LogAfter(s, b, c), Becomes(b, c))
  {
    hide Allowed, Becomes, Logs, Settles, Charged;
    LogsByKind(b, c);
    OthersKeepTheReadings(b, c);
    GrowReadings(s.log, b.version, Logs(b, c));
    assert Returns(LogAfter(s, b, c)) == Returns(s.log) && Handovers(LogAfter(s, b, c)) == Handovers(s.log);
  }

  lemma RunKeepsReadings(s: Saga, b: Booking, c: B.Command)
    requires Allowed(b, c) && ReadingInv(s.log, b)
    requires c.ApplyCaptured? ==> Returns(s.log) != []
    ensures ReadingInv(LogAfter(s, b, c), Becomes(b, c))
  {
    hide ReadingInv, Allowed, Becomes, Logs;
    match c {
      case Handover(_, _) => HandoverKeepsReadings(s, b, c);
      case Return(_, _) => ReturnKeepsReadings(s, b, c);
      case _ => OtherKeepsReadings(s, b, c);
    }
  }

  function SentAfter(s: Saga, b: Booking, c: B.Command): seq<B.Message> {
    s.sent + Opt(B.MessageOf(Becomes(b, c), c))
  }

  // What a decision sends: an accept asks for authorization, a return for a capture.
  lemma SendsByTable(b: Booking, c: B.Command)
    requires Allowed(b, c)
    ensures var b', m := Becomes(b, c), B.MessageOf(Becomes(b, c), c);
      && (m.Some? ==> MessageInv(b', m.value))
      && (c.Accept? <==> m.Some? && m.value.AuthorizePaymentRequested?)
      && (c.Return? <==> m.Some? && m.value.CapturePaymentRequested?)
      && (c.Return? ==>
           m.value.overageCents == b'.overageCents && Logs(b, c) == [ReturnRecorded(c.reading, b'.overageCents)])
      && b'.mode == b.mode && (c.Accept? ==> b.mode == RequestToBook)
      && forall other | MessageInv(b, other) :: MessageInv(b', other)
  {
  }

  lemma RunKeepsSent(s: Saga, b: Booking, c: B.Command)
    requires Allowed(b, c) && SentInv(s.log, s.sent, b)
    ensures SentInv(LogAfter(s, b, c), SentAfter(s, b, c), Becomes(b, c))
  {
    hide Allowed, Becomes, Logs, MessageInv, B.MessageOf;
    SendsByTable(b, c);
    LogsByKind(b, c);
    GrowReadings(s.log, b.version, Logs(b, c));
    var m := B.MessageOf(Becomes(b, c), c);
    if m.Some? {
      assert SentAfter(s, b, c) == s.sent + [m.value];
      GrowSent(s.sent, m.value);
    } else {
      assert SentAfter(s, b, c) == s.sent;
    }
  }

  // Payment and Stripe do not notice that more was sent: they depend on the first capture command only.
  lemma SendingKeepsPayment(s: Saga, b: Booking, more: seq<B.Message>, b': Booking)
    requires PaymentInv(s.sent, s.taken, s.pay, s.ledger, s.events, b) && StripeInv(s.sent, s.pay, s.stripe, b)
    requires AsCreated(b') == AsCreated(b)
    ensures PaymentInv(s.sent + more, s.taken, s.pay, s.ledger, s.events, b')
    ensures StripeInv(s.sent + more, s.pay, s.stripe, b')
  {
    assert (s.sent + more)[..s.taken] == s.sent[..s.taken];
    CapturesConcat(s.sent, more);
    assert b'.renterId == AsCreated(b').renterId && b'.hostId == AsCreated(b').hostId;
    assert forall op, call | CallInv(s.sent, s.pay, b, op, call) :: CallInv(s.sent + more, s.pay, b', op, call);
  }

  predicate HasPayment(s: Saga, status: P.PaymentStatus) {
    s.pay.Some? && s.pay.value.status == status
  }

  lemma StatusFitsPayment(s: Saga, b: Booking)
    requires PaymentInv(s.sent, s.taken, s.pay, s.ledger, s.events, b) && HeardInv(s.events, s.heard, b)
    ensures b.status == Confirmed || b.status == Active || b.status == Completed ==>
      s.pay.Some? && s.pay.value.status != P.AuthorizationFailed && s.pay.value.intentId.Some?
    ensures b.status == Completed ==> HasPayment(s, P.Captured)
    ensures b.status == Cancelled ==> HasPayment(s, P.AuthorizationFailed)
  {
  }

  lemma CapturesMeanReturned(s: Saga, b: Booking)
    requires SentInv(s.log, s.sent, b) && ReadingInv(s.log, b) && Captures(s.sent) != []
    ensures Returns(s.log) != [] && (b.status == Active || b.status == Completed)
  {
  }

  lemma SettledMeansCaptures(s: Saga, b: Booking)
    requires PaymentInv(s.sent, s.taken, s.pay, s.ledger, s.events, b) && s.pay.Some? && Settled(s.pay.value)
    ensures Captures(s.sent) != []
  {
    hide HoldInv;
    CapturesConcat(s.sent[..s.taken], s.sent[s.taken..]);
    assert s.sent[..s.taken] + s.sent[s.taken..] == s.sent;
  }

  // Where a saga stands when a payment event is waiting: the event fits the booking's status unless
  // the host rejected the booking first.
  lemma PendingEventFits(s: Saga, b: Booking)
    requires s.row == Some(b) && Inv(s) && s.heard < |s.events|
    ensures s.events[s.heard] == B.Authorized || s.events[s.heard] == B.AuthorizationFailed ==>
      s.heard == 0 && (b.status == Requested || b.status == Rejected)
    ensures s.events[s.heard] == B.Captured || s.events[s.heard] == B.CaptureFailed ==>
      s.heard == 1 && Returns(s.log) != [] && b.status == Active
  {
    hide LogInv, ReadingInv, SentInv, StripeInv;
    if s.pay.Some? && Settled(s.pay.value) {
      SettledMeansCaptures(s, b);
      CapturesMeanReturned(s, b);
    }
  }

  lemma NotYetReturned(log: seq<B.Stored>, b: Booking)
    requires ReadingInv(log, b) && (b.status == Requested || b.status == Confirmed)
    ensures Returns(log) == []
  {
  }

  lemma RunKeepsHeard(s: Saga, b: Booking, c: B.Command, heard: nat)
    requires HeardInv(s.events, s.heard, b) && Allowed(b, c) && Fits(s, c, heard) && heard <= |s.events|
    requires !FromHost(c) ==> c == B.ReactionTo(s.events[s.heard])
    ensures HeardInv(s.events, heard, Becomes(b, c))
    ensures b.status == Confirmed ==> s.heard == 1
  {
  }

  lemma RunKeepsInv(s: Saga, b: Booking, c: B.Command, heard: nat)
    requires s.row == Some(b) && Inv(s) && Allowed(b, c) && Fits(s, c, heard) && heard <= |s.events|
    requires !FromHost(c) ==> c == B.ReactionTo(s.events[s.heard])
    ensures Inv(Run(s, c).value.(heard := heard))
  {
    hide LogInv, ReadingInv, SentInv, PaymentInv, StripeInv, HeardInv;
    if b.status == Requested || b.status == Confirmed { NotYetReturned(s.log, b); }
    var s' := Run(s, c).value.(heard := heard);
    var b' := Becomes(b, c);
    DecideByTable(b, c);
    assert s'.log == LogAfter(s, b, c) && s'.sent == SentAfter(s, b, c) && s'.row == Some(b');
    RunKeepsHeard(s, b, c, heard);
    RunKeepsLog(s, b, c, heard);
    RunKeepsReadings(s, b, c);
    RunKeepsSent(s, b, c);
    LogsMakeTheRow(b, c);
    SendingKeepsPayment(s, b, Opt(B.MessageOf(b', c)), b');
  }

  // ----- a message taken by payment -----

  // A call that is the expected one leaves only expected calls, and a success is remembered as such.
  lemma InvokeKeepsCalls(sent: seq<B.Message>, pay: Option<P.Payment>, stripe: P.Stripe, b: Booking,
                         op: P.Op, call: P.Call, v: P.Verdict)
    requires CallsInv(sent, pay, stripe, b) && CallInv(sent, pay, b, op, call)
    ensures var (stripe', reply) := P.Invoke(stripe, op, call, v);
      && CallsInv(sent, pay, stripe', b)
      && (forall other | other != op :: P.SlotOf(stripe', other) == P.SlotOf(stripe, other))
      && (reply.Succeeded? ==> P.SlotOf(stripe', op) == Some(P.Slot(call, reply)))
      && (P.SlotOf(stripe, op).Some? ==> P.SlotOf(stripe', op) == P.SlotOf(stripe, op))
  {
    var stripe' := P.Invoke(stripe, op, call, v).0;
    assert stripe'.calls == stripe.calls + [P.KeyedCall(op, call)];
    forall other | P.SlotOf(stripe', other).Some?
      ensures CallInv(sent, pay, b, other, P.SlotOf(stripe', other).value.call)
    {
      assert other == op || P.SlotOf(stripe', other) == P.SlotOf(stripe, other);
    }
  }

  // The payment the messages before `taken` call for, and one more message.
  lemma TakeKeepsQueue(s: Saga, b: Booking)
    requires s.row == Some(b) && Inv(s) && s.taken < |s.sent|
    ensures var m, before, now := s.sent[s.taken], s.sent[..s.taken], s.sent[..s.taken + 1];
      && MessageInv(b, m)
      && (HasAuthorize(now) <==> s.pay.Some? || m.AuthorizePaymentRequested?)
      && (Captures(now) != [] <==> (s.pay.Some? && Settled(s.pay.value)) || m.CapturePaymentRequested?)
      && (m.CapturePaymentRequested? && Captures(before) == [] ==>
           Captures(s.sent) != [] && Captures(s.sent)[0] == m.overageCents)
      && (m.CapturePaymentRequested? ==>
           s.pay.Some? && s.pay.value.status != P.AuthorizationFailed && Captures(s.sent) != [])
  {
    hide LogInv, ReadingInv, StripeInv, HeardInv, HoldInv, MessageInv;
    GrowTaken(s.sent, s.taken);
    if s.sent[s.taken].CapturePaymentRequested? {
      CapturesMeanReturned(s, b);
      StatusFitsPayment(s, b);
    }
  }

  lemma CallsFollowPayment(sent: seq<B.Message>, pay: Option<P.Payment>, p: P.Payment, stripe: P.Stripe, b: Booking)
    requires CallsInv(sent, pay, stripe, b) && (pay.Some? ==> pay.value.intentId == p.intentId)
    ensures CallsInv(sent, Some(p), stripe, b)
  {
    forall op, call | CallInv(sent, pay, b, op, call) ensures CallInv(sent, Some(p), b, op, call) {}
  }

  // What a handler must leave behind for the invariant to hold once its message is taken.
  ghost predicate Good(s: Saga, b: Booking, eff: P.Effect, stripe: P.Stripe) {
    && eff.payment.Some?
    && HoldInv(s.sent, eff.payment.value, b)
    && s.ledger + eff.entries == LedgerOf(b, eff.payment.value)
    && s.events + Opt(eff.event) == EventsOf(eff.payment.value.status)
    && StripeInv(s.sent, eff.payment, stripe, b)
  }

  lemma HoldIsGood(s: Saga, b: Booking, v: P.Verdict, h: P.Handling)
    requires s.pay.None? && s.ledger == [] && s.events == [] && StripeInv(s.sent, None, s.stripe, b)
    requires h == P.HandleAuthorize(None, s.stripe, b.renterId, B.AmountDue(b), v)
    ensures h.result.Ok? && Good(s, b, h.result.value, h.stripe) && !Settled(h.result.value.payment.value)
    ensures StripeInv(s.sent, s.pay, h.stripe, b)
  {
    InvokeKeepsCalls(s.sent, None, s.stripe, b, P.HoldOp, P.Call(B.AmountDue(b), None), v);
    CallsFollowPayment(s.sent, None, h.result.value.payment.value, h.stripe, b);
  }

  lemma CaptureIsGood(s: Saga, b: Booking, p: P.Payment, overage: int, v: P.Verdicts, h: P.Handling)
    requires s.pay == Some(p) && p.status == P.Authorized && HoldInv(s.sent, p, b)
    requires s.ledger == [] && s.events == [B.Authorized] && StripeInv(s.sent, s.pay, s.stripe, b)
    requires Captures(s.sent) != [] && overage == Captures(s.sent)[0]
    requires h == P.HandleCapture(s.pay, s.stripe, b.hostId, B.AmountDue(b), overage, v)
    ensures StripeInv(s.sent, s.pay, h.stripe, b) && (h.result.Err? ==> B.AmountDue(b) <= 0)
    ensures h.result.Ok? ==> Good(s, b, h.result.value, h.stripe) && Settled(h.result.value.payment.value)
  {
    hide CallsInv;
    var s1 := P.Invoke(s.stripe, P.CaptureOp, P.Call(B.AmountDue(b), p.intentId), v.first).0;
    InvokeKeepsCalls(s.sent, s.pay, s.stripe, b, P.CaptureOp, P.Call(B.AmountDue(b), p.intentId), v.first);
    if h.result.Ok? && h.result.value.payment.value.status == P.Captured && overage > 0 {
      InvokeKeepsCalls(s.sent, s.pay, s1, b, P.OverageOp, P.Call(overage, None), v.second);
    }
    if h.result.Ok? {
      CallsFollowPayment(s.sent, s.pay, h.result.value.payment.value, h.stripe, b);
    }
  }

  lemma HeardSurvives(events: seq<B.PaymentEvent>, more: seq<B.PaymentEvent>, heard: nat, b: Booking)
    requires HeardInv(events, heard, b)
    ensures HeardInv(events + more, heard, b)
  {
  }

  // The message at the read mark takes effect: a first authorization, a capture of an authorized hold.
  predicate Effective(s: Saga)
    requires s.taken < |s.sent|
  {
    var m := s.sent[s.taken];
    (m.AuthorizePaymentRequested? && s.pay.None?)
    || (m.CapturePaymentRequested? && s.pay.Some? && s.pay.value.status == P.Authorized)
  }

  lemma EffectiveTakeIsGood(s: Saga, b: Booking, v: P.Verdicts, h: P.Handling)
    requires s.row == Some(b) && Inv(s) && s.taken < |s.sent| && Effective(s)
    requires h == P.Handle(s.pay, s.stripe, s.sent[s.taken], v)
    ensures StripeInv(s.sent, s.pay, h.stripe, b) && (h.result.Err? ==> B.AmountDue(b) <= 0)
    ensures h.result.Ok? ==> Good(s, b, h.result.value, h.stripe)
    ensures h.result.Ok? ==> (Settled(h.result.value.payment.value) <==> s.sent[s.taken].CapturePaymentRequested?)
  {
    TakeKeepsQueue(s, b);
    hide LogInv, ReadingInv, SentInv, CallsInv, HeardInv;
    if s.pay.None? {
      HoldIsGood(s, b, v.first, h);
    } else {
      CaptureIsGood(s, b, s.pay.value, s.sent[s.taken].overageCents, v, h);
    }
  }

  lemma TakeKeepsInv(s: Saga, b: Booking, v: P.Verdicts)
    requires s.row == Some(b) && Inv(s) && s.taken < |s.sent|
    ensures Inv(Deliver(s, v))
  {
    hide LogInv, ReadingInv, SentInv, StripeInv, HeardInv, HoldInv;
    TakeKeepsQueue(s, b);
    var h := P.Handle(s.pay, s.stripe, s.sent[s.taken], v);
    if Effective(s) {
      EffectiveTakeIsGood(s, b, v, h);
      if h.result.Ok? { HeardSurvives(s.events, Opt(h.result.value.event), s.heard, b); }
    } else {
      assert h == P.Handling(s.stripe, Ok(P.Effect(s.pay, [], None)));
      assert s.ledger + [] == s.ledger && s.events + [] == s.events;
    }
  }

  lemma InterruptKeepsStripe(s: Saga, b: Booking, v: P.Verdicts, cut: nat)
    requires s.row == Some(b) && Inv(s) && s.taken < |s.sent|
    ensures StripeInv(s.sent, s.pay, P.Interrupted(s.pay, s.stripe, s.sent[s.taken], v, cut), b)
  {
    hide LogInv, ReadingInv, SentInv, PaymentInv, HeardInv, CallsInv;
    var m := s.sent[s.taken];
    if Effective(s) {
      EffectiveTakeIsGood(s, b, v, P.Handle(s.pay, s.stripe, m, v));
      if m.CapturePaymentRequested? {
        CaptureIsExpected(s, b);
        InvokeKeepsCalls(s.sent, s.pay, s.stripe, b, P.CaptureOp, P.Call(m.holdAmountCents, s.pay.value.intentId),
          v.first);
      }
    }
  }

  lemma CaptureIsExpected(s: Saga, b: Booking)
    requires s.row == Some(b) && Inv(s) && s.taken < |s.sent| && Effective(s)
      && s.sent[s.taken].CapturePaymentRequested?
    ensures CallInv(s.sent, s.pay, b, P.CaptureOp, P.Call(s.sent[s.taken].holdAmountCents, s.pay.value.intentId))
  {
    hide LogInv, ReadingInv, SentInv, HeardInv, StripeInv;
    TakeKeepsQueue(s, b);
  }

  lemma InterruptKeepsInv(s: Saga, b: Booking, v: P.Verdicts, cut: nat)
    requires s.row == Some(b) && Inv(s) && s.taken < |s.sent|
    ensures Inv(s.(stripe := P.Interrupted(s.pay, s.stripe, s.sent[s.taken], v, cut)))
  {
    hide LogInv, ReadingInv, SentInv, PaymentInv, HeardInv, StripeInv;
    InterruptKeepsStripe(s, b, v, cut);
  }

  // ----- every step -----

  lemma HearKeepsInv(s: Saga, b: Booking)
    requires s.row == Some(b) && Inv(s) && s.heard < |s.events|
    ensures Inv(Next(s, Hear))
  {
    hide LogInv, ReadingInv, SentInv, PaymentInv, StripeInv, HeardInv;
    var c := B.ReactionTo(s.events[s.heard]);
    DecideByTable(b, c);
    if Allowed(b, c) {
      PendingEventFits(s, b);
      RunKeepsInv(s, b, c, s.heard + 1);
    }
  }

  lemma DoKeepsInv(s: Saga, b: Booking, c: B.Command)
    requires s.row == Some(b) && Inv(s) && FromHost(c) && Allowed(b, c)
    ensures Inv(Run(s, c).value)
  {
    hide LogInv, ReadingInv, SentInv, PaymentInv, StripeInv;
    DecideByTable(b, c);
    RunKeepsInv(s, b, c, s.heard);
    assert Run(s, c).value.(heard := s.heard) == Run(s, c).value;
  }

  lemma NextKeepsInv(s: Saga, step: Step)
    requires Inv(s)
    ensures Inv(Next(s, step))
  {
    hide LogInv, ReadingInv, SentInv, PaymentInv, StripeInv, HeardInv;
    if s.row.None? {
      if step.Create? && NewRow(step.row) { CreateKeepsInv(s, step.row); }
    } else {
      var b := s.row.value;
      match step {
        case Create(_) =>
        case Do(c) =>
          DecideByTable(b, c);
          if FromHost(c) && Allowed(b, c) { DoKeepsInv(s, b, c); }
        case Take(v) => if s.taken < |s.sent| { TakeKeepsInv(s, b, v); }
        case Interrupt(v, cut) => if s.taken < |s.sent| { InterruptKeepsInv(s, b, v, cut); }
        case Hear => if s.heard < |s.events| { HearKeepsInv(s, b); }
      }
    }
  }
}
