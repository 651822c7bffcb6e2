/**
  One booking's share of the two services, seen through exactly-once queues: its row and event log, the
  messages booking has sent and payment has taken, its payment and ledger entries, the events payment
  has sent and booking has heard, and Stripe's memory of it. The steps are those of the services; the
  invariant ties the two sides together although neither service checks the other.
*/
module Saga {
  import opened Tables
  import opened Domain
  import B = Bookings
  import P = Payments

  datatype Saga = Saga(
    row: Option<Booking>, log: seq<B.Stored>,
    sent: seq<B.Message>, taken: nat,
    pay: Option<P.Payment>, ledger: seq<P.Entry>,
    events: seq<B.PaymentEvent>, heard: nat,
    stripe: P.Stripe)

  const Nothing := Saga(None, [], [], 0, None, [], [], 0, P.Blank)

  datatype Step =
    | Create(row: Booking)
    | Do(command: B.Command)
    | Take(verdicts: P.Verdicts)
    | Interrupt(verdicts: P.Verdicts, cut: nat)
    | Hear

  // A validated request: the schema admits only a start before the end.
  predicate NewRow(b: Booking) {
    b.status == Requested && b.version == 1 && b.start.None? && b.end.None? && b.overageCents == 0
    && b.startDate < b.endDate
  }

  predicate FromHost(c: B.Command) {
    c.Accept? || c.Reject? || c.Handover? || c.Return?
  }

  function Opt<T>(o: Option<T>): seq<T> {
    if o.Some? then [o.value] else []
  }

  function Run(s: Saga, c: B.Command): Option<Saga> {
    if s.row.None? then None
    else
      match B.Decide(s.row.value, c)
      case Err(_) => None
      case Ok(eff) =>
        Some(s.(row := Some(eff.row),
                log := s.log + B.Stamp(s.row.value.version, eff.events),
                sent := s.sent + Opt(eff.message)))
  }

  function Begin(s: Saga, row: Booking): Saga {
    s.(row := Some(row.(version := row.version + 1)),
       log := s.log + B.Stamp(row.version, [BookingRequested]),
       sent := s.sent + if row.mode == Instant then [B.AuthorizeMessage(row)] else [])
  }

  function Deliver(s: Saga, v: P.Verdicts): Saga
    requires s.taken < |s.sent|
  {
    var h := P.Handle(s.pay, s.stripe, s.sent[s.taken], v);
    match h.result
    case Err(_) => s.(stripe := h.stripe)
    case Ok(eff) =>
      s.(taken := s.taken + 1, stripe := h.stripe, pay := eff.payment,
         ledger := s.ledger + eff.entries, events := s.events + Opt(eff.event))
  }

  function Next(s: Saga, step: Step): Saga {
    match step
    case Create(row) => if s.row.None? && NewRow(row) then Begin(s, row) else s
    case Do(c) =>
      var r := Run(s, c);
      if FromHost(c) && r.Some? then r.value else s
    case Take(v) => if s.taken < |s.sent| then Deliver(s, v) else s
    case Interrupt(v, cut) =>
      if s.taken < |s.sent| then s.(stripe := P.Interrupted(s.pay, s.stripe, s.sent[s.taken], v, cut)) else s
    case Hear =>
      if s.heard < |s.events| then
        var r := Run(s, B.ReactionTo(s.events[s.heard]));
        if r.Some? then r.value.(heard := s.heard + 1) else s
      else s
  }

  // ----- reading the log and the messages -----

  // What each event means for the row, read off the log alone.
  function Evolve(b: Booking, e: Event): Booking {
    var b1 := b.(version := b.version + 1);
    match e
    case BookingRejected => b1.(status := Rejected)
    case BookingConfirmed => b1.(status := Confirmed)
    case BookingCancelled => b1.(status := Cancelled)
    case HandoverRecorded(reading) => b1.(status := Active, start := Some(reading))
    case ReturnRecorded(reading, overage) => b1.(end := Some(reading), overageCents := overage)
    case BookingCompleted => b1.(status := Completed)
    case _ => b1
  }

  function Replay(created: Booking, log: seq<B.Stored>): Booking {
    if log == [] then created else Evolve(Replay(created, log[..|log| - 1]), log[|log| - 1].event)
  }

  // The row as `create_requested` inserted it.
  function AsCreated(b: Booking): Booking {
    b.(status := Requested, version := 1, start := None, end := None, overageCents := 0)
  }

  // Versions run 2, 3, ... without gaps or repeats.
  predicate Numbered(log: seq<B.Stored>) {
    forall i | 0 <= i < |log| :: log[i].version == i + 2
  }

  datatype Phase =
    | Unborn | Asked | Refused | Paid | Ready | Unpaid | Dropped
    | Out | Back | Unsettled | Taken | Done | Broken

  // The grammar of logs, as an automaton:
  // requested accepted* (rejected | authorization_failed cancelled | authorized confirmed
  //   (handover (return+ (capture_failed return* | captured completed)?)?)?)?
  function After(p: Phase, e: Event): Phase {
    match (p, e)
    case (Unborn, BookingRequested) => Asked
    case (Asked, BookingRequestAccepted) => Asked
    case (Asked, BookingRejected) => Refused
    case (Asked, PaymentAuthorized) => Paid
    case (Paid, BookingConfirmed) => Ready
    case (Asked, PaymentAuthorizationFailed) => Unpaid
    case (Unpaid, BookingCancelled) => Dropped
    case (Ready, HandoverRecorded(_)) => Out
    case (Out, ReturnRecorded(_, _)) => Back
    case (Back, ReturnRecorded(_, _)) => Back
    case (Back, PaymentCaptureFailed) => Unsettled
    case (Unsettled, ReturnRecorded(_, _)) => Unsettled
    case (Back, PaymentCaptured) => Taken
    case (Taken, BookingCompleted) => Done
    case _ => Broken
  }

  function Parse(log: seq<B.Stored>): Phase {
    if log == [] then Unborn else After(Parse(log[..|log| - 1]), log[|log| - 1].event)
  }

  // A reading with the overage computed from it.
  datatype LoggedReturn = LoggedReturn(reading: Reading, overageCents: int)

  function Handovers(log: seq<B.Stored>): seq<Reading> {
    if log == [] then []
    else
      var e := log[|log| - 1].event;
      Handovers(log[..|log| - 1]) + if e.HandoverRecorded? then [e.reading] else []
  }

  function Returns(log: seq<B.Stored>): seq<LoggedReturn> {
    if log == [] then []
    else
      var e := log[|log| - 1].event;
      Returns(log[..|log| - 1]) + if e.ReturnRecorded? then [LoggedReturn(e.reading, e.overageCents)] else []
  }

  predicate HasAccept(log: seq<B.Stored>) {
    log != [] && (HasAccept(log[..|log| - 1]) || log[|log| - 1].event == BookingRequestAccepted)
  }

  predicate HasAuthorize(sent: seq<B.Message>) {
    sent != [] && (HasAuthorize(sent[..|sent| - 1]) || sent[|sent| - 1].AuthorizePaymentRequested?)
  }

  // The overage each capture command asks for, oldest first.
  function Captures(sent: seq<B.Message>): seq<int> {
    if sent == [] then []
    else
      var m := sent[|sent| - 1];
      Captures(sent[..|sent| - 1]) + if m.CapturePaymentRequested? then [m.overageCents] else []
  }

  lemma {:induction false} CapturesConcat(a: seq<B.Message>, b: seq<B.Message>)
    ensures Captures(a) <= Captures(a + b)
  {
    if b == [] {
      assert a + b == a;
    } else {
      assert (a + b)[..|a + b| - 1] == a + b[..|b| - 1];
      CapturesConcat(a, b[..|b| - 1]);
    }
  }

  // The log and the messages grow by one element at a time.
  lemma GrowLog(created: Booking, log: seq<B.Stored>, x: B.Stored)
    ensures Replay(created, log + [x]) == Evolve(Replay(created, log), x.event)
    ensures Parse(log + [x]) == After(Parse(log), x.event)
  {
    assert (log + [x])[..|log|] == log;
  }

  lemma GrowReading(log: seq<B.Stored>, x: B.Stored)
    ensures Handovers(log + [x]) == Handovers(log) + if x.event.HandoverRecorded? then [x.event.reading] else []
    ensures Returns(log + [x])
      == Returns(log) + if x.event.ReturnRecorded? then [LoggedReturn(x.event.reading, x.event.overageCents)] else []
    ensures HasAccept(log + [x]) <==> HasAccept(log) || x.event == BookingRequestAccepted
  {
    assert (log + [x])[..|log|] == log;
  }

  lemma GrowSent(sent: seq<B.Message>, m: B.Message)
    ensures Captures(sent + [m]) == Captures(sent) + if m.CapturePaymentRequested? then [m.overageCents] else []
    ensures HasAuthorize(sent + [m]) <==> HasAuthorize(sent) || m.AuthorizePaymentRequested?
  {
    assert (sent + [m])[..|sent|] == sent;
  }

  // One more message taken is one more element of what was taken.
  lemma {:induction false} GrowTaken(sent: seq<B.Message>, n: nat)
    requires n < |sent|
    ensures sent[..n + 1] == sent[..n] + [sent[n]]
    ensures Captures(sent[..n + 1])
      == Captures(sent[..n]) + if sent[n].CapturePaymentRequested? then [sent[n].overageCents] else []
    ensures Captures(sent[..n + 1]) <= Captures(sent)
    ensures HasAuthorize(sent[..n + 1]) <==> HasAuthorize(sent[..n]) || sent[n].AuthorizePaymentRequested?
  {
    hide Captures, HasAuthorize;
    GrowSent(sent[..n], sent[n]);
    assert sent[..n + 1] == sent[..n] + [sent[n]];
    CapturesConcat(sent[..n + 1], sent[n + 1..]);
    assert sent[..n + 1] + sent[n + 1..] == sent;
  }

  // ----- the invariant -----

  function PhaseFor(status: Status, heard: nat, returned: bool): Phase {
    match status
    case Requested => Asked
    case Rejected => Refused
    case Confirmed => Ready
    case Cancelled => Dropped
    case Completed => Done
    case Active => if heard >= 2 then Unsettled else if returned then Back else Out
  }

  // The row is the projection of its log, and the log has the right shape for the row's status.
  ghost predicate LogInv(log: seq<B.Stored>, heard: nat, b: Booking) {
    && b.version == |log| + 1 && Numbered(log)
    && b == Replay(AsCreated(b), log)
    && Parse(log) == PhaseFor(b.status, heard, Returns(log) != [])
  }

  predicate Charged(logged: seq<LoggedReturn>, startOdometer: int, dailyMileageLimit: int, days: int) {
    forall i | 0 <= i < |logged| ::
      logged[i].overageCents == ComputeOverageCents(startOdometer, logged[i].reading.odometer, dailyMileageLimit, days)
  }

  // The row's readings are the logged ones, and every overage was computed from the handover reading.
  ghost predicate ReadingInv(log: seq<B.Stored>, b: Booking) {
    var logged := Returns(log);
    && b.startDate < b.endDate
    && (b.status == Active || b.status == Completed <==> b.start.Some?)
    && Handovers(log) == (if b.start.Some? then [b.start.value] else [])
    && (logged != [] ==> b.start.Some?)
    && (b.status == Completed ==> logged != [])
    && (if logged == [] then b.end.None? && b.overageCents == 0
        else b.end.Some? && logged[|logged| - 1] == LoggedReturn(b.end.value, b.overageCents))
    && (b.start.Some? ==> Charged(logged, b.start.value.odometer, b.dailyMileageLimit, RentalDays(b)))
  }

  predicate MessageInv(b: Booking, m: B.Message) {
    && (m.AuthorizePaymentRequested? ==> m == B.AuthorizeMessage(b))
    && (m.CapturePaymentRequested? ==> m.hostId == b.hostId && m.holdAmountCents == B.AmountDue(b))
  }

  // Authorization is requested exactly for instant or accepted bookings, and each return sends one
  // capture command with its own overage.
  ghost predicate SentInv(log: seq<B.Stored>, sent: seq<B.Message>, b: Booking) {
    && (forall i | 0 <= i < |sent| :: MessageInv(b, sent[i]))
    && (HasAuthorize(sent) <==> b.mode == Instant || HasAccept(log))
    && |Captures(sent)| == |Returns(log)|
    && forall i | 0 <= i < |Captures(sent)| :: Captures(sent)[i] == Returns(log)[i].overageCents
  }

  function LedgerOf(b: Booking, p: P.Payment): seq<P.Entry> {
    if p.status != P.Captured then []
    else
      P.LedgerPair(b.renterId, b.hostId, p.holdAmountCents, P.Rental)
      + if p.overageCents == 0 then [] else P.LedgerPair(b.renterId, b.hostId, p.overageCents, P.MileageOverage)
  }

  function EventsOf(p: P.PaymentStatus): seq<B.PaymentEvent> {
    match p
    case Authorized => [B.Authorized]
    case AuthorizationFailed => [B.AuthorizationFailed]
    case Captured => [B.Authorized, B.Captured]
    case CaptureFailed => [B.Authorized, B.CaptureFailed]
  }

  predicate Settled(p: P.Payment) {
    p.status == P.Captured || p.status == P.CaptureFailed
  }

  // The payment is what the messages taken so far call for, and its ledger entries and events follow
  // from it.
  ghost predicate PaymentInv(sent: seq<B.Message>, taken: nat, pay: Option<P.Payment>, ledger: seq<P.Entry>,
                             events: seq<B.PaymentEvent>, b: Booking)
  {
    && taken <= |sent|
    && (pay.Some? <==> HasAuthorize(sent[..taken]))
    && (Captures(sent[..taken]) != [] <==> pay.Some? && Settled(pay.value))
    && match pay
       case None => ledger == [] && events == []
       case Some(p) => HoldInv(sent, p, b) && ledger == LedgerOf(b, p) && events == EventsOf(p.status)
  }

  predicate HoldInv(sent: seq<B.Message>, p: P.Payment, b: Booking) {
    && p.renterId == b.renterId && p.holdAmountCents == B.AmountDue(b)
    && (p.status == P.AuthorizationFailed <==> p.intentId.None?)
    && (p.status == P.Captured ==> p.holdAmountCents > 0)
    && (p.overageCents == 0
        || (p.overageCents > 0 && p.status == P.Captured && Captures(sent) != []
          && p.overageCents == Captures(sent)[0]))
  }

  predicate HeardInv(events: seq<B.PaymentEvent>, heard: nat, b: Booking) {
    && heard <= |events|
    && match b.status
       case Requested => heard == 0
       case Rejected => heard == 0
       case Confirmed => heard == 1 && events[0] == B.Authorized
       case Cancelled => heard == 1 && events[0] == B.AuthorizationFailed
       case Active => 1 <= heard <= 2 && events[0] == B.Authorized && (heard == 2 ==> events[1] == B.CaptureFailed)
       case Completed => heard == 2 && events[1] == B.Captured
  }

  // The one call the service may make under each of the booking's three keys.
  predicate CallInv(sent: seq<B.Message>, pay: Option<P.Payment>, b: Booking, op: P.Op, call: P.Call) {
    if op == P.HoldOp then call == P.Call(B.AmountDue(b), None)
    else
      && pay.Some? && pay.value.intentId.Some? && Captures(sent) != []
      && call == (if op == P.CaptureOp then P.Call(B.AmountDue(b), pay.value.intentId)
           else P.Call(Captures(sent)[0], None))
      && (op == P.OverageOp ==> call.amountCents > 0)
  }

  ghost predicate CallsInv(sent: seq<B.Message>, pay: Option<P.Payment>, stripe: P.Stripe, b: Booking) {
    && (forall i | 0 <= i < |stripe.calls| :: CallInv(sent, pay, b, stripe.calls[i].op, stripe.calls[i].call))
    && (forall op :: P.SlotOf(stripe, op).Some? ==> CallInv(sent, pay, b, op, P.SlotOf(stripe, op).value.call))
  }

  // Every call was the expected one, and what the payment claims Stripe did, Stripe did.
  ghost predicate StripeInv(sent: seq<B.Message>, pay: Option<P.Payment>, stripe: P.Stripe, b: Booking) {
    CallsInv(sent, pay, stripe, b) && (pay.Some? ==> Backed(pay.value, stripe))
    && (stripe.overage.Some? ==> Remembers(stripe.capture))
  }

  // Stripe did what was asked, whether or not its answer arrived.
  predicate Remembers(slot: Option<P.Slot>) {
    slot.Some? && slot.value.reply.Succeeded?
  }

  predicate Backed(p: P.Payment, stripe: P.Stripe) {
    && (p.intentId.Some? ==> stripe.hold.Some? && stripe.hold.value.reply == P.Succeeded(p.intentId.value))
    && (p.status == P.Captured ==> Remembers(stripe.capture))
    && (if p.overageCents == 0 then p.overageIntentId.None?
        else p.overageIntentId.Some? && stripe.overage.Some?
             && stripe.overage.value.reply == P.Succeeded(p.overageIntentId.value))
  }

  ghost predicate Inv(s: Saga) {
    match s.row
    case None => s == Nothing
    case Some(b) =>
      && LogInv(s.log, s.heard, b)
      && ReadingInv(s.log, b)
      && SentInv(s.log, s.sent, b)
      && PaymentInv(s.sent, s.taken, s.pay, s.ledger, s.events, b)
      && HeardInv(s.events, s.heard, b)
      && StripeInv(s.sent, s.pay, s.stripe, b)
  }
}
