/**
  The payment service (services/payment/service.py, repository.py and consumers.py) and the part of
  Stripe it relies on: a call carries an idempotency key, and Stripe remembers the first call made
  under a key and its outcome. Every key the service uses names an operation and a booking, so
  Stripe's memory is kept per booking with one slot for each operation.
*/
module Payments {
  import opened Tables
  import opened Domain
  import opened Relay
  import Bookings

  datatype PaymentStatus = Authorized | AuthorizationFailed | Captured | CaptureFailed

  datatype Payment = Payment(
    renterId: Uuid, holdAmountCents: int, overageCents: int, status: PaymentStatus,
    intentId: Option<Uuid>, overageIntentId: Option<Uuid>)

  datatype Account = RenterAccount(id: Uuid) | HostAccount(id: Uuid)

  datatype Direction = Debit | Credit

  datatype Reason = Rental | MileageOverage

  datatype Entry = Entry(account: Account, direction: Direction, amountCents: int, reason: Reason)

  datatype PaymentDb = PaymentDb(
    payments: map<Uuid, Payment>, ledger: seq<Row<Entry>>, outbox: seq<Msg<Bookings.PaymentEvent>>, inbox: set<Uuid>)

  // ----- Stripe -----

  datatype Op = HoldOp | CaptureOp | OverageOp

  datatype Call = Call(amountCents: int, intentId: Option<Uuid>)

  datatype Reply = Succeeded(intentId: Uuid) | Failed

  datatype Slot = Slot(call: Call, reply: Reply)

  datatype KeyedCall = KeyedCall(op: Op, call: Call)

  // What Stripe remembers about one booking, and the history of the calls made for it.
  datatype Stripe = Stripe(hold: Option<Slot>, capture: Option<Slot>, overage: Option<Slot>, calls: seq<KeyedCall>)

  const Blank := Stripe(None, None, None, [])

  // How a call turns out: Stripe decides it, or the request never arrives, or it is decided and the
  // answer never arrives. The service sees the last two as errors.
  datatype Verdict = Decides(reply: Reply) | RequestLost | ReplyLost(reply: Reply)

  datatype Verdicts = Verdicts(first: Verdict, second: Verdict)

  function SlotOf(s: Stripe, op: Op): Option<Slot> {
    match op
    case HoldOp => s.hold
    case CaptureOp => s.capture
    case OverageOp => s.overage
  }

  function WithSlot(s: Stripe, op: Op, slot: Slot): Stripe {
    match op
    case HoldOp => s.(hold := Some(slot))
    case CaptureOp => s.(capture := Some(slot))
    case OverageOp => s.(overage := Some(slot))
  }

  // A known key replays its outcome, or is refused if the parameters changed.
  function Invoke(s: Stripe, op: Op, call: Call, v: Verdict): (Stripe, Reply) {
    var s1 := s.(calls := s.calls + [KeyedCall(op, call)]);
    match SlotOf(s, op)
    case Some(slot) => (s1, if v.Decides? && slot.call == call then slot.reply else Failed)
    case None =>
      match v
      case Decides(reply) => (WithSlot(s1, op, Slot(call, reply)), reply)
      case RequestLost => (s1, Failed)
      case ReplyLost(reply) => (WithSlot(s1, op, Slot(call, reply)), Failed)
  }

  // ----- the handlers -----

  // What a handler leaves in the session: the payment row, new ledger entries, an outbox event.
  datatype Effect = Effect(payment: Option<Payment>, entries: seq<Entry>, event: Option<Bookings.PaymentEvent>)

  datatype Handling = Handling(stripe: Stripe, result: Result<Effect, Error>)

  function LedgerPair(renterId: Uuid, hostId: Uuid, amountCents: int, reason: Reason): seq<Entry> {
    [Entry(RenterAccount(renterId), Debit, amountCents, reason),
      Entry(HostAccount(hostId), Credit, amountCents, reason)]
  }

  function HandleAuthorize(p: Option<Payment>, s: Stripe, renterId: Uuid, amountCents: int, v: Verdict): Handling {
    if p.Some? then Handling(s, Ok(Effect(p, [], None)))
    else
      var (s', reply) := Invoke(s, HoldOp, Call(amountCents, None), v);
      Handling(s', Ok(
        match reply
        case Failed =>
          Effect(Some(Payment(renterId, amountCents, 0, AuthorizationFailed, None, None)), [],
                 Some(Bookings.AuthorizationFailed))
        case Succeeded(intent) =>
          Effect(Some(Payment(renterId, amountCents, 0, Authorized, Some(intent), None)), [],
                 Some(Bookings.Authorized))))
  }

  // The ledger refuses amounts that are not positive, which aborts the handler after the capture call.
  function HandleCapture(p: Option<Payment>, s: Stripe, hostId: Uuid, holdAmountCents: int, overageCents: int,
                         v: Verdicts): Handling
  {
    if p.None? || p.value.status != Authorized then Handling(s, Ok(Effect(p, [], None)))
    else
      var payment := p.value;
      var (s1, captured) := Invoke(s, CaptureOp, Call(holdAmountCents, payment.intentId), v.first);
      if captured.Failed? then
        Handling(s1, Ok(Effect(Some(payment.(status := CaptureFailed)), [], Some(Bookings.CaptureFailed))))
      else if holdAmountCents <= 0 then Handling(s1, Err(IntegrityError))
      else
        var rental := LedgerPair(payment.renterId, hostId, holdAmountCents, Rental);
        if overageCents <= 0 then
          Handling(s1, Ok(Effect(Some(payment.(status := Captured)), rental, Some(Bookings.Captured))))
        else
          var (s2, charged) := Invoke(s1, OverageOp, Call(overageCents, None), v.second);
          match charged
          case Failed =>
            Handling(s2, Ok(Effect(Some(payment.(status := Captured)), rental, Some(Bookings.Captured))))
          case Succeeded(intent) =>
            Handling(s2, Ok(Effect(
              Some(payment.(status := Captured, overageCents := overageCents, overageIntentId := Some(intent))),
              rental + LedgerPair(payment.renterId, hostId, overageCents, MileageOverage),
              Some(Bookings.Captured))))
  }

  function Handle(p: Option<Payment>, s: Stripe, m: Bookings.Message, v: Verdicts): Handling {
    match m
    case AuthorizePaymentRequested(renterId, amount) => HandleAuthorize(p, s, renterId, amount, v.first)
    case CapturePaymentRequested(hostId, hold, overage) => HandleCapture(p, s, hostId, hold, overage, v)
    case LifecycleNotice(_, _, _, _) => Handling(s, Ok(Effect(p, [], None)))
  }

  // Stripe's memory if the process dies in the middle of the handler, after `cut` of its calls.
  function Interrupted(p: Option<Payment>, s: Stripe, m: Bookings.Message, v: Verdicts, cut: nat): Stripe {
    if cut == 0 then s
    else if cut == 1 && m.CapturePaymentRequested? && p.Some? && p.value.status == Authorized then
      Invoke(s, CaptureOp, Call(m.holdAmountCents, p.value.intentId), v.first).0
    else Handle(p, s, m, v).stripe
  }

  predicate Made(was: Stripe, now: Stripe, op: Op) {
    exists i | |was.calls| <= i < |now.calls| :: now.calls[i].op == op
  }

  lemma OneMade(s: Stripe, op: Op, call: Call, v: Verdict)
    ensures var now := Invoke(s, op, call, v).0;
      && now.calls == s.calls + [KeyedCall(op, call)]
      && forall other ::
           (Made(s, now, other) <==> other == op) && (other != op ==> SlotOf(now, other) == SlotOf(s, other))
  {
    var now := Invoke(s, op, call, v).0;
    assert now.calls[|s.calls|].op == op;
  }

  lemma TwoMade(a: Stripe, b: Stripe, c: Stripe, op: Op)
    requires a.calls <= b.calls <= c.calls
    ensures Made(a, c, op) <==> Made(a, b, op) || Made(b, c, op)
  {
    if Made(a, b, op) {
      var i :| |a.calls| <= i < |b.calls| && b.calls[i].op == op;
      assert c.calls[i].op == op;
    }
    if Made(a, c, op) {
      var i :| |a.calls| <= i < |c.calls| && c.calls[i].op == op;
      if i < |b.calls| { assert b.calls[i].op == op; }
    }
  }

  // A handler that dies has made the first of its calls, `cut` of them at most, and Stripe remembers of
  // those, and of no others, what it would have remembered had the handler finished.
  lemma DeadHandlerIsAPrefix(p: Option<Payment>, s: Stripe, m: Bookings.Message, v: Verdicts, cut: nat)
    ensures var now, done := Interrupted(p, s, m, v, cut), Handle(p, s, m, v).stripe;
      && |s.calls| <= |done.calls| <= |s.calls| + 2
      && now.calls == (if |s.calls| + cut < |done.calls| then done.calls[..|s.calls| + cut] else done.calls)
      && forall op :: SlotOf(now, op) == if Made(s, now, op) then SlotOf(done, op) else SlotOf(s, op)
  {
    if m.AuthorizePaymentRequested? && p.None? {
      OneMade(s, HoldOp, Call(m.amountCents, None), v.first);
    } else if m.CapturePaymentRequested? && p.Some? && p.value.status == Authorized {
      hide Invoke, Made, SlotOf;
      CaptureMakes(p.value, s, m, v);
    }
  }

  lemma CaptureMakes(p: Payment, s: Stripe, m: Bookings.Message, v: Verdicts)
    requires p.status == Authorized && m.CapturePaymentRequested?
    ensures var s1, done :=
      Invoke(s, CaptureOp, Call(m.holdAmountCents, p.intentId), v.first).0, Handle(Some(p), s, m, v).stripe;
      && s1.calls == s.calls + [KeyedCall(CaptureOp, Call(m.holdAmountCents, p.intentId))]
      && s1.calls <= done.calls && |done.calls| <= |s.calls| + 2
      && (|done.calls| == |s1.calls| ==> done == s1)
      && forall op ::
        && !Made(s, s, op)
        && SlotOf(s1, op) == (if Made(s, s1, op) then SlotOf(done, op) else SlotOf(s, op))
        && (!Made(s, done, op) ==> SlotOf(done, op) == SlotOf(s, op))
  {
    var capture, overage := Call(m.holdAmountCents, p.intentId), Call(m.overageCents, None);
    OneMade(s, CaptureOp, capture, v.first);
    var (s1, captured) := Invoke(s, CaptureOp, capture, v.first);
    if captured.Succeeded? && m.holdAmountCents > 0 && m.overageCents > 0 {
      OneMade(s1, OverageOp, overage, v.second);
      var s2 := Invoke(s1, OverageOp, overage, v.second).0;
      forall op { TwoMade(s, s1, s2, op); }
    }
  }

  function StripeAt(stripe: map<Uuid, Stripe>, b: Uuid): Stripe {
    if b in stripe then stripe[b] else Blank
  }

  // The transaction around a handler. Stripe's memory is outside it and survives its rollback.
  function ReceiveMessage(db: PaymentDb, stripe: map<Uuid, Stripe>, m: Msg<Bookings.Message>, v: Verdicts, id: Uuid)
    : (map<Uuid, Stripe>, Result<PaymentDb, Error>)
  {
    if m.id in db.inbox then (stripe, Ok(db))
    else
      var h := Handle(Lookup(db.payments, m.key), StripeAt(stripe, m.key), m.body, v);
      (stripe[m.key := h.stripe],
       match h.result
       case Err(e) => Err(e)
       case Ok(eff) =>
         if eff.event.Some? && Used(db.outbox, id) then Err(IntegrityError)
         else Ok(PaymentDb(
           if eff.payment.Some? then db.payments[m.key := eff.payment.value] else db.payments,
           db.ledger + Tag(m.key, eff.entries),
           Bookings.Post(db.outbox, id, m.key, eff.event),
           db.inbox + {m.id})))
  }
}
