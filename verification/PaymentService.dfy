/**
  The payment service's code as it runs on a database session and a Stripe client: each method is
  proved against the handler of module Payments that it implements.
*/
module PaymentService {
  import opened Tables
  import opened Domain
  import opened Relay
  import opened Payments
  import Bookings

  // Stripe, as the service's client object sees it.
  class StripeClient {
    var memory: map<Uuid, Stripe>

    constructor (memory: map<Uuid, Stripe>)
      ensures this.memory == memory
    {
      this.memory := memory;
    }

    // A known key is answered from memory, with an error if the parameters differ or the answer does not
    // arrive. A new key is remembered with Stripe's decision unless the request is lost. No other slot
    // and no other booking is touched.
    method Send(b: Uuid, op: Op, call: Call, v: Verdict) returns (reply: Reply)
      modifies this
      ensures var (was, now) := (StripeAt(old(memory), b), StripeAt(memory, b));
        && now.calls == was.calls + [KeyedCall(op, call)]
        && (forall other | other != op :: SlotOf(now, other) == SlotOf(was, other))
        && SlotOf(now, op) == (if SlotOf(was, op).Some? then SlotOf(was, op)
                               else if v.RequestLost? then None else Some(Slot(call, v.reply)))
        && reply == (if v.Decides? && SlotOf(now, op).value.call == call then SlotOf(now, op).value.reply else Failed)
      ensures memory.Keys == old(memory).Keys + {b} && memory - {b} == old(memory) - {b}
      ensures StripeAt(memory, b) == Invoke(StripeAt(old(memory), b), op, call, v).0
      ensures reply == Invoke(StripeAt(old(memory), b), op, call, v).1
    {
      var s := StripeAt(memory, b);
      var known := SlotOf(s, op);
      s := s.(calls := s.calls + [KeyedCall(op, call)]);
      if known.None? && !v.RequestLost? {
        s := WithSlot(s, op, Slot(call, v.reply));
      }
      memory := memory[b := s];
      if !v.Decides? {
        return Failed;
      } else if known.None? {
        return v.reply;
      } else if known.value.call == call {
        return known.value.reply;
      }
      return Failed;
    }
  }

  // A database session of the payment service, with the same rollback convention as booking's.
  class PaymentSession {
    var payments: map<Uuid, Payment>
    var ledger: seq<Row<Entry>>
    var outbox: seq<Msg<Bookings.PaymentEvent>>
    var inbox: set<Uuid>

    constructor (db: PaymentDb)
      ensures Db() == db
    {
      payments, ledger, outbox, inbox := db.payments, db.ledger, db.outbox, db.inbox;
    }

    function Db(): PaymentDb
      reads this
    {
      PaymentDb(payments, ledger, outbox, inbox)
    }

    // What a handler must have done to this session, given what it found there.
    twostate predicate Did(b: Uuid, eff: Effect, id: Uuid)
      reads this
    {
      && payments == (if eff.payment.Some? then old(payments)[b := eff.payment.value] else old(payments))
      && ledger == old(ledger) + Tag(b, eff.entries)
      && outbox == Bookings.Post(old(outbox), id, b, eff.event)
      && inbox == old(inbox)
    }

    method WriteLedgerPair(b: Uuid, renterId: Uuid, hostId: Uuid, amountCents: int, reason: Reason)
      returns (r: Result<(), Error>)
      modifies this`ledger
      ensures r == if amountCents <= 0 then Err(IntegrityError) else Ok(())
      ensures r.Ok? ==> ledger == old(ledger) + Tag(b, LedgerPair(renterId, hostId, amountCents, reason))
    {
      if amountCents <= 0 { return Err(IntegrityError); }
      ledger := ledger + [
        Row(b, Entry(RenterAccount(renterId), Debit, amountCents, reason)),
        Row(b, Entry(HostAccount(hostId), Credit, amountCents, reason))];
      return Ok(());
    }

    method WriteOutboxEvent(b: Uuid, event: Bookings.PaymentEvent, id: Uuid) returns (r: Result<(), Error>)
      modifies this`outbox
      ensures r == if Used(old(outbox), id) then Err(IntegrityError) else Ok(())
      ensures r.Ok? ==> outbox == Bookings.Post(old(outbox), id, b, Some(event))
    {
      if Used(outbox, id) { return Err(IntegrityError); }
      outbox := outbox + [Msg(id, b, event)];
      return Ok(());
    }

    method HandleAuthorizePaymentRequested(stripe: StripeClient, b: Uuid, renterId: Uuid, amountCents: int,
                                           v: Verdicts, id: Uuid)
      returns (r: Result<(), Error>)
      modifies this, stripe
      ensures var h :=
        HandleAuthorize(Lookup(old(payments), b), StripeAt(old(stripe.memory), b), renterId, amountCents, v.first);
        && StripeAt(stripe.memory, b) == h.stripe && stripe.memory - {b} == old(stripe.memory) - {b}
        && h.result.Ok?
        && (if h.result.value.event.Some? && Used(old(outbox), id) then r == Err(IntegrityError)
            else r == Ok(()) && Did(b, h.result.value, id))
    {
      if b in payments {
        assert payments == old(payments)[b := old(payments)[b]];
        return Ok(());
      }
      var reply := stripe.Send(b, HoldOp, Call(amountCents, None), v.first);
      match reply
      case Failed =>
        payments := payments[b := Payment(renterId, amountCents, 0, AuthorizationFailed, None, None)];
        r := WriteOutboxEvent(b, Bookings.AuthorizationFailed, id);
      case Succeeded(intent) =>
        payments := payments[b := Payment(renterId, amountCents, 0, Authorized, Some(intent), None)];
        r := WriteOutboxEvent(b, Bookings.Authorized, id);
    }

    method HandleCapturePaymentRequested(stripe: StripeClient, b: Uuid, hostId: Uuid, holdAmountCents: int,
                                         overageCents: int,
                                         v: Verdicts, id: Uuid) returns (r: Result<(), Error>)
      modifies this, stripe
      ensures var h :=
        HandleCapture(Lookup(old(payments), b), StripeAt(old(stripe.memory), b), hostId, holdAmountCents, overageCents,
          v);
        && StripeAt(stripe.memory, b) == h.stripe && stripe.memory - {b} == old(stripe.memory) - {b}
        && match h.result
           case Err(e) => r == Err(e)
           case Ok(eff) =>
             if eff.event.Some? && Used(old(outbox), id) then r == Err(IntegrityError)
             else r == Ok(()) && Did(b, eff, id)
    {
      if b !in payments || payments[b].status != Authorized {
        assert b in payments ==> payments == old(payments)[b := old(payments)[b]];
        return Ok(());
      }
      var payment := payments[b];
      var captured := stripe.Send(b, CaptureOp, Call(holdAmountCents, payment.intentId), v.first);
      if captured.Failed? {
        payments := payments[b := payment.(status := CaptureFailed)];
        r := WriteOutboxEvent(b, Bookings.CaptureFailed, id);
        return;
      }
      ghost var rental := LedgerPair(payment.renterId, hostId, holdAmountCents, Rental);
      r := WriteLedgerPair(b, payment.renterId, hostId, holdAmountCents, Rental);
      if r.Err? { return; }
      if overageCents > 0 {
        var charged := stripe.Send(b, OverageOp, Call(overageCents, None), v.second);
        if charged.Succeeded? {
          payment := payment.(overageIntentId := Some(charged.intentId), overageCents := overageCents);
          r := WriteLedgerPair(b, payment.renterId, hostId, overageCents, MileageOverage);
          ghost var extra := LedgerPair(payment.renterId, hostId, overageCents, MileageOverage);
          assert ledger == old(ledger) + Tag(b, rental + extra);
        }
      }
      payments := payments[b := payment.(status := Captured)];
      r := WriteOutboxEvent(b, Bookings.Captured, id);
    }
  }

  // The inbox processor: a fresh session, committed only if the handler succeeds.
  method ProcessMessage(db: PaymentDb, stripe: StripeClient, m: Msg<Bookings.Message>, v: Verdicts, id: Uuid)
    returns (db': PaymentDb, r: Result<(), Error>)
    modifies stripe
    ensures var (memory, result) := ReceiveMessage(db, old(stripe.memory), m, v, id);
      && (forall b :: StripeAt(stripe.memory, b) == StripeAt(memory, b))
      && match result
         case Ok(d) => r == Ok(()) && db' == d
         case Err(e) => r == Err(e) && db' == db
  {
    if m.id in db.inbox { return db, Ok(()); }
    var session := new PaymentSession(db.(inbox := db.inbox + {m.id}));
    r := Ok(());
    match m.body {
      case AuthorizePaymentRequested(renterId, amount) =>
        r := session.HandleAuthorizePaymentRequested(stripe, m.key, renterId, amount, v, id);
      case CapturePaymentRequested(hostId, hold, overage) =>
        r := session.HandleCapturePaymentRequested(stripe, m.key, hostId, hold, overage, v, id);
      case LifecycleNotice(_, _, _, _) =>
        assert m.key in db.payments ==> db.payments == db.payments[m.key := db.payments[m.key]];
    }
    forall b | b != m.key ensures StripeAt(stripe.memory, b) == StripeAt(old(stripe.memory), b) {
      assert b in stripe.memory <==> b in stripe.memory - {m.key};
      assert b in old(stripe.memory) <==> b in old(stripe.memory) - {m.key};
      if b in stripe.memory { assert (stripe.memory - {m.key})[b] == (old(stripe.memory) - {m.key})[b]; }
    }
    if r.Err? { return db, r; }
    return session.Db(), r;
  }
}
