/**
  The two services joined: their databases, the two topics between them with connectors and consumers,
  and Stripe. A run is any sequence of steps: host and renter requests, rows shipped or shipped again,
  records consumed, offsets committed, handlers that fail or die part-way, consumers that restart.
*/
module System {
  import opened Tables
  import opened Domain
  import opened Relay
  import B = Bookings
  import P = Payments
  import Saga
  import SagaSafety

  datatype System = System(
    booking: B.BookingDb, commands: Link<B.Message>,
    payment: P.PaymentDb, events: Link<B.PaymentEvent>,
    stripe: map<Uuid, P.Stripe>)

  datatype Step =
    | Request(b: Uuid, renterId: Uuid, vehicleId: Uuid, vehicle: Option<B.VehicleInfo>,
              startDate: Date, endDate: Date, id: Uuid)
    | Command(b: Uuid, command: B.Command, id: Uuid)
    | ShipCommand
    | RewindCommands(cursor: nat)
    | CommitCommands(q: nat)
    | RestartCommands(q: nat)
    | PaymentConsumes(q: nat, verdicts: P.Verdicts, id: Uuid)
    | PaymentDies(q: nat, verdicts: P.Verdicts, cut: nat)
    | ShipEvent
    | RewindEvents(cursor: nat)
    | CommitEvents(q: nat)
    | RestartEvents(q: nat)
    | BookingConsumes(q: nat, id: Uuid)

  ghost predicate Init(s: System) {
    && s.booking == B.BookingDb(map[], [], [], {})
    && s.payment == P.PaymentDb(map[], [], [], {})
    && s.stripe == map[]
    && Idle(s.commands) && Idle(s.events)
  }

  ghost predicate Idle<T>(link: Link<T>) {
    |link.parts| > 0 && link.cursor == 0 && forall q | 0 <= q < |link.parts| :: link.parts[q] == Partition([], 0, 0)
  }

  // A request whose transaction fails leaves no trace.
  ghost function OrElse(s: System, r: Result<B.BookingDb, Error>): System {
    if r.Ok? then s.(booking := r.value) else s
  }

  // One record read by payment. A handler that raises takes the consumer down with its offset
  // uncommitted; what it told Stripe stays told.
  ghost function PaymentReads(s: System, q: nat, v: P.Verdicts, id: Uuid): System
    requires HasNext(s.commands, q)
  {
    var (stripe, r) := P.ReceiveMessage(s.payment, s.stripe, Next(s.commands, q), v, id);
    match r
    case Ok(db) => s.(payment := db, stripe := stripe, commands := Advance(s.commands, q))
    case Err(_) => s.(stripe := stripe, commands := Restart(s.commands, q))
  }

  ghost function PaymentDiesOn(s: System, q: nat, v: P.Verdicts, cut: nat): System
    requires HasNext(s.commands, q)
  {
    var m := Next(s.commands, q);
    var stripe := P.Interrupted(Lookup(s.payment.payments, m.key), P.StripeAt(s.stripe, m.key), m.body, v, cut);
    s.(stripe := if m.id in s.payment.inbox then s.stripe else s.stripe[m.key := stripe],
       commands := Restart(s.commands, q))
  }

  ghost function BookingReads(s: System, q: nat, id: Uuid): System
    requires HasNext(s.events, q)
  {
    match B.ReceivePaymentEvent(s.booking, Next(s.events, q), id)
    case Ok(db) => s.(booking := db, events := Advance(s.events, q))
    case Err(_) => s.(events := Restart(s.events, q))
  }

  // A step that is not enabled changes nothing.
  ghost function Apply(s: System, step: Step): System
    requires |s.commands.parts| > 0 && |s.events.parts| > 0
    ensures |Apply(s, step).commands.parts| > 0 && |Apply(s, step).events.parts| > 0
  {
    match step
    case Request(b, renterId, vehicleId, vehicle, startDate, endDate, id) =>
      if startDate < endDate
      then OrElse(s, B.RequestBooking(s.booking, b, renterId, vehicleId, vehicle, startDate, endDate, id))
      else s
    case Command(b, c, id) => if Saga.FromHost(c) then OrElse(s, B.Execute(s.booking, b, c, id)) else s
    case ShipCommand => s.(commands := Ship(s.commands, s.booking.outbox))
    case RewindCommands(cursor) => s.(commands := Rewind(s.commands, cursor))
    case CommitCommands(q) => s.(commands := CommitOffset(s.commands, q))
    case RestartCommands(q) => s.(commands := Restart(s.commands, q))
    case PaymentConsumes(q, v, id) => if HasNext(s.commands, q) then PaymentReads(s, q, v, id) else s
    case PaymentDies(q, v, cut) => if HasNext(s.commands, q) then PaymentDiesOn(s, q, v, cut) else s
    case ShipEvent => s.(events := Ship(s.events, s.payment.outbox))
    case RewindEvents(cursor) => s.(events := Rewind(s.events, cursor))
    case CommitEvents(q) => s.(events := CommitOffset(s.events, q))
    case RestartEvents(q) => s.(events := Restart(s.events, q))
    case BookingConsumes(q, id) => if HasNext(s.events, q) then BookingReads(s, q, id) else s
  }

  ghost function Run(s: System, steps: seq<Step>): System
    requires |s.commands.parts| > 0 && |s.events.parts| > 0
    ensures |Run(s, steps).commands.parts| > 0 && |Run(s, steps).events.parts| > 0
    decreases steps
  {
    if steps == [] then s else Run(Apply(s, steps[0]), steps[1..])
  }

  ghost predicate Reachable(s: System) {
    exists s0, steps :: Init(s0) && s == Run(s0, steps)
  }

  // One booking's saga inside the system.
  ghost function View(s: System, b: Uuid): Saga.Saga {
    Saga.Saga(
      Lookup(s.booking.rows, b), Of(s.booking.events, b),
      Sent(s.booking.outbox, b), Taken(s.booking.outbox, s.payment.inbox, b),
      Lookup(s.payment.payments, b), Of(s.payment.ledger, b),
      Sent(s.payment.outbox, b), Taken(s.payment.outbox, s.booking.inbox, b),
      P.StripeAt(s.stripe, b))
  }

  ghost predicate RelayInv(s: System) {
    && Relay.Inv(s.booking.outbox, s.commands, s.payment.inbox)
    && Relay.Inv(s.payment.outbox, s.events, s.booking.inbox)
  }

  ghost predicate SagaInv(s: System) {
    forall b :: Saga.Inv(View(s, b))
  }

  // ----- every step of the system is at most one step of one saga -----

  ghost predicate OneSagaStep(s: System, s': System) {
    exists k, st :: Moves(s, s', k, st)
  }

  ghost predicate Moves(s: System, s': System, k: Uuid, st: Saga.Step) {
    && (View(s', k) == View(s, k) || View(s', k) == Saga.Next(View(s, k), st))
    && forall b | b != k :: View(s', b) == View(s, b)
  }

  lemma TransportMovesNothing(s: System, commands: Link<B.Message>, events: Link<B.PaymentEvent>)
    ensures OneSagaStep(s, s.(commands := commands, events := events))
  {
    assert Moves(s, s.(commands := commands, events := events), 0, Saga.Hear);
  }

  // Posting to the outbox under a fresh id, as the two queues see it.
  lemma PostGrowsQueue<T>(outbox: seq<Msg<T>>, link: Link<T>, inbox: set<Uuid>, id: Uuid, k: Uuid, body: Option<T>)
    requires Relay.Inv(outbox, link, inbox) && (body.Some? ==> !Used(outbox, id))
    ensures Relay.Inv(B.Post(outbox, id, k, body), link, inbox)
    ensures forall b :: Sent(B.Post(outbox, id, k, body), b) == Sent(outbox, b) + if b == k then Saga.Opt(body) else []
    ensures forall b :: Taken(B.Post(outbox, id, k, body), inbox, b) == Taken(outbox, inbox, b)
  {
    if body.Some? {
      AppendKeepsInv(outbox, link, inbox, Msg(id, k, body.value));
      assert id !in inbox;
      forall b {
        SentAppend(outbox, inbox, Msg(id, k, body.value), b);
      }
    } else {
      assert B.Post(outbox, id, k, body) == outbox;
    }
  }

  lemma CommandMoves(s: System, b: Uuid, c: B.Command, id: Uuid)
    requires RelayInv(s) && B.Execute(s.booking, b, c, id).Ok? && Saga.FromHost(c)
    ensures var s' := s.(booking := B.Execute(s.booking, b, c, id).value); RelayInv(s') && Moves(s, s', b, Saga.Do(c))
  {
    hide Relay.Inv, B.Decide, Of, Sent, Taken, B.Stamp, B.Post;
    var row := s.booking.rows[b];
    var eff := B.Decide(row, c).value;
    PostGrowsQueue(s.booking.outbox, s.commands, s.payment.inbox, id, b, eff.message);
    forall k {
      OfAppendTag(s.booking.events, b, B.Stamp(row.version, eff.events), k);
    }
  }

  lemma RequestMoves(s: System, b: Uuid, row: Booking, id: Uuid)
    requires RelayInv(s) && B.CreateBooking(s.booking, b, row, id).Ok? && Saga.NewRow(row)
    ensures var s' := s.(booking := B.CreateBooking(s.booking, b, row, id).value);
      RelayInv(s') && Moves(s, s', b, Saga.Create(row))
  {
    hide Relay.Inv, Of, Sent, Taken, B.Post, B.VersionUsed;
    var m := if row.mode == Instant then Some(B.AuthorizeMessage(row)) else None;
    PostGrowsQueue(s.booking.outbox, s.commands, s.payment.inbox, id, b, m);
    forall k {
      OfAppendTag(s.booking.events, b, B.Stamp(row.version, [BookingRequested]), k);
    }
  }

  lemma HandlerFacts(p: Option<P.Payment>, stripe: P.Stripe, m: B.Message, v: P.Verdicts)
    ensures P.Interrupted(p, stripe, m, v, 2) == P.Handle(p, stripe, m, v).stripe
    ensures var r := P.Handle(p, stripe, m, v).result; r.Ok? && r.value.payment.None? ==> p.None?
  {
  }

  lemma PaymentReadsMoves(s: System, q: nat, v: P.Verdicts, id: Uuid)
    requires RelayInv(s) && HasNext(s.commands, q)
    ensures var s' := PaymentReads(s, q, v, id); RelayInv(s') && OneSagaStep(s, s')
  {
    hide Relay.Inv, P.Handle, P.Interrupted, Of, Sent, Taken, B.Post;
    var m := Next(s.commands, q);
    var s' := PaymentReads(s, q, v, id);
    var (stripe, r) := P.ReceiveMessage(s.payment, s.stripe, m, v, id);
    RestartKeepsInv(s.booking.outbox, s.commands, s.payment.inbox, q);
    ClaimKeepsInv(s.booking.outbox, s.commands, s.payment.inbox, q);
    if m.id in s.payment.inbox {
      assert s.payment.inbox + {m.id} == s.payment.inbox;
      TransportMovesNothing(s, Advance(s.commands, q), s.events);
      assert s' == s.(commands := Advance(s.commands, q), events := s.events);
    } else {
      ConsumeTakesNext(s.booking.outbox, s.commands, s.payment.inbox, q);
      var h := P.Handle(Lookup(s.payment.payments, m.key), P.StripeAt(s.stripe, m.key), m.body, v);
      HandlerFacts(Lookup(s.payment.payments, m.key), P.StripeAt(s.stripe, m.key), m.body, v);
      if r.Ok? {
        PostGrowsQueue(s.payment.outbox, s.events, s.booking.inbox, id, m.key, h.result.value.event);
        forall k {
          OfAppendTag(s.payment.ledger, m.key, h.result.value.entries, k);
        }
        assert Moves(s, s', m.key, Saga.Take(v));
      } else {
        assert View(s', m.key) == View(s, m.key).(stripe := h.stripe);
        assert Moves(s, s', m.key, Saga.Interrupt(v, 2));
      }
    }
  }

  lemma PaymentDiesMoves(s: System, q: nat, v: P.Verdicts, cut: nat)
    requires RelayInv(s) && HasNext(s.commands, q)
    ensures var s' := PaymentDiesOn(s, q, v, cut); RelayInv(s') && OneSagaStep(s, s')
  {
    hide Relay.Inv, P.Interrupted;
    var m := Next(s.commands, q);
    var s' := PaymentDiesOn(s, q, v, cut);
    RestartKeepsInv(s.booking.outbox, s.commands, s.payment.inbox, q);
    if m.id in s.payment.inbox {
      TransportMovesNothing(s, Restart(s.commands, q), s.events);
      assert s' == s.(commands := Restart(s.commands, q), events := s.events);
    } else {
      ConsumeTakesNext(s.booking.outbox, s.commands, s.payment.inbox, q);
      assert Moves(s, s', m.key, Saga.Interrupt(v, cut));
    }
  }

  lemma BookingReadsMoves(s: System, q: nat, id: Uuid)
    requires RelayInv(s) && HasNext(s.events, q)
    ensures var s' := BookingReads(s, q, id); RelayInv(s') && OneSagaStep(s, s')
    ensures var m, s' := Next(s.events, q), BookingReads(s, q, id);
      m.id !in s.booking.inbox && B.ReceivePaymentEvent(s.booking, m, id).Ok? ==> Moves(s, s', m.key, Saga.Hear)
  {
    hide Relay.Inv, B.Decide, Of, Sent, Taken, B.Stamp, B.Post;
    var m := Next(s.events, q);
    var s' := BookingReads(s, q, id);
    var r := B.ReceivePaymentEvent(s.booking, m, id);
    RestartKeepsInv(s.payment.outbox, s.events, s.booking.inbox, q);
    ClaimKeepsInv(s.payment.outbox, s.events, s.booking.inbox, q);
    if r.Err? {
      TransportMovesNothing(s, s.commands, Restart(s.events, q));
      assert s' == s.(commands := s.commands, events := Restart(s.events, q));
    } else if m.id in s.booking.inbox {
      assert s.booking.inbox + {m.id} == s.booking.inbox;
      TransportMovesNothing(s, s.commands, Advance(s.events, q));
      assert s' == s.(commands := s.commands, events := Advance(s.events, q));
    } else {
      ConsumeTakesNext(s.payment.outbox, s.events, s.booking.inbox, q);
      var row := s.booking.rows[m.key];
      var eff := B.Decide(row, B.ReactionTo(m.body)).value;
      PostGrowsQueue(s.booking.outbox, s.commands, s.payment.inbox, id, m.key, eff.message);
      forall k {
        OfAppendTag(s.booking.events, m.key, B.Stamp(row.version, eff.events), k);
      }
      assert Moves(s, s', m.key, Saga.Hear);
    }
  }

  lemma ApplyMovesOneSaga(s: System, step: Step)
    requires RelayInv(s)
    ensures RelayInv(Apply(s, step)) && OneSagaStep(s, Apply(s, step))
  {
    hide Relay.Inv, View;
    TransportMovesNothing(s, s.commands, s.events);
    assert s.(commands := s.commands, events := s.events) == s;
    match step {
      case Request(b, renterId, vehicleId, vehicle, startDate, endDate, id) =>
        var r := B.RequestBooking(s.booking, b, renterId, vehicleId, vehicle, startDate, endDate, id);
        if startDate < endDate && r.Ok? {
          RequestMoves(s, b, B.NewBooking(renterId, vehicleId, vehicle.value, startDate, endDate), id);
        }
      case Command(b, c, id) =>
        if Saga.FromHost(c) && B.Execute(s.booking, b, c, id).Ok? { CommandMoves(s, b, c, id); }
      case PaymentConsumes(q, v, id) => if HasNext(s.commands, q) { PaymentReadsMoves(s, q, v, id); }
      case PaymentDies(q, v, cut) => if HasNext(s.commands, q) { PaymentDiesMoves(s, q, v, cut); }
      case BookingConsumes(q, id) => if HasNext(s.events, q) { BookingReadsMoves(s, q, id); }
      case _ => TransportKeepsInv(s, step);
    }
  }

  lemma TransportKeepsInv(s: System, step: Step)
    requires RelayInv(s) && !step.Request? && !step.Command?
    requires !step.PaymentConsumes? && !step.PaymentDies? && !step.BookingConsumes?
    ensures RelayInv(Apply(s, step)) && OneSagaStep(s, Apply(s, step))
  {
    TransportMovesNothing(s, Apply(s, step).commands, Apply(s, step).events);
    assert Apply(s, step) == s.(commands := Apply(s, step).commands, events := Apply(s, step).events);
    var outbox, inbox := s.booking.outbox, s.payment.inbox;
    var outbox', inbox' := s.payment.outbox, s.booking.inbox;
    match step {
      case ShipCommand => ShipKeepsInv(outbox, s.commands, inbox);
      case RewindCommands(cursor) => RewindKeepsInv(outbox, s.commands, inbox, cursor);
      case CommitCommands(q) => CommitKeepsInv(outbox, s.commands, inbox, q);
      case RestartCommands(q) => RestartKeepsInv(outbox, s.commands, inbox, q);
      case ShipEvent => ShipKeepsInv(outbox', s.events, inbox');
      case RewindEvents(cursor) => RewindKeepsInv(outbox', s.events, inbox', cursor);
      case CommitEvents(q) => CommitKeepsInv(outbox', s.events, inbox', q);
      case RestartEvents(q) => RestartKeepsInv(outbox', s.events, inbox', q);
    }
  }

  // ----- every run -----

  lemma SagaStepKeepsInv(s: System, s': System)
    requires SagaInv(s) && OneSagaStep(s, s')
    ensures SagaInv(s')
  {
    hide Relay.Inv, Saga.Inv, Saga.Next;
    var k, st :| Moves(s, s', k, st);
    SagaSafety.NextKeepsInv(View(s, k), st);
    forall b ensures Saga.Inv(View(s', b)) {
      assert b != k ==> View(s', b) == View(s, b);
      assert Saga.Inv(View(s, b));
    }
  }

  lemma {:induction false} RunKeepsInv(s: System, steps: seq<Step>)
    requires |s.commands.parts| > 0 && |s.events.parts| > 0 && RelayInv(s) && SagaInv(s)
    ensures RelayInv(Run(s, steps)) && SagaInv(Run(s, steps))
    decreases steps
  {
    hide Apply, RelayInv, SagaInv, OneSagaStep;
    if steps != [] {
      ApplyMovesOneSaga(s, steps[0]);
      SagaStepKeepsInv(s, Apply(s, steps[0]));
      RunKeepsInv(Apply(s, steps[0]), steps[1..]);
    }
  }

  lemma ReachableInv(s: System)
    requires Reachable(s)
    ensures |s.commands.parts| > 0 && |s.events.parts| > 0 && RelayInv(s) && SagaInv(s)
  {
    var s0, steps :| Init(s0) && s == Run(s0, steps);
    forall b ensures Saga.Inv(View(s0, b)) {
      assert View(s0, b) == Saga.Nothing;
    }
    RunKeepsInv(s0, steps);
  }

  // ----- reachable states, a step at a time -----

  lemma RunMore(s: System, steps: seq<Step>, step: Step)
    requires |s.commands.parts| > 0 && |s.events.parts| > 0
    ensures Run(s, steps + [step]) == Apply(Run(s, steps), step)
    decreases steps
  {
    if steps == [] {
      assert [step][1..] == [];
    } else {
      assert (steps + [step])[1..] == steps[1..] + [step];
      RunMore(Apply(s, steps[0]), steps[1..], step);
    }
  }

  lemma StaysReachable(s: System, step: Step)
    requires Reachable(s)
    ensures |s.commands.parts| > 0 && |s.events.parts| > 0 && Reachable(Apply(s, step))
  {
    var s0, steps :| Init(s0) && s == Run(s0, steps);
    RunMore(s0, steps, step);
  }

  lemma InitIsReachable(s: System)
    requires Init(s)
    ensures Reachable(s) && |s.commands.parts| > 0 && |s.events.parts| > 0
  {
    assert s == Run(s, []);
  }

  lemma {:induction false} RunStaysReachable(s: System, steps: seq<Step>)
    requires Reachable(s) && |s.commands.parts| > 0 && |s.events.parts| > 0
    ensures Reachable(Run(s, steps))
    decreases steps
  {
    hide Apply, Reachable;
    if steps != [] {
      StaysReachable(s, steps[0]);
      RunStaysReachable(Apply(s, steps[0]), steps[1..]);
    }
  }
}
