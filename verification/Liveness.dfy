/**
  When the services alone can bring the system to rest. Each step of connectors, consumers and handlers
  makes progress, so from any reachable state they can reach one where everything sent has been handled,
  unless some booking was rejected after its payment had been requested; and then no run ever does.
*/
module Liveness {
  import opened Tables
  import opened Domain
  import opened Relay
  import opened System
  import opened SagaFacts
  import Guarantees
  import SagaSafety
  import B = Bookings
  import P = Payments
  import Saga

  // ----- counting -----

  lemma {:induction false} InboxFits<T>(outbox: seq<Msg<T>>, inbox: set<Uuid>)
    requires forall x | x in inbox :: Used(outbox, x)
    ensures |inbox| <= |outbox|
  {
    if outbox == [] {
      assert inbox == {} by { if x :| x in inbox { assert false; } }
    } else {
      var init, last := outbox[..|outbox| - 1], outbox[|outbox| - 1].id;
      forall x | x in inbox - {last} ensures Used(init, x) {
        var j :| 0 <= j < |outbox| && outbox[j].id == x;
        assert init[j] == outbox[j];
      }
      InboxFits(init, inbox - {last});
    }
  }

  function Without<T>(outbox: seq<Msg<T>>, k: Uuid): seq<Msg<T>> {
    if outbox == [] then []
    else
      var m := outbox[|outbox| - 1];
      Without(outbox[..|outbox| - 1], k) + if m.key == k then [] else [m]
  }

  lemma {:induction false} WithoutSplits<T>(outbox: seq<Msg<T>>, k: Uuid)
    ensures |outbox| == |Sent(outbox, k)| + |Without(outbox, k)|
    ensures forall b | b != k :: Sent(Without(outbox, k), b) == Sent(outbox, b)
    ensures forall j | 0 <= j < |Without(outbox, k)| ::
      Without(outbox, k)[j].key != k && Without(outbox, k)[j] in outbox
  {
    if outbox != [] {
      var init, m := outbox[..|outbox| - 1], outbox[|outbox| - 1];
      WithoutSplits(init, k);
      if m.key != k {
        assert Without(outbox, k)[..|Without(init, k)|] == Without(init, k);
      } else {
        assert Without(outbox, k) == Without(init, k);
        assert forall b | b != k :: Sent(outbox, b) == Sent(init, b);
      }
    }
  }

  lemma {:induction false} BoundedByKeys<T>(outbox: seq<Msg<T>>, keys: set<Uuid>)
    requires forall j | 0 <= j < |outbox| :: outbox[j].key in keys
    requires forall b | b in keys :: |Sent(outbox, b)| <= 2
    ensures |outbox| <= 2 * |keys|
    decreases keys
  {
    if keys == {} {
      assert outbox == [];
    } else {
      var k :| k in keys;
      WithoutSplits(outbox, k);
      BoundedByKeys(Without(outbox, k), keys - {k});
    }
  }

  function FreshId<T>(outbox: seq<Msg<T>>): (id: Uuid)
    ensures forall j | 0 <= j < |outbox| :: outbox[j].id < id
  {
    if outbox == [] then 0
    else
      var id, last := FreshId(outbox[..|outbox| - 1]), outbox[|outbox| - 1].id;
      if last < id then id else last + 1
  }

  function Unread<T>(parts: seq<Partition<T>>): int {
    if parts == [] then 0
    else
      var p := parts[|parts| - 1];
      Unread(parts[..|parts| - 1]) + |p.log| - p.position
  }

  lemma {:induction false} UnreadUpdate<T>(parts: seq<Partition<T>>, q: nat, p: Partition<T>)
    requires q < |parts|
    ensures Unread(parts[q := p]) == Unread(parts) - (|parts[q].log| - parts[q].position) + (|p.log| - p.position)
  {
    var n := |parts| - 1;
    if q < n {
      assert parts[q := p][..n] == parts[..n][q := p];
      UnreadUpdate(parts[..n], q, p);
    } else {
      assert parts[q := p][..n] == parts[..n];
    }
  }

  lemma {:induction false} UnreadNonNegative<T>(parts: seq<Partition<T>>)
    requires forall q | 0 <= q < |parts| :: parts[q].position <= |parts[q].log|
    ensures Unread(parts) >= 0
  {
    if parts != [] {
      UnreadNonNegative(parts[..|parts| - 1]);
    }
  }

  // ----- sagas that can settle -----

  predicate CalmSaga(v: Saga.Saga) {
    v.row.Some? ==> v.row.value.dailyPriceCents > 0 && (v.row.value.status == Rejected ==> !Saga.HasAuthorize(v.sent))
  }

  ghost predicate Calm(s: System) {
    RelayInv(s) && SagaInv(s) && forall b :: CalmSaga(View(s, b))
  }

  lemma EventsMeanRequested(v: Saga.Saga)
    requires Saga.Inv(v) && v.events != []
    ensures v.row.Some? && v.pay.Some? && Saga.HasAuthorize(v.sent) && |v.events| <= 2
  {
    hide Saga.LogInv, Saga.ReadingInv, Saga.SentInv, Saga.HeardInv, Saga.StripeInv;
    AuthorizeTaken(v.sent, v.taken);
  }

  lemma HearKeepsCalm(v: Saga.Saga)
    requires Saga.Inv(v) && CalmSaga(v) && v.heard < |v.events|
    ensures CalmSaga(Saga.Next(v, Saga.Hear))
  {
    hide Saga.Inv;
    EventsMeanRequested(v);
    SagaSafety.DecideByTable(v.row.value, B.ReactionTo(v.events[v.heard]));
  }

  // ----- one step of progress -----

  // How far the system is from rest: events to hear, commands to take, rows to ship, records to read.
  ghost function ToHear(s: System): int { 2 * |s.booking.rows| - |s.booking.inbox| }
  ghost function ToTake(s: System): int { |s.booking.outbox| - |s.payment.inbox| }
  ghost function ToShip(s: System): int { |s.booking.outbox| - s.commands.cursor }
  ghost function ToShipBack(s: System): int { |s.payment.outbox| - s.events.cursor }
  ghost function ToRead(s: System): int { Unread(s.commands.parts) + Unread(s.events.parts) }

  // Steps of the services left at most: hearing an event can send a message, taking a message can send an
  // event, and both must be shipped and read.
  ghost function Work(s: System): int {
    6 * ToHear(s) + 3 * ToTake(s) + 2 * ToShip(s) + 2 * ToShipBack(s) + ToRead(s)
  }

  lemma MeasuresBounded(s: System)
    requires RelayInv(s) && SagaInv(s)
    ensures ToHear(s) >= 0 && ToTake(s) >= 0 && ToShip(s) >= 0 && ToShipBack(s) >= 0 && ToRead(s) >= 0
  {
    hide Saga.Inv;
    InboxFits(s.booking.outbox, s.payment.inbox);
    InboxFits(s.payment.outbox, s.booking.inbox);
    UnreadNonNegative(s.commands.parts);
    UnreadNonNegative(s.events.parts);
    forall j | 0 <= j < |s.payment.outbox| ensures s.payment.outbox[j].key in s.booking.rows {
      Guarantees.SentMember(s.payment.outbox, j);
      assert Saga.Inv(View(s, s.payment.outbox[j].key));
      EventsMeanRequested(View(s, s.payment.outbox[j].key));
    }
    forall b | b in s.booking.rows.Keys ensures |Sent(s.payment.outbox, b)| <= 2 {
      assert Saga.Inv(View(s, b));
      if Sent(s.payment.outbox, b) != [] { EventsMeanRequested(View(s, b)); }
    }
    BoundedByKeys(s.payment.outbox, s.booking.rows.Keys);
  }

  predicate ByServices(step: Step) {
    step.ShipCommand? || step.ShipEvent? || step.PaymentConsumes? || step.BookingConsumes?
  }

  // Only the services act, and Stripe answers the handler of step i as `verdicts` says.
  predicate Unaided(steps: seq<Step>, verdicts: nat -> P.Verdicts) {
    forall i | 0 <= i < |steps| ::
      ByServices(steps[i]) && (steps[i].PaymentConsumes? ==> steps[i].verdicts == verdicts(i))
  }

  lemma PaymentReadAdvances(s: System, q: nat, v: P.Verdicts, id: Uuid)
    requires Calm(s) && HasNext(s.commands, q) && !Used(s.payment.outbox, id)
    ensures var t := PaymentReads(s, q, v, id); Calm(t) && Work(t) < Work(s)
  {
    hide Relay.Inv, Saga.Inv, P.Handle, Saga.HasAuthorize;
    var t := PaymentReads(s, q, v, id);
    var m := Next(s.commands, q);
    PaymentReadsMoves(s, q, v, id);
    SagaStepKeepsInv(s, t);
    forall b ensures CalmSaga(View(t, b)) {
      assert CalmSaga(View(s, b));
    }
    if m.id !in s.payment.inbox { HandlerSucceeds(s, q, v, id); }
    UnreadUpdate(s.commands.parts, q, Advance(s.commands, q).parts[q]);
  }

  lemma HandlerSucceeds(s: System, q: nat, v: P.Verdicts, id: Uuid)
    requires Calm(s) && HasNext(s.commands, q) && Next(s.commands, q).id !in s.payment.inbox
      && !Used(s.payment.outbox, id)
    ensures P.ReceiveMessage(s.payment, s.stripe, Next(s.commands, q), v, id).1.Ok?
  {
    hide Relay.Inv, Saga.Inv;
    var m := Next(s.commands, q);
    ConsumeTakesNext(s.booking.outbox, s.commands, s.payment.inbox, q);
    var w := View(s, m.key);
    assert Saga.Inv(w) && CalmSaga(w);
    SentMeansRow(w);
    OnlyFreeBookingsFail(w, w.row.value, v);
  }

  lemma SentMeansRow(v: Saga.Saga)
    requires Saga.Inv(v) && v.sent != []
    ensures v.row.Some?
  {
  }

  lemma BookingReadKeepsCalm(s: System, q: nat, id: Uuid)
    requires Calm(s) && HasNext(s.events, q) && !Used(s.booking.outbox, id)
    ensures Calm(BookingReads(s, q, id))
  {
    hide Relay.Inv, Saga.Inv, B.Execute, Saga.HasAuthorize, Saga.Next;
    var t := BookingReads(s, q, id);
    var m := Next(s.events, q);
    BookingReadsMoves(s, q, id);
    SagaStepKeepsInv(s, t);
    if m.id !in s.booking.inbox {
      ConsumeTakesNext(s.payment.outbox, s.events, s.booking.inbox, q);
      ReactionSucceeds(s, q, id);
      assert Saga.Inv(View(s, m.key)) && CalmSaga(View(s, m.key));
      HearKeepsCalm(View(s, m.key));
    }
    forall b ensures CalmSaga(View(t, b)) {
      assert CalmSaga(View(s, b));
    }
  }

  lemma BookingReadAdvances(s: System, q: nat, id: Uuid)
    requires Calm(s) && HasNext(s.events, q) && !Used(s.booking.outbox, id)
    ensures var t := BookingReads(s, q, id); Calm(t) && Work(t) < Work(s)
  {
    hide Calm, B.Execute;
    BookingReadKeepsCalm(s, q, id);
    UnreadUpdate(s.events.parts, q, Advance(s.events, q).parts[q]);
    if Next(s.events, q).id !in s.booking.inbox { ReactionSucceeds(s, q, id); }
  }

  lemma ReactionSucceeds(s: System, q: nat, id: Uuid)
    requires Calm(s) && HasNext(s.events, q) && Next(s.events, q).id !in s.booking.inbox && !Used(s.booking.outbox, id)
    ensures var m, r := Next(s.events, q), B.ReceivePaymentEvent(s.booking, Next(s.events, q), id);
      r.Ok? && r.value.rows.Keys == s.booking.rows.Keys && r.value.inbox == s.booking.inbox + {m.id}
      && |r.value.outbox| <= |s.booking.outbox| + 1
  {
    hide Relay.Inv, Saga.Inv;
    var m := Next(s.events, q);
    ConsumeTakesNext(s.payment.outbox, s.events, s.booking.inbox, q);
    var w := View(s, m.key);
    assert Saga.Inv(w) && CalmSaga(w);
    EventsMeanRequested(w);
    PendingEventAccepted(w, w.row.value);
    Guarantees.VersionsBounded(s, m.key);
  }

  lemma ShipOneMore<T>(link: Link<T>, outbox: seq<Msg<T>>)
    requires |link.parts| > 0 && link.cursor < |outbox|
    ensures Ship(link, outbox).cursor == link.cursor + 1 && Unread(Ship(link, outbox).parts) == Unread(link.parts) + 1
  {
    var h := Home(link, outbox[link.cursor].key);
    UnreadUpdate(link.parts, h, link.parts[h].(log := link.parts[h].log + [outbox[link.cursor]]));
  }

  lemma ShipCommandAdvances(s: System)
    requires Calm(s) && s.commands.cursor < |s.booking.outbox|
    ensures Calm(Apply(s, ShipCommand)) && Work(Apply(s, ShipCommand)) < Work(s)
  {
    hide Saga.Inv, Saga.HasAuthorize, Relay.Inv;
    TransportKeepsInv(s, ShipCommand);
    var t := Apply(s, ShipCommand);
    ShipOneMore(s.commands, s.booking.outbox);
    forall b ensures View(t, b) == View(s, b) {}
  }

  lemma ShipEventAdvances(s: System)
    requires Calm(s) && s.events.cursor < |s.payment.outbox|
    ensures Calm(Apply(s, ShipEvent)) && Work(Apply(s, ShipEvent)) < Work(s)
  {
    hide Saga.Inv, Saga.HasAuthorize, Relay.Inv;
    TransportKeepsInv(s, ShipEvent);
    var t := Apply(s, ShipEvent);
    ShipOneMore(s.events, s.payment.outbox);
    forall b ensures View(t, b) == View(s, b) {}
  }

  // A step a service can take: a row to ship, or a record to read with a fresh id for what it sends.
  ghost predicate Enabled(s: System, step: Step) {
    match step
    case ShipCommand => s.commands.cursor < |s.booking.outbox|
    case ShipEvent => s.events.cursor < |s.payment.outbox|
    case PaymentConsumes(q, _, id) => HasNext(s.commands, q) && !Used(s.payment.outbox, id)
    case BookingConsumes(q, id) => HasNext(s.events, q) && !Used(s.booking.outbox, id)
    case _ => false
  }

  // Whatever the services do next, and whatever Stripe answers, less is left to do.
  lemma EnabledAdvances(s: System, step: Step)
    requires Calm(s) && Enabled(s, step) && |s.commands.parts| > 0 && |s.events.parts| > 0
    ensures Calm(Apply(s, step)) && Work(Apply(s, step)) < Work(s)
  {
    hide Calm, Work, Relay.Inv, PaymentReads, BookingReads, Ship;
    match step {
      case ShipCommand => ShipCommandAdvances(s);
      case ShipEvent => ShipEventAdvances(s);
      case PaymentConsumes(q, v, id) => PaymentReadAdvances(s, q, v, id);
      case BookingConsumes(q, id) => BookingReadAdvances(s, q, id);
    }
  }

  // A calm system the services can do nothing more in is at rest.
  lemma SomethingEnabled(s: System, v: P.Verdicts) returns (step: Option<Step>)
    requires Calm(s)
    ensures step.None? ==> Guarantees.Quiescent(s)
    ensures step.Some? ==> Enabled(s, step.value) && (step.value.PaymentConsumes? ==> step.value.verdicts == v)
  {
    hide Calm, Guarantees.Quiescent;
    if s.commands.cursor < |s.booking.outbox| {
      step := Some(ShipCommand);
    } else if s.events.cursor < |s.payment.outbox| {
      step := Some(ShipEvent);
    } else if q :| 0 <= q < |s.commands.parts| && HasNext(s.commands, q) {
      step := Some(PaymentConsumes(q, v, FreshId(s.payment.outbox)));
    } else if q :| 0 <= q < |s.events.parts| && HasNext(s.events, q) {
      step := Some(BookingConsumes(q, FreshId(s.booking.outbox)));
    } else {
      AtRest(s);
      step := None;
    }
  }

  // Every step of the run is one the services can take where it is taken.
  ghost predicate EnabledRun(s: System, steps: seq<Step>)
    requires |s.commands.parts| > 0 && |s.events.parts| > 0
    decreases steps
  {
    steps == [] || (Enabled(s, steps[0]) && EnabledRun(Apply(s, steps[0]), steps[1..]))
  }

  // In whatever order the services work, and whatever Stripe answers, a calm system comes to rest after
  // a bounded number of steps: no such run is longer than the work there is, and one that cannot go on
  // has reached rest.
  lemma {:induction false} EveryScheduleReachesRest(s: System, steps: seq<Step>)
    requires Calm(s) && |s.commands.parts| > 0 && |s.events.parts| > 0 && EnabledRun(s, steps)
    ensures Calm(Run(s, steps)) && |steps| + Work(Run(s, steps)) <= Work(s) && Work(Run(s, steps)) >= 0
    ensures (forall step :: !Enabled(Run(s, steps), step)) ==> Guarantees.Quiescent(Run(s, steps))
    decreases steps
  {
    hide Calm, Work, Apply, Enabled, Guarantees.Quiescent;
    if steps == [] {
      WorkOfCalm(s);
      var step := SomethingEnabled(s, P.Verdicts(P.RequestLost, P.RequestLost));
    } else {
      EnabledAdvances(s, steps[0]);
      EveryScheduleReachesRest(Apply(s, steps[0]), steps[1..]);
    }
  }

  lemma {:induction false} RestIsReachable(s: System, verdicts: nat -> P.Verdicts) returns (steps: seq<Step>)
    requires Calm(s) && |s.commands.parts| > 0 && |s.events.parts| > 0
    ensures Unaided(steps, verdicts) && Guarantees.Quiescent(Run(s, steps))
    decreases Work(s)
  {
    hide Calm, Work, Apply, Guarantees.Quiescent;
    var next := SomethingEnabled(s, verdicts(0));
    if next.None? {
      steps := [];
    } else {
      var t := Apply(s, next.value);
      EnabledAdvances(s, next.value);
      WorkOfCalm(s);
      WorkOfCalm(t);
      var rest := RestIsReachable(t, (n: nat) => verdicts(n + 1));
      steps := [next.value] + rest;
      assert steps[1..] == rest;
      UnaidedFrom(next.value, rest, verdicts);
    }
  }

  lemma UnaidedFrom(step: Step, rest: seq<Step>, verdicts: nat -> P.Verdicts)
    requires ByServices(step) && (step.PaymentConsumes? ==> step.verdicts == verdicts(0))
      && Unaided(rest, (n: nat) => verdicts(n + 1))
    ensures Unaided([step] + rest, verdicts)
  {
    var steps := [step] + rest;
    forall i | 0 <= i < |steps|
      ensures ByServices(steps[i]) && (steps[i].PaymentConsumes? ==> steps[i].verdicts == verdicts(i))
    {
      if i > 0 { assert steps[i] == rest[i - 1]; }
    }
  }

  lemma WorkOfCalm(s: System)
    requires Calm(s)
    ensures Work(s) >= 0
  {
    hide Relay.Inv, Saga.Inv;
    MeasuresBounded(s);
  }

  lemma AtRest(s: System)
    requires Calm(s) && s.commands.cursor >= |s.booking.outbox| && s.events.cursor >= |s.payment.outbox|
    requires forall q | 0 <= q < |s.commands.parts| :: !HasNext(s.commands, q)
    requires forall q | 0 <= q < |s.events.parts| :: !HasNext(s.events, q)
    ensures Guarantees.Quiescent(s)
  {
    hide Saga.Inv, Saga.HasAuthorize;
    forall q | 0 <= q < |s.commands.parts| ensures s.commands.parts[q].position == |s.commands.parts[q].log| {
      assert !HasNext(s.commands, q);
    }
    forall q | 0 <= q < |s.events.parts| ensures s.events.parts[q].position == |s.events.parts[q].log| {
      assert !HasNext(s.events, q);
    }
    NothingIsLost(s.booking.outbox, s.commands, s.payment.inbox);
    NothingIsLost(s.payment.outbox, s.events, s.booking.inbox);
  }

  // ----- and exactly when it is -----

  lemma RejectedAfterRequest(s: System, b: Uuid, steps: seq<Step>)
    requires Reachable(s) && b in s.booking.rows && s.booking.rows[b].status == Rejected
    requires Saga.HasAuthorize(Sent(s.booking.outbox, b))
    ensures !Guarantees.Quiescent(Run(s, steps))
  {
    hide Reachable, Apply, Run, Saga.Inv, Saga.HasAuthorize, Relay.Inv;
    ReachableInv(s);
    Guarantees.RunPersistsViews(s, steps, b);
    RunKeepsInv(s, steps);
    var t := Run(s, steps);
    if Guarantees.Quiescent(t) {
      AllTaken(t.booking.outbox, t.payment.inbox, b);
      AllTaken(t.payment.outbox, t.booking.inbox, b);
      assert Saga.Inv(View(t, b));
      AuthorizeStays(View(s, b).sent, View(t, b).sent);
      DrainedAgreement(View(t, b), t.booking.rows[b]);
      RequestedMeansPaid(View(t, b));
    }
  }

  lemma AuthorizeStays(a: seq<B.Message>, c: seq<B.Message>)
    requires a <= c && Saga.HasAuthorize(a)
    ensures Saga.HasAuthorize(c)
  {
    assert c[..|a|] == a;
    AuthorizeTaken(c, |a|);
  }

  lemma RequestedMeansPaid(v: Saga.Saga)
    requires Saga.Inv(v) && v.row.Some? && v.taken == |v.sent| && Saga.HasAuthorize(v.sent)
    ensures v.pay.Some?
  {
    assert v.sent[..v.taken] == v.sent;
  }

  // The services can reach rest by themselves, whatever Stripe answers, exactly when no booking was
  // rejected after its payment was requested; otherwise no run at all reaches rest.
  lemma RestExactlyWithoutLateRejection(s: System, verdicts: nat -> P.Verdicts)
    requires Reachable(s) && forall b | b in s.booking.rows :: s.booking.rows[b].dailyPriceCents > 0
    ensures (exists steps :: Unaided(steps, verdicts) && Guarantees.Quiescent(Run(s, steps)))
      <==> forall b | b in s.booking.rows && s.booking.rows[b].status == Rejected ::
             !Saga.HasAuthorize(Sent(s.booking.outbox, b))
    ensures (exists steps :: Guarantees.Quiescent(Run(s, steps)))
      ==> forall b | b in s.booking.rows && s.booking.rows[b].status == Rejected ::
             !Saga.HasAuthorize(Sent(s.booking.outbox, b))
  {
    hide Reachable, Apply, Run, Saga.Inv, Saga.HasAuthorize, Relay.Inv;
    ReachableInv(s);
    if forall b | b in s.booking.rows && s.booking.rows[b].status == Rejected ::
      !Saga.HasAuthorize(Sent(s.booking.outbox, b))
    {
      forall b ensures CalmSaga(View(s, b)) {}
      var steps := RestIsReachable(s, verdicts);
    } else {
      var b :| b in s.booking.rows && s.booking.rows[b].status == Rejected
        && Saga.HasAuthorize(Sent(s.booking.outbox, b));
      forall steps ensures !Guarantees.Quiescent(Run(s, steps)) {
        RejectedAfterRequest(s, b, steps);
      }
    }
  }
}
