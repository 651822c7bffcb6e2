/**
  What booking tells the world about a rental: every message it sends is called for by an event of the
  booking's log, and every event that calls for one is told, once and in the log's order.
*/
module Announcements {
  import opened Tables
  import opened Domain
  import opened Relay
  import opened System
  import opened SagaSafety
  import B = Bookings
  import P = Payments
  import Saga

  // The message an event calls for, by the columns of the booking that never change.
  function CalledFor(b: Booking, e: Event): seq<B.Message> {
    var due := b.dailyPriceCents * (b.endDate - b.startDate);
    match e
    case BookingRequested => if b.mode == Instant then [B.AuthorizePaymentRequested(b.renterId, due)] else []
    case BookingRequestAccepted => [B.AuthorizePaymentRequested(b.renterId, due)]
    case BookingRejected => [B.LifecycleNotice(B.NoticeRejected, b.renterId, b.hostId, Rejected)]
    case BookingConfirmed => [B.LifecycleNotice(B.NoticeConfirmed, b.renterId, b.hostId, Confirmed)]
    case BookingCancelled => [B.LifecycleNotice(B.NoticeCancelled, b.renterId, b.hostId, Cancelled)]
    case BookingCompleted => [B.LifecycleNotice(B.NoticeCompleted, b.renterId, b.hostId, Completed)]
    case PaymentCaptureFailed => [B.LifecycleNotice(B.NoticeCaptureFailed, b.renterId, b.hostId, Active)]
    case ReturnRecorded(_, overage) => [B.CapturePaymentRequested(b.hostId, due, overage)]
    case HandoverRecorded(_) => []
    case PaymentAuthorized => []
    case PaymentAuthorizationFailed => []
    case PaymentCaptured => []
  }

  function Announced(b: Booking, log: seq<B.Stored>): seq<B.Message> {
    if log == [] then [] else Announced(b, log[..|log| - 1]) + CalledFor(b, log[|log| - 1].event)
  }

  ghost predicate Tells(v: Saga.Saga) {
    v.row.Some? ==> v.sent == Announced(v.row.value, v.log)
  }

  lemma AnnouncedGrows(b: Booking, log: seq<B.Stored>, x: B.Stored)
    ensures Announced(b, log + [x]) == Announced(b, log) + CalledFor(b, x.event)
  {
    assert (log + [x])[..|log|] == log;
  }

  lemma CalledForTerms(b: Booking, t: Booking, e: Event)
    requires Saga.AsCreated(t) == Saga.AsCreated(b)
    ensures CalledFor(t, e) == CalledFor(b, e)
  {
    var c, d := Saga.AsCreated(t), Saga.AsCreated(b);
    assert c.dailyPriceCents == t.dailyPriceCents && c.startDate == t.startDate && c.endDate == t.endDate;
    assert c.mode == t.mode && c.renterId == t.renterId && c.hostId == t.hostId;
  }

  lemma {:induction false} AnnouncedTerms(b: Booking, t: Booking, log: seq<B.Stored>)
    requires Saga.AsCreated(t) == Saga.AsCreated(b)
    ensures Announced(t, log) == Announced(b, log)
  {
    if log != [] {
      AnnouncedTerms(b, t, log[..|log| - 1]);
      CalledForTerms(b, t, log[|log| - 1].event);
    }
  }

  // A decision sends exactly what its events call for.
  lemma DecisionTells(b: Booking, c: B.Command)
    requires Allowed(b, c) && b.startDate < b.endDate
    ensures var es := Logs(b, c);
      && 1 <= |es| <= 2
      && Saga.Opt(B.MessageOf(Becomes(b, c), c))
           == CalledFor(b, es[0]) + (if |es| == 2 then CalledFor(b, es[1]) else [])
  {
  }

  lemma RunTells(v: Saga.Saga, b: Booking, c: B.Command)
    requires v.row == Some(b) && Allowed(b, c) && Tells(v) && b.startDate < b.endDate
    ensures Tells(Saga.Run(v, c).value)
  {
    hide Allowed, Becomes, Logs, CalledFor, B.MessageOf, B.Decide, Announced, Saga.AsCreated, Saga.Evolve;
    DecideByTable(b, c);
    DecisionTells(b, c);
    LogsMakeTheRow(b, c);
    AnnouncedMore(b, v.log, b.version, Logs(b, c));
    AnnouncedTerms(b, Becomes(b, c), v.log + B.Stamp(b.version, Logs(b, c)));
  }

  lemma AnnouncedMore(b: Booking, log: seq<B.Stored>, version: nat, es: seq<Event>)
    requires 1 <= |es| <= 2
    ensures Announced(b, log + B.Stamp(version, es))
      == Announced(b, log) + (CalledFor(b, es[0]) + (if |es| == 2 then CalledFor(b, es[1]) else []))
  {
    hide Announced, CalledFor;
    var stamped := B.Stamp(version, es);
    AnnouncedGrows(b, log, stamped[0]);
    if |es| == 1 {
      assert log + stamped == log + [stamped[0]];
    } else {
      AnnouncedGrows(b, log + [stamped[0]], stamped[1]);
      assert log + stamped == (log + [stamped[0]]) + [stamped[1]];
    }
  }

  lemma BeginTells(row: Booking)
    requires Saga.NewRow(row)
    ensures Tells(Saga.Begin(Saga.Nothing, row))
  {
    var v, x := Saga.Begin(Saga.Nothing, row), B.Stored(2, BookingRequested);
    assert v.log == [] + [x];
    AnnouncedGrows(v.row.value, [], x);
  }

  lemma DatesInOrder(v: Saga.Saga)
    requires Saga.Inv(v) && v.row.Some?
    ensures v.row.value.startDate < v.row.value.endDate
  {
    hide Saga.LogInv, Saga.SentInv, Saga.PaymentInv, Saga.StripeInv, Saga.HeardInv;
  }

  lemma NextTells(v: Saga.Saga, step: Saga.Step)
    requires Saga.Inv(v) && Tells(v)
    ensures Tells(Saga.Next(v, step))
  {
    hide Announced, P.Handle, P.Interrupted, B.Decide, Saga.NewRow;
    if v.row.None? {
      assert v == Saga.Nothing;
      if step.Create? && Saga.NewRow(step.row) { BeginTells(step.row); }
    } else {
      var b := v.row.value;
      DatesInOrder(v);
      match step {
        case Do(c) =>
          DecideByTable(b, c);
          if Saga.FromHost(c) && Allowed(b, c) { RunTells(v, b, c); }
        case Hear =>
          if v.heard < |v.events| {
            var c := B.ReactionTo(v.events[v.heard]);
            DecideByTable(b, c);
            if Allowed(b, c) { RunTells(v, b, c); }
          }
        case _ =>
      }
    }
  }

  ghost predicate AllTell(s: System) {
    forall b :: Tells(View(s, b))
  }

  lemma {:induction false} RunKeepsTelling(s: System, steps: seq<Step>)
    requires |s.commands.parts| > 0 && |s.events.parts| > 0 && RelayInv(s) && SagaInv(s) && AllTell(s)
    ensures AllTell(Run(s, steps))
    decreases steps
  {
    hide Apply, RelayInv, Saga.Inv, Saga.Next, Tells;
    if steps != [] {
      var s' := Apply(s, steps[0]);
      ApplyMovesOneSaga(s, steps[0]);
      SagaStepKeepsInv(s, s');
      var k, st :| Moves(s, s', k, st);
      assert Saga.Inv(View(s, k));
      NextTells(View(s, k), st);
      forall b ensures Tells(View(s', b)) {
        assert Tells(View(s, b));
        assert b != k ==> View(s', b) == View(s, b);
      }
      RunKeepsTelling(s', steps[1..]);
    }
  }

  // In every reachable state the messages sent for a booking are exactly those its log calls for, in the
  // log's order: holds and captures for the price of its days, and the notice of each turn it took.
  lemma MessagesFollowTheLog(s: System, b: Uuid)
    requires Reachable(s) && b in s.booking.rows
    ensures Sent(s.booking.outbox, b) == Announced(s.booking.rows[b], Of(s.booking.events, b))
  {
    hide Saga.Inv;
    var s0, steps :| Init(s0) && s == Run(s0, steps);
    InitIsReachable(s0);
    ReachableInv(s0);
    assert AllTell(s0);
    RunKeepsTelling(s0, steps);
    assert Tells(View(s, b));
  }
}
