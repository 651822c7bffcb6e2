/**
  The consumer loop (shared/kafka_consumer.py) over one partition: records are handled in offset order,
  a record whose event id is already in the inbox is skipped, an offset is committed only after its
  record, and a failing handler or a crash sends the consumer back to its committed offset.
*/
module Delivery {
  import opened Tables
  import opened Domain
  import opened Relay
  import opened Bookings
  import opened BookingService

  // ----- at least once, applied exactly once -----

  // `applied` lists the records whose handler took effect; `seen` is the furthest offset ever handled.
  datatype Consumer<T> = Consumer(position: nat, committed: nat, inbox: set<Uuid>, applied: seq<Msg<T>>, seen: nat)

  datatype Step = Handle(succeeds: bool) | CommitPosition | Crash

  function Apply<T>(log: seq<Msg<T>>, c: Consumer<T>, step: Step): Consumer<T> {
    match step
    case CommitPosition => c.(committed := c.position)
    case Crash => c.(position := c.committed)
    case Handle(succeeds) =>
      if c.position >= |log| then c
      else
        var m := log[c.position];
        var moved := c.(position := c.position + 1, seen := if c.position + 1 > c.seen then c.position + 1 else c.seen);
        if m.id in c.inbox then moved
        else if succeeds then moved.(inbox := c.inbox + {m.id}, applied := c.applied + [m])
        else c.(position := c.committed)
  }

  function Run<T>(log: seq<Msg<T>>, c: Consumer<T>, steps: seq<Step>): Consumer<T>
    decreases steps
  {
    if steps == [] then c else Run(log, Apply(log, c, steps[0]), steps[1..])
  }

  function Ids<T>(log: seq<Msg<T>>): set<Uuid> {
    set i | 0 <= i < |log| :: log[i].id
  }

  // The log without its repeats: each event id at its first occurrence.
  function FirstOccurrences<T>(log: seq<Msg<T>>): seq<Msg<T>> {
    if log == [] then []
    else
      var init, m := log[..|log| - 1], log[|log| - 1];
      FirstOccurrences(init) + if m.id in Ids(init) then [] else [m]
  }

  ghost predicate Inv<T>(log: seq<Msg<T>>, c: Consumer<T>) {
    && c.committed <= c.position <= c.seen <= |log|
    && c.inbox == Ids(log[..c.seen])
    && c.applied == FirstOccurrences(log[..c.seen])
  }

  lemma ApplyKeepsInv<T>(log: seq<Msg<T>>, c: Consumer<T>, step: Step)
    requires Inv(log, c)
    ensures Inv(log, Apply(log, c, step))
  {
    if step.Handle? && c.position < |log| {
      var m, before := log[c.position], log[..c.seen];
      if c.position < c.seen {
        assert before[c.position] == m;
      } else {
        var now := log[..c.seen + 1];
        assert now[..|now| - 1] == before && now[|now| - 1] == m;
        assert Ids(now) == Ids(before) + {m.id} by {
          forall x | x in Ids(before) + {m.id} ensures x in Ids(now) {
            if x == m.id {
              assert now[c.seen].id == x;
            } else {
              var i :| 0 <= i < |before| && before[i].id == x;
              assert now[i].id == x;
            }
          }
        }
      }
    }
  }

  lemma {:induction false} RunKeepsInv<T>(log: seq<Msg<T>>, c: Consumer<T>, steps: seq<Step>)
    requires Inv(log, c)
    ensures Inv(log, Run(log, c, steps))
    decreases steps
  {
    if steps != [] {
      ApplyKeepsInv(log, c, steps[0]);
      RunKeepsInv(log, Apply(log, c, steps[0]), steps[1..]);
    }
  }

  lemma {:induction false} FirstOccurrencesPrefix<T>(log: seq<Msg<T>>, n: nat)
    requires n <= |log|
    ensures FirstOccurrences(log[..n]) <= FirstOccurrences(log)
  {
    if n < |log| {
      FirstOccurrencesPrefix(log[..|log| - 1], n);
      assert log[..|log| - 1][..n] == log[..n];
    } else {
      assert log[..n] == log;
    }
  }

  lemma {:induction false} OnlyCommitsCommit<T>(log: seq<Msg<T>>, c: Consumer<T>, steps: seq<Step>)
    requires forall i | 0 <= i < |steps| :: !steps[i].CommitPosition?
    ensures Run(log, c, steps).committed == c.committed
    decreases steps
  {
    if steps != [] {
      OnlyCommitsCommit(log, Apply(log, c, steps[0]), steps[1..]);
    }
  }

  // Whatever was handled since the last commit, a crash sends the consumer back to exactly where it
  // committed.
  lemma CrashReturnsToCommit<T>(log: seq<Msg<T>>, c: Consumer<T>, steps: seq<Step>)
    requires forall i | 0 <= i < |steps| :: !steps[i].CommitPosition?
    ensures Apply(log, Run(log, Apply(log, c, CommitPosition), steps), Crash).position == c.position
  {
    OnlyCommitsCommit(log, Apply(log, c, CommitPosition), steps);
  }

  lemma AppliedIsPrefix<T>(log: seq<Msg<T>>, c: Consumer<T>)
    requires Inv(log, c)
    ensures c.applied <= FirstOccurrences(log) && (c.position == |log| ==> c.applied == FirstOccurrences(log))
    ensures c.committed <= c.position <= |log| && FirstOccurrences(log[..c.committed]) <= c.applied
  {
    hide FirstOccurrences, Ids;
    FirstOccurrencesPrefix(log, c.seen);
    assert log[..|log|] == log;
    FirstOccurrencesPrefix(log[..c.seen], c.committed);
    assert log[..c.seen][..c.committed] == log[..c.committed];
  }

  // For any log and any schedule of deliveries, failures, commits and crashes, the handlers that took
  // effect are a prefix of the log's first occurrences, in order and once each, so nothing is applied
  // past a record that keeps failing; everything before the committed offset has been applied, and a
  // consumer at the end of the log has applied it all.
  lemma AtLeastOnceRefinesExactlyOnce<T>(log: seq<Msg<T>>, steps: seq<Step>)
    ensures var c := Run(log, Consumer(0, 0, {}, [], 0), steps);
      && c.applied <= FirstOccurrences(log)
      && (c.position == |log| ==> c.applied == FirstOccurrences(log))
      && c.committed <= |log| && FirstOccurrences(log[..c.committed]) <= c.applied
  {
    var c := Run(log, Consumer(0, 0, {}, [], 0), steps);
    assert log[..0] == [];
    RunKeepsInv(log, Consumer(0, 0, {}, [], 0), steps);
    AppliedIsPrefix(log, c);
  }

  // ----- in the booking service -----

  // The tables after handling `records` in order, each in its own transaction; `ids[i]` is the random
  // id drawn while handling the i-th.
  function Received(db: BookingDb, records: seq<Msg<PaymentEvent>>, ids: seq<Uuid>): Result<BookingDb, Error>
    requires |ids| == |records|
  {
    if records == [] then Ok(db)
    else
      var n := |records| - 1;
      match Received(db, records[..n], ids[..n])
      case Err(e) => Err(e)
      case Ok(d) => ReceivePaymentEvent(d, records[n], ids[n])
  }

  // ----- any schedule, on the booking tables -----

  // The consumer with the tables its handlers work on.
  datatype Reader = Reader(position: nat, committed: nat, db: BookingDb)

  // A delivery draws a random id for what the handler sends; whether it succeeds is up to the tables.
  datatype Delivery = Deliver(id: Uuid) | CommitOffset | Die

  function Deliveries(log: seq<Msg<PaymentEvent>>, t: Reader, steps: seq<Delivery>): Reader
    decreases steps
  {
    if steps == [] then t else Deliveries(log, Delivered(log, t, steps[0]), steps[1..])
  }

  function Delivered(log: seq<Msg<PaymentEvent>>, t: Reader, step: Delivery): Reader {
    match step
    case CommitOffset => t.(committed := t.position)
    case Die => t.(position := t.committed)
    case Deliver(id) =>
      if t.position >= |log| then t
      else
        match ReceivePaymentEvent(t.db, log[t.position], id)
        case Ok(db) => t.(position := t.position + 1, db := db)
        case Err(_) => t.(position := t.committed)
  }

  // The tables are those of handling what `c` says was applied, once each, with these drawn ids.
  ghost predicate Tracks(db0: BookingDb, t: Reader, c: Consumer<PaymentEvent>, ids: seq<Uuid>) {
    && t.position == c.position && t.committed == c.committed && t.db.inbox == db0.inbox + c.inbox
    && |ids| == |c.applied| && Received(db0, c.applied, ids) == Ok(t.db)
  }

  // The abstract step a delivery is, given the tables.
  function StepOf(log: seq<Msg<PaymentEvent>>, t: Reader, step: Delivery): Step {
    match step
    case CommitOffset => CommitPosition
    case Die => Crash
    case Deliver(id) => Handle(t.position < |log| && ReceivePaymentEvent(t.db, log[t.position], id).Ok?)
  }

  lemma DeliveryTracks(db0: BookingDb, log: seq<Msg<PaymentEvent>>, t: Reader, c: Consumer<PaymentEvent>,
                       ids: seq<Uuid>, step: Delivery)
    returns (ids': seq<Uuid>)
    requires Tracks(db0, t, c, ids) && db0.inbox !! Ids(log)
    ensures Tracks(db0, Delivered(log, t, step), Apply(log, c, StepOf(log, t, step)), ids')
  {
    hide Execute;
    ids' := ids;
    if step.Deliver? && t.position < |log| {
      var m := log[t.position];
      assert m.id in Ids(log);
      var r := ReceivePaymentEvent(t.db, m, step.id);
      if m.id !in c.inbox && r.Ok? {
        ClaimedByExecute(t.db.(inbox := t.db.inbox + {m.id}), m.key, ReactionTo(m.body), step.id);
        ids' := ids + [step.id];
        assert (c.applied + [m])[..|c.applied|] == c.applied && ids'[..|c.applied|] == ids;
        assert r.value.inbox == db0.inbox + (c.inbox + {m.id});
      }
    }
  }

  lemma ClaimedByExecute(db: BookingDb, b: Uuid, c: Command, id: Uuid)
    requires Execute(db, b, c, id).Ok?
    ensures Execute(db, b, c, id).value.inbox == db.inbox
  {
  }

  lemma {:induction false} DeliveriesTrack(db0: BookingDb, log: seq<Msg<PaymentEvent>>, t: Reader,
                                           c: Consumer<PaymentEvent>,
                                           ids: seq<Uuid>, steps: seq<Delivery>)
    returns (c': Consumer<PaymentEvent>, ids': seq<Uuid>)
    requires Tracks(db0, t, c, ids) && Inv(log, c) && db0.inbox !! Ids(log)
    ensures Tracks(db0, Deliveries(log, t, steps), c', ids') && Inv(log, c')
    decreases steps
  {
    hide Tracks, Inv, Apply, Delivered;
    if steps == [] {
      c', ids' := c, ids;
    } else {
      var drawn := DeliveryTracks(db0, log, t, c, ids, steps[0]);
      ApplyKeepsInv(log, c, StepOf(log, t, steps[0]));
      c', ids' :=
        DeliveriesTrack(db0, log, Delivered(log, t, steps[0]), Apply(log, c, StepOf(log, t, steps[0])), drawn,
          steps[1..]);
    }
  }

  lemma NothingHandled(db0: BookingDb, log: seq<Msg<PaymentEvent>>, c: Consumer<PaymentEvent>)
    requires c == Consumer(0, 0, {}, [], 0)
    ensures Tracks(db0, Reader(0, 0, db0), c, []) && Inv(log, c)
  {
    assert log[..0] == [];
  }

  // After any schedule of deliveries, failing handlers, offset commits and crashes, the booking tables are
  // exactly those of handling the first `n` distinct events of the log, once each and in order; at the end
  // of the log, all of them.
  lemma TablesAfterAnySchedule(db0: BookingDb, log: seq<Msg<PaymentEvent>>, steps: seq<Delivery>)
    returns (n: nat, ids: seq<Uuid>)
    requires db0.inbox !! Ids(log)
    ensures n <= |FirstOccurrences(log)| && |ids| == n
    ensures var t := Deliveries(log, Reader(0, 0, db0), steps);
      && Received(db0, FirstOccurrences(log)[..n], ids) == Ok(t.db)
      && (t.position >= |log| ==> n == |FirstOccurrences(log)|)
      && t.committed <= |log| && |FirstOccurrences(log[..t.committed])| <= n
  {
    hide Received, FirstOccurrences, Inv;
    var c0: Consumer<PaymentEvent> := Consumer(0, 0, {}, [], 0);
    NothingHandled(db0, log, c0);
    var c, drawn := DeliveriesTrack(db0, log, Reader(0, 0, db0), c0, [], steps);
    n, ids := |c.applied|, drawn;
    AppliedIsPrefix(log, c);
    assert FirstOccurrences(log)[..n] == c.applied;
  }

  // ----- the loop itself -----

  // Reads from `start` and commits each offset after its record. It stops at the end of the log, or at
  // the first record whose handler raises, leaving that record's offset uncommitted.
  method RunConsumer(db: BookingDb, log: seq<Msg<PaymentEvent>>, start: nat, ids: seq<Uuid>)
    returns (db': BookingDb, committed: nat, r: Result<(), Error>)
    requires start <= |log| && |ids| == |log|
    ensures start <= committed <= |log|
    ensures Received(db, log[start..committed], ids[start..committed]) == Ok(db')
    ensures r.Ok? ==> committed == |log|
    ensures r.Err? ==> committed < |log| && ReceivePaymentEvent(db', log[committed], ids[committed]) == Err(r.error)
  {
    db', committed, r := db, start, Ok(());
    while committed < |log|
      invariant start <= committed <= |log| && r == Ok(())
      invariant Received(db, log[start..committed], ids[start..committed]) == Ok(db')
    {
      ghost var records, drawn := log[start..committed + 1], ids[start..committed + 1];
      assert records[..|records| - 1] == log[start..committed] && drawn[..|records| - 1] == ids[start..committed];
      db', r := ProcessPaymentEvent(db', log[committed], ids[committed]);
      if r.Err? { return; }
      committed := committed + 1;
    }
  }

  lemma {:induction false} ReceivedIsClaimed(db: BookingDb, records: seq<Msg<PaymentEvent>>, ids: seq<Uuid>)
    requires |ids| == |records| && Received(db, records, ids).Ok?
    ensures db.inbox <= Received(db, records, ids).value.inbox
    ensures forall m | m in records :: m.id in Received(db, records, ids).value.inbox
  {
    if records != [] {
      var n := |records| - 1;
      ReceivedIsClaimed(db, records[..n], ids[..n]);
      assert records == records[..n] + [records[n]];
    }
  }

  lemma {:induction false} ClaimedIsSkipped(db: BookingDb, records: seq<Msg<PaymentEvent>>, ids: seq<Uuid>)
    requires |ids| == |records| && forall m | m in records :: m.id in db.inbox
    ensures Received(db, records, ids) == Ok(db)
  {
    if records != [] {
      ClaimedIsSkipped(db, records[..|records| - 1], ids[..|records| - 1]);
    }
  }

  // Whatever part of a handled log is delivered again, from whatever offset, changes nothing.
  lemma RedeliveryChangesNothing(db: BookingDb, log: seq<Msg<PaymentEvent>>, ids: seq<Uuid>, from: nat,
                                 again: seq<Uuid>)
    requires |ids| == |log| && Received(db, log, ids).Ok? && from <= |log| && |again| == |log| - from
    ensures Received(Received(db, log, ids).value, log[from..], again) == Received(db, log, ids)
  {
    ReceivedIsClaimed(db, log, ids);
    ClaimedIsSkipped(Received(db, log, ids).value, log[from..], again);
  }
}
