/**
  The idempotency guard of the mutating endpoints (shared/idempotency.py). A request looks its key up,
  builds its response if the key is new, and stores response and effects in one transaction; any number
  of requests may be between lookup and store at once. The guard makes all answers to a key equal. It
  does not by itself make their effects single: a request that loses the race to store, with the same
  body, still commits what it built.
*/
module Idempotency {
  import opened Tables

  datatype Key = Key(consumerId: Uuid, key: string)

  datatype Reply = Reply(body: string, status: int)

  datatype Stored = Stored(requestHash: string, reply: Reply)

  datatype Call = Call(key: Key, requestHash: string)

  datatype HttpError = KeyReused | BuildFailed

  // `waiting` holds the requests whose lookup found nothing, by request number; `effects` the request
  // numbers whose transaction committed, with their keys.
  datatype State = State(table: map<Key, Stored>, waiting: map<nat, Call>, effects: seq<(Key, nat)>)

  datatype Step =
    | Lookup(request: nat, call: Call)
    | Finish(request: nat, built: Option<Reply>)  // None: building the response raised
    | Purge(keys: set<Key>)

  datatype Answer = Answer(call: Call, result: Result<Reply, HttpError>)

  // ----- one request -----

  // Storing a built response: the row to answer from and whether the transaction commits.
  function StoreRow(table: map<Key, Stored>, call: Call, reply: Reply): Result<(map<Key, Stored>, Reply), HttpError> {
    if call.key !in table then Ok((table[call.key := Stored(call.requestHash, reply)], reply))
    else if table[call.key].requestHash != call.requestHash then Err(KeyReused)
    else Ok((table, table[call.key].reply))
  }

  // The request's database session: `staged` is what its handler wrote and has not committed.
  class Session {
    var table: map<Key, Stored>
    var committed: seq<(Key, nat)>
    var staged: seq<(Key, nat)>

    constructor (table: map<Key, Stored>, committed: seq<(Key, nat)>)
      ensures this.table == table && this.committed == committed && staged == []
    {
      this.table, this.committed, staged := table, committed, [];
    }

    method Commit()
      modifies this
      ensures table == old(table) && committed == old(committed) + old(staged) && staged == []
    {
      committed, staged := committed + staged, [];
    }
  }

  class IdempotencyGuard {
    const session: Session
    const call: Call
    var replay: Option<Reply>

    constructor (session: Session, call: Call, replay: Option<Reply>)
      ensures this.session == session && this.call == call && this.replay == replay
    {
      this.session, this.call, this.replay := session, call, replay;
    }

    method Store(reply: Reply) returns (r: Result<(), HttpError>)
      requires replay.None?
      modifies this, session
      ensures match StoreRow(old(session.table), call, reply)
        case Err(e) => r == Err(e) && session.table == old(session.table) && session.committed == old(session.committed)
          && replay.None?
        case Ok(stored) =>
          && r == Ok(()) && session.table == stored.0
          && session.committed == old(session.committed) + old(session.staged)
          && (if call.key in old(session.table) then replay == Some(stored.1) else replay.None?)
    {
      if call.key in session.table {
        var row := session.table[call.key];
        if row.requestHash != call.requestHash { return Err(KeyReused); }
        replay := Some(row.reply);
      } else {
        session.table := session.table[call.key := Stored(call.requestHash, reply)];
      }
      session.Commit();
      return Ok(());
    }

    // `built` is what the endpoint's own code returns after staging its effect under `request`.
    method RespondIdempotently(request: nat, built: Option<Reply>) returns (answer: Result<Reply, HttpError>)
      requires session.staged == []
      modifies this, session
      ensures old(replay).Some? ==> answer == Ok(old(replay).value) && unchanged(session)
      ensures old(replay).None? ==>
        var (s', result) := FinishCall(State(old(session.table), map[], old(session.committed)), request, call, built);
        answer == result && session.table == s'.table && session.committed == s'.effects
    {
      if replay.Some? { return Ok(replay.value); }
      session.staged := session.staged + [(call.key, request)];
      if built.None? { return Err(BuildFailed); }
      var stored := Store(built.value);
      if stored.Err? { return Err(stored.error); }
      return Ok(if replay.Some? then replay.value else built.value);
    }
  }

  // ----- many requests -----

  function FinishCall(s: State, request: nat, call: Call, built: Option<Reply>): (State, Result<Reply, HttpError>) {
    if built.None? then (s, Err(BuildFailed))
    else
      match StoreRow(s.table, call, built.value)
      case Err(e) => (s, Err(e))
      case Ok((table, reply)) => (s.(table := table, effects := s.effects + [(call.key, request)]), Ok(reply))
  }

  function Apply(s: State, step: Step): State {
    match step
    case Lookup(r, call) => if call.key in s.table then s else s.(waiting := s.waiting[r := call])
    case Finish(r, built) =>
      if r in s.waiting then FinishCall(s.(waiting := s.waiting - {r}), r, s.waiting[r], built).0 else s
    case Purge(keys) => s.(table := s.table - keys)
  }

  function Answers(s: State, step: Step): seq<Answer> {
    match step
    case Lookup(_, call) =>
      if call.key !in s.table then []
      else if s.table[call.key].requestHash != call.requestHash then [Answer(call, Err(KeyReused))]
      else [Answer(call, Ok(s.table[call.key].reply))]
    case Finish(r, built) =>
      if r in s.waiting then [Answer(s.waiting[r], FinishCall(s, r, s.waiting[r], built).1)] else []
    case Purge(_) => []
  }

  function Run(s: State, steps: seq<Step>): State
    decreases steps
  {
    if steps == [] then s else Run(Apply(s, steps[0]), steps[1..])
  }

  function AllAnswers(s: State, steps: seq<Step>): seq<Answer>
    decreases steps
  {
    if steps == [] then [] else Answers(s, steps[0]) + AllAnswers(Apply(s, steps[0]), steps[1..])
  }

  predicate Keeps(steps: seq<Step>, k: Key) {
    forall i | 0 <= i < |steps| && steps[i].Purge? :: k !in steps[i].keys
  }

  // An answer to `k` that agrees with the stored row: the row's reply to its own request, a conflict (or
  // a failed build) to any other.
  predicate Agrees(a: Answer, k: Key, row: Stored) {
    a.call.key == k ==>
      (a.result.Ok? ==> a.call.requestHash == row.requestHash && a.result.value == row.reply)
      && (a.call.requestHash != row.requestHash ==> a.result.Err?)
  }

  lemma {:induction false} StoredRowAnswersAll(s: State, steps: seq<Step>, k: Key)
    requires k in s.table && Keeps(steps, k)
    ensures k in Run(s, steps).table && Run(s, steps).table[k] == s.table[k]
    ensures forall a | a in AllAnswers(s, steps) :: Agrees(a, k, s.table[k])
    decreases steps
  {
    if steps != [] {
      var s' := Apply(s, steps[0]);
      assert k in s'.table && s'.table[k] == s.table[k];
      assert forall a | a in Answers(s, steps[0]) :: Agrees(a, k, s.table[k]);
      assert Keeps(steps[1..], k) by { assert forall i | 0 <= i < |steps| - 1 :: steps[1..][i] == steps[i + 1]; }
      StoredRowAnswersAll(s', steps[1..], k);
    }
  }

  // Between purges of a key every successful answer to it, early replay, winner or loser of the race,
  // is the one stored reply, and was given to one and the same request body.
  lemma {:induction false} ResponsesAgree(s: State, steps: seq<Step>, k: Key)
    requires Keeps(steps, k)
    ensures forall a, b | a in AllAnswers(s, steps) && b in AllAnswers(s, steps) && a.call.key == k && b.call.key == k
      && a.result.Ok? && b.result.Ok? :: a.result == b.result && a.call.requestHash == b.call.requestHash
    decreases steps
  {
    if k in s.table {
      StoredRowAnswersAll(s, steps, k);
    } else if steps != [] {
      var s' := Apply(s, steps[0]);
      assert Keeps(steps[1..], k) by { assert forall i | 0 <= i < |steps| - 1 :: steps[1..][i] == steps[i + 1]; }
      if k in s'.table {
        StoredRowAnswersAll(s', steps[1..], k);
        assert forall a | a in Answers(s, steps[0]) :: Agrees(a, k, s'.table[k]);
      } else {
        assert forall a | a in Answers(s, steps[0]) :: a.call.key == k ==> a.result.Err?;
        ResponsesAgree(s', steps[1..], k);
      }
    }
  }

  // A request whose body differs from the stored one is refused and commits nothing.
  lemma OtherBodyCommitsNothing(s: State, r: nat, built: Option<Reply>)
    requires r in s.waiting && s.waiting[r].key in s.table
      && s.table[s.waiting[r].key].requestHash != s.waiting[r].requestHash
    ensures Apply(s, Finish(r, built)).effects == s.effects && Apply(s, Finish(r, built)).table == s.table
    ensures Answers(s, Finish(r, built)) == [Answer(s.waiting[r], Err(if built.None? then BuildFailed else KeyReused))]
  {
    var s1 := s.(waiting := s.waiting - {r});
    assert StoreRow(s1.table, s.waiting[r], Reply("", 0)).Err?;
    assert Apply(s, Finish(r, built)) == FinishCall(s1, r, s.waiting[r], built).0 == s1;
  }

  // However long after, a request with a stored key is answered at once, with the stored reply if its body
  // is the same and a conflict if not, and does nothing else.
  lemma StoredKeyIsReplayed(s: State, steps: seq<Step>, r: nat, call: Call)
    requires call.key in s.table && Keeps(steps, call.key)
    ensures var t, row := Run(s, steps), s.table[call.key];
      && Answers(t, Lookup(r, call))
         == [Answer(call, if call.requestHash == row.requestHash then Ok(row.reply) else Err(KeyReused))]
      && Apply(t, Lookup(r, call)) == t
  {
    StoredRowAnswersAll(s, steps, call.key);
  }

  function Lookups(steps: seq<Step>): nat
    decreases steps
  {
    if steps == [] then 0 else (if steps[0].Lookup? then 1 else 0) + Lookups(steps[1..])
  }

  // No request takes the number of one that is still being built.
  ghost predicate OwnNumbers(s: State, steps: seq<Step>)
    decreases steps
  {
    steps == []
    || ((steps[0].Lookup? ==> steps[0].request !in s.waiting) && OwnNumbers(Apply(s, steps[0]), steps[1..]))
  }

  lemma StepAnswersOnce(s: State, step: Step)
    requires step.Lookup? ==> step.request !in s.waiting
    ensures |Answers(s, step)| + |Apply(s, step).waiting| == |s.waiting| + if step.Lookup? then 1 else 0
  {
    if step.Finish? && step.request in s.waiting {
      var rest := s.waiting - {step.request};
      assert Apply(s, step).waiting == rest;
      assert s.waiting.Keys == rest.Keys + {step.request};
      assert |s.waiting| == |s.waiting.Keys| && |rest| == |rest.Keys|;
    }
  }

  // Every request is answered exactly once: those made are those answered and those still being built.
  lemma {:induction false} EveryRequestIsAnsweredOnce(s: State, steps: seq<Step>)
    requires OwnNumbers(s, steps)
    ensures |AllAnswers(s, steps)| + |Run(s, steps).waiting| == |s.waiting| + Lookups(steps)
    decreases steps
  {
    if steps != [] {
      StepAnswersOnce(s, steps[0]);
      EveryRequestIsAnsweredOnce(Apply(s, steps[0]), steps[1..]);
    }
  }

  // A purged key is new again: the next request with it is built, stored and answered afresh.
  lemma PurgeForgets(s: State, keys: set<Key>, r: nat, call: Call, reply: Reply)
    requires call.key in keys
    ensures var s1 := Apply(Apply(s, Purge(keys)), Lookup(r, call)); var s2 := Apply(s1, Finish(r, Some(reply)));
      && Answers(s1, Finish(r, Some(reply))) == [Answer(call, Ok(reply))]
      && call.key in s2.table && s2.table[call.key] == Stored(call.requestHash, reply)
      && s2.effects == s.effects + [(call.key, r)]
      && forall k | k !in keys :: (k in s2.table <==> k in s.table) && (k in s.table ==> s2.table[k] == s.table[k])
  {
  }

  // ----- how many effects -----

  function Effects(effects: seq<(Key, nat)>, k: Key): nat {
    if effects == [] then 0
    else Effects(effects[..|effects| - 1], k) + if effects[|effects| - 1].0 == k then 1 else 0
  }

  // Two racing requests with one key and one body: both effects are committed, both get one answer.
  lemma RaceCommitsTwice(k: Key, first: Reply, second: Reply)
    ensures var call := Call(k, "body");
      var steps := [Lookup(1, call)] + [Lookup(2, call), Finish(1, Some(first)), Finish(2, Some(second))];
      && Effects(Run(State(map[], map[], []), steps).effects, k) == 2
      && AllAnswers(State(map[], map[], []), steps) == [Answer(call, Ok(first)), Answer(call, Ok(first))]
  {
    hide Effects;
    var call := Call(k, "body");
    var s0 := State(map[], map[], []);
    var s1 := Apply(s0, Lookup(1, call));
    var s2 := Apply(s1, Lookup(2, call));
    var s3 := Apply(s2, Finish(1, Some(first)));
    var s4 := Apply(s3, Finish(2, Some(second)));
    Unroll(s3, Finish(2, Some(second)), []);
    assert [Finish(2, Some(second))] + [] == [Finish(2, Some(second))];
    assert [Finish(1, Some(first))] + [Finish(2, Some(second))] == [Finish(1, Some(first)), Finish(2, Some(second))];
    assert [Lookup(2, call)] + [Finish(1, Some(first)), Finish(2, Some(second))]
      == [Lookup(2, call), Finish(1, Some(first)), Finish(2, Some(second))];
    Unroll(s2, Finish(1, Some(first)), [Finish(2, Some(second))]);
    Unroll(s1, Lookup(2, call), [Finish(1, Some(first)), Finish(2, Some(second))]);
    Unroll(s0, Lookup(1, call), [Lookup(2, call), Finish(1, Some(first)), Finish(2, Some(second))]);
    assert s4.effects == [(k, 1), (k, 2)];
    TwoEffects(k);
  }

  lemma TwoEffects(k: Key)
    ensures Effects([(k, 1), (k, 2)], k) == 2
  {
    assert [(k, 1), (k, 2)][..1] == [(k, 1)] && [(k, 1)][..0] == [];
    assert Effects([(k, 1)], k) == 1;
  }

  lemma Unroll(s: State, step: Step, rest: seq<Step>)
    ensures Run(s, [step] + rest) == Run(Apply(s, step), rest)
    ensures AllAnswers(s, [step] + rest) == Answers(s, step) + AllAnswers(Apply(s, step), rest)
  {
    assert ([step] + rest)[1..] == rest;
  }

  ghost predicate Counted(s: State, k: Key) {
    (k in s.table <==> Effects(s.effects, k) >= 1)
  }

  // A request that has passed its lookup finishes with its response built.
  predicate Finishes(s: State, step: Step, call: Call) {
    step.Finish? && PastLookup(s, step.request, call) && step.built.Some?
  }

  // What one step adds to the effects of a key: a first response stores it, a later one must carry the
  // stored body.
  lemma StepEffects(s: State, step: Step, k: Key)
    requires Counted(s, k)
    ensures Effects(Apply(s, step).effects, k) == Effects(s.effects, k)
      + if exists h :: Finishes(s, step, Call(k, h)) && (k in s.table ==> s.table[k].requestHash == h) then 1 else 0
  {
    if step.Finish? && step.request in s.waiting && step.built.Some? {
      var call := s.waiting[step.request];
      assert Finishes(s, step, Call(call.key, call.requestHash));
      assert (s.effects + [(call.key, step.request)])[..|s.effects|] == s.effects;
    }
  }

  lemma CountedKept(s: State, step: Step, k: Key)
    requires Counted(s, k) && Keeps([step], k)
    ensures Counted(Apply(s, step), k)
  {
    hide Effects;
    assert [step][0] == step;
    StepEffects(s, step, k);
    if step.Finish? && step.request in s.waiting && step.built.Some? {
      var call := s.waiting[step.request];
      assert Finishes(s, step, Call(call.key, call.requestHash));
    }
  }

  lemma TailKeeps(steps: seq<Step>, k: Key)
    requires steps != [] && Keeps(steps, k)
    ensures Keeps([steps[0]], k) && Keeps(steps[1..], k)
  {
    assert forall i | 0 <= i < |steps| - 1 :: steps[1..][i] == steps[i + 1];
    assert [steps[0]][0] == steps[0];
  }

  // How many requests with this key and body finish during a run.
  function Lates(s: State, steps: seq<Step>, call: Call): nat
    decreases steps
  {
    if steps == [] then 0
    else (if Finishes(s, steps[0], call) then 1 else 0) + Lates(Apply(s, steps[0]), steps[1..], call)
  }

  // Once a key is stored, a run adds as many effects to it as requests that carry the stored body finish
  // late: they had passed their lookup before the key was stored.
  lemma {:induction false} LateFinishesAddEffects(s: State, steps: seq<Step>, k: Key)
    requires Keeps(steps, k) && Counted(s, k) && k in s.table
    ensures Effects(Run(s, steps).effects, k)
      == Effects(s.effects, k) + Lates(s, steps, Call(k, s.table[k].requestHash))
    decreases steps
  {
    if steps != [] {
      TailKeeps(steps, k);
      CountedKept(s, steps[0], k);
      StepEffects(s, steps[0], k);
      StoredRowAnswersAll(s, [steps[0]], k);
      assert k in Apply(s, steps[0]).table && Apply(s, steps[0]).table[k] == s.table[k];
      LateFinishesAddEffects(Apply(s, steps[0]), steps[1..], k);
    }
  }

  // Steps i and j of a run are two requests with one key and body, the first of which stores the key
  // while the second is past its lookup.
  ghost predicate Overtakes(s: State, steps: seq<Step>, k: Key, i: nat, j: nat) {
    && i < j < |steps|
    && exists h ::
         (&& Stores(Run(s, steps[..i]), steps[i], k, h)
          && Finishes(Run(s, steps[..j]), steps[j], Call(k, h))
          && PastLookup(Run(s, steps[..i]), steps[j].request, Call(k, h)))
  }

  predicate PastLookup(s: State, request: nat, call: Call) {
    request in s.waiting && s.waiting[request] == call
  }

  ghost predicate Stores(s: State, step: Step, k: Key, h: string) {
    k !in s.table && Finishes(s, step, Call(k, h))
  }

  lemma {:induction false} LateMeansFinish(s: State, steps: seq<Step>, call: Call) returns (j: nat)
    requires Lates(s, steps, call) > 0
    ensures j < |steps| && Finishes(Run(s, steps[..j]), steps[j], call)
    decreases steps
  {
    if Finishes(s, steps[0], call) {
      j := 0;
    } else {
      j := LateMeansFinish(Apply(s, steps[0]), steps[1..], call);
      j := j + 1;
      assert steps[..j][1..] == steps[1..][..j - 1] && steps[..j][0] == steps[0];
    }
  }

  lemma {:induction false} FinishIsLate(s: State, steps: seq<Step>, call: Call, j: nat)
    requires j < |steps| && Finishes(Run(s, steps[..j]), steps[j], call)
    ensures Lates(s, steps, call) > 0
    decreases steps
  {
    if j > 0 {
      assert steps[..j][1..] == steps[1..][..j - 1] && steps[..j][0] == steps[0];
      FinishIsLate(Apply(s, steps[0]), steps[1..], call, j - 1);
    }
  }

  // Nobody passes the lookup of a stored key, so who is past it later was past it before.
  lemma {:induction false} NoNewWaiters(s: State, steps: seq<Step>, k: Key, r: nat)
    requires k in s.table && Keeps(steps, k)
    requires r in Run(s, steps).waiting && Run(s, steps).waiting[r].key == k
    ensures r in s.waiting && s.waiting[r] == Run(s, steps).waiting[r]
    decreases steps
  {
    if steps != [] {
      TailKeeps(steps, k);
      NoNewWaiters(Apply(s, steps[0]), steps[1..], k, r);
    }
  }

  // From before a key's first response to its purge: the key gets a second effect exactly if some request
  // with the same body was already past its lookup when the first response was stored, and its own
  // response was built too.
  lemma {:induction false} SecondEffectExactly(s: State, steps: seq<Step>, k: Key)
    requires Keeps(steps, k) && k !in s.table && Effects(s.effects, k) == 0
    ensures Effects(Run(s, steps).effects, k) >= 2 <==> exists i, j :: Overtakes(s, steps, k, i, j)
    decreases steps
  {
    if steps != [] {
      var s', rest := Apply(s, steps[0]), steps[1..];
      TailKeeps(steps, k);
      CountedKept(s, steps[0], k);
      StepEffects(s, steps[0], k);
      if k in s'.table {
        OnceStored(s, steps, k);
      } else {
        SecondEffectExactly(s', rest, k);
        OvertakesLater(s, steps, k);
      }
    }
  }

  lemma OvertakesLater(s: State, steps: seq<Step>, k: Key)
    requires steps != [] && k !in s.table && k !in Apply(s, steps[0]).table && Keeps([steps[0]], k)
    ensures (exists i, j :: Overtakes(s, steps, k, i, j))
      <==> exists i, j :: Overtakes(Apply(s, steps[0]), steps[1..], k, i, j)
  {
    var s', rest := Apply(s, steps[0]), steps[1..];
    forall n: nat | n < |rest| ensures Run(s, steps[..n + 1]) == Run(s', rest[..n]) && steps[n + 1] == rest[n] {
      assert steps[..n + 1][1..] == rest[..n] && steps[..n + 1][0] == steps[0];
    }
    assert Run(s, steps[..0]) == s;
    forall i: nat, j: nat | Overtakes(s, steps, k, i, j) ensures i > 0 && Overtakes(s', rest, k, i - 1, j - 1) {
      if i == 0 { assert false; }
      assert Run(s, steps[..(i - 1) + 1]) == Run(s', rest[..i - 1])
        && Run(s, steps[..(j - 1) + 1]) == Run(s', rest[..j - 1]);
    }
    forall i: nat, j: nat | Overtakes(s', rest, k, i, j) ensures Overtakes(s, steps, k, i + 1, j + 1) {
      assert Run(s, steps[..i + 1]) == Run(s', rest[..i]) && Run(s, steps[..j + 1]) == Run(s', rest[..j]);
    }
  }

  // The case where the run's first step stores the key.
  lemma OnceStored(s: State, steps: seq<Step>, k: Key)
    requires steps != [] && Keeps(steps, k) && k !in s.table && Effects(s.effects, k) == 0
      && k in Apply(s, steps[0]).table
    ensures Effects(Run(s, steps).effects, k) >= 2 <==> exists i, j :: Overtakes(s, steps, k, i, j)
  {
    hide Overtakes;
    var s', rest := Apply(s, steps[0]), steps[1..];
    var h := s'.table[k].requestHash;
    TailKeeps(steps, k);
    CountedKept(s, steps[0], k);
    StepEffects(s, steps[0], k);
    LateFinishesAddEffects(s', rest, k);
    if Lates(s', rest, Call(k, h)) > 0 {
      var j := LateOvertakes(s, steps, k);
    }
    forall i: nat, j: nat | Overtakes(s, steps, k, i, j) ensures Lates(s', rest, Call(k, h)) > 0 {
      OvertakingIsLate(s, steps, k, i, j);
    }
  }

  lemma LateOvertakes(s: State, steps: seq<Step>, k: Key) returns (j: nat)
    requires steps != [] && Keeps(steps, k) && k !in s.table && k in Apply(s, steps[0]).table
    requires Lates(Apply(s, steps[0]), steps[1..], Call(k, Apply(s, steps[0]).table[k].requestHash)) > 0
    ensures Overtakes(s, steps, k, 0, j)
  {
    var s', rest := Apply(s, steps[0]), steps[1..];
    var h := s'.table[k].requestHash;
    TailKeeps(steps, k);
    var n := LateMeansFinish(s', rest, Call(k, h));
    KeepsPrefix(rest, k, n);
    NoNewWaiters(s', rest[..n], k, rest[n].request);
    j := n + 1;
    assert steps[..j][1..] == rest[..n] && steps[..j][0] == steps[0];
    assert Stores(s, steps[0], k, h) && Run(s, steps[..0]) == s;
  }

  lemma OvertakingIsLate(s: State, steps: seq<Step>, k: Key, i: nat, j: nat)
    requires steps != [] && Keeps(steps, k) && k !in s.table && k in Apply(s, steps[0]).table
    requires Overtakes(s, steps, k, i, j)
    ensures Lates(Apply(s, steps[0]), steps[1..], Call(k, Apply(s, steps[0]).table[k].requestHash)) > 0
  {
    var s', rest := Apply(s, steps[0]), steps[1..];
    StoredStays(s, steps, k, i);
    assert i == 0 && Run(s, steps[..0]) == s;
    assert steps[..j][1..] == rest[..j - 1] && steps[..j][0] == steps[0];
    FinishIsLate(s', rest, Call(k, s'.table[k].requestHash), j - 1);
  }

  lemma StoredStays(s: State, steps: seq<Step>, k: Key, i: nat)
    requires 0 < |steps| && i <= |steps| && Keeps(steps, k) && k in Apply(s, steps[0]).table
    ensures i > 0 ==> k in Run(s, steps[..i]).table
  {
    TailKeeps(steps, k);
    if i > 0 {
      assert steps[..i][1..] == steps[1..][..i - 1] && steps[..i][0] == steps[0];
      KeepsPrefix(steps[1..], k, i - 1);
      StoredRowAnswersAll(Apply(s, steps[0]), steps[1..][..i - 1], k);
    }
  }

  lemma KeepsPrefix(steps: seq<Step>, k: Key, n: nat)
    requires Keeps(steps, k) && n <= |steps|
    ensures Keeps(steps[..n], k)
  {
    assert forall i | 0 <= i < n :: steps[..n][i] == steps[i];
  }

  // Requests that do not overlap: each is looked up and finished before the next is looked up.
  function OneByOne(calls: seq<Call>, built: seq<Option<Reply>>): seq<Step>
    requires |calls| == |built|
    decreases calls
  {
    if calls == [] then [] else [Lookup(0, calls[0]), Finish(0, built[0])] + OneByOne(calls[1..], built[1..])
  }

  lemma {:induction false} OneByOneOneEffect(s: State, calls: seq<Call>, built: seq<Option<Reply>>, k: Key)
    requires |calls| == |built| && s.waiting == map[] && Counted(s, k) && Effects(s.effects, k) <= 1
    ensures Effects(Run(s, OneByOne(calls, built)).effects, k) <= 1
    decreases calls
  {
    if calls != [] {
      var steps := OneByOne(calls, built);
      var s1 := Apply(s, Lookup(0, calls[0]));
      var s2 := Apply(s1, Finish(0, built[0]));
      assert steps[0] == Lookup(0, calls[0]) && steps[1..][0] == Finish(0, built[0]);
      assert steps[1..][1..] == OneByOne(calls[1..], built[1..]);
      assert Run(s, steps) == Run(s2, OneByOne(calls[1..], built[1..]));
      CountedKept(s, Lookup(0, calls[0]), k);
      CountedKept(s1, Finish(0, built[0]), k);
      StepEffects(s1, Finish(0, built[0]), k);
      assert s2.waiting == map[];
      OneByOneOneEffect(s2, calls[1..], built[1..], k);
    }
  }
}
