/**
  The whole system with booking transactions that overlap in time: host commands and payment-event
  reactions read a booking's row, and commit later, while anything else happens in between. Every state it
  reaches is one that the system with transactions run one at a time reaches, so all that is proved of
  reachable states holds of it too.
*/
module Overlapping {
  import opened Tables
  import opened Domain
  import opened Relay
  import S = System
  import opened Interleaving
  import B = Bookings
  import Saga
  import SagaSafety

  // A transaction that has read its row: a host's command, or a consumer's reaction to record `m` of
  // partition `q`.
  datatype Open = Host(t: Tx) | Consumer(t: Tx, q: nat, m: Msg<B.PaymentEvent>)

  datatype World = World(sys: S.System, open: map<nat, Open>)

  datatype Move =
    | Alone(step: S.Step)
    | Begin(tx: nat, b: Uuid, command: B.Command)
    | Read(tx: nat, q: nat)
    | Finish(tx: nat, id: Uuid)
    | Abort(tx: nat)

  // The consumer that read `m` is still where it read it, and nobody has claimed the event.
  ghost predicate StillNext(s: S.System, q: nat, m: Msg<B.PaymentEvent>) {
    HasNext(s.events, q) && Next(s.events, q) == m && m.id !in s.booking.inbox
  }

  // A command that is refused leaves nothing; a reaction that is refused takes its consumer down.
  ghost function Commit(s: S.System, open: Open, id: Uuid): S.System {
    match open
    case Host(t) => S.OrElse(s, CommitStale(s.booking, t, id))
    case Consumer(t, q, m) =>
      if !StillNext(s, q, m) then s
      else
        match CommitStale(s.booking.(inbox := s.booking.inbox + {m.id}), t, id)
        case Ok(db) => s.(booking := db, events := Advance(s.events, q))
        case Err(_) => s.(events := Restart(s.events, q))
  }

  ghost function Moved(w: World, move: Move): World
    requires |w.sys.commands.parts| > 0 && |w.sys.events.parts| > 0
    ensures |Moved(w, move).sys.commands.parts| > 0 && |Moved(w, move).sys.events.parts| > 0
  {
    match move
    case Alone(step) => w.(sys := S.Apply(w.sys, step))
    case Begin(tx, b, c) =>
      if b in w.sys.booking.rows && Saga.FromHost(c)
      then w.(open := w.open[tx := Host(Tx(b, c, w.sys.booking.rows[b]))])
      else w
    case Read(tx, q) =>
      if HasNext(w.sys.events, q) && Next(w.sys.events, q).key in w.sys.booking.rows then
        var m := Next(w.sys.events, q);
        w.(open := w.open[tx := Consumer(Tx(m.key, B.ReactionTo(m.body), w.sys.booking.rows[m.key]), q, m)])
      else w
    case Finish(tx, id) => if tx in w.open then World(Commit(w.sys, w.open[tx], id), w.open - {tx}) else w
    case Abort(tx) => w.(open := w.open - {tx})
  }

  ghost function Played(w: World, moves: seq<Move>): World
    requires |w.sys.commands.parts| > 0 && |w.sys.events.parts| > 0
    decreases moves
  {
    if moves == [] then w else Played(Moved(w, moves[0]), moves[1..])
  }

  // The steps of the serial system a move amounts to: at most one.
  ghost function Amounts(w: World, move: Move): seq<S.Step> {
    match move
    case Alone(step) => [step]
    case Finish(tx, id) =>
      if tx !in w.open then []
      else
        (match w.open[tx]
         case Host(t) => if CommitStale(w.sys.booking, t, id).Ok? then [S.Command(t.b, t.command, id)] else []
         case Consumer(t, q, m) =>
           if !StillNext(w.sys, q, m) then []
           else if CommitStale(w.sys.booking.(inbox := w.sys.booking.inbox + {m.id}), t, id).Ok?
             then [S.BookingConsumes(q, id)]
           else [S.RestartEvents(q)])
    case _ => []
  }

  ghost function Serialized(w: World, moves: seq<Move>): seq<S.Step>
    requires |w.sys.commands.parts| > 0 && |w.sys.events.parts| > 0
    decreases moves
  {
    if moves == [] then [] else Amounts(w, moves[0]) + Serialized(Moved(w, moves[0]), moves[1..])
  }

  // ----- what a transaction read stays an older version of its row -----

  lemma {:induction false} OfIndex<T>(table: seq<Row<T>>, b: Uuid, k: nat) returns (i: nat)
    requires k < |Of(table, b)|
    ensures i < |table| && table[i].key == b && table[i].value == Of(table, b)[k]
  {
    var init, last := table[..|table| - 1], table[|table| - 1];
    if k < |Of(init, b)| {
      i := OfIndex(init, b, k);
    } else {
      i := |table| - 1;
    }
  }

  lemma VersionsOf(v: Saga.Saga)
    requires Saga.Inv(v)
    ensures v.row.None? ==> v.log == []
    ensures v.row.Some? ==> Saga.Numbered(v.log) && v.row.value.version == |v.log| + 1
  {
  }

  lemma SagasAreVersioned(s: S.System)
    requires S.SagaInv(s)
    ensures Versioned(s.booking) && forall b | b in s.booking.rows :: 1 <= s.booking.rows[b].version
  {
    hide Saga.Inv;
    var db := s.booking;
    forall b ensures Saga.Inv(S.View(s, b)) {}
    forall i | 0 <= i < |db.events|
      ensures db.events[i].key in db.rows && 2 <= db.events[i].value.version <= db.rows[db.events[i].key].version
    {
      var b := db.events[i].key;
      VersionsOf(S.View(s, b));
      OfMember(db.events, b, i);
      var k :| 0 <= k < |Of(db.events, b)| && Of(db.events, b)[k] == db.events[i].value;
    }
    forall b, v | b in db.rows && 2 <= v <= db.rows[b].version ensures B.VersionUsed(db.events, b, v) {
      VersionsOf(S.View(s, b));
      var i := OfIndex(db.events, b, v - 2);
    }
    forall b | b in db.rows ensures 1 <= db.rows[b].version { VersionsOf(S.View(s, b)); }
  }

  ghost predicate Advances(db: B.BookingDb, later: B.BookingDb) {
    forall b | b in db.rows ::
      && b in later.rows && db.rows[b].version <= later.rows[b].version
      && (later.rows[b].version == db.rows[b].version ==> later.rows[b] == db.rows[b])
  }

  lemma ExecuteAdvances(db: B.BookingDb, b: Uuid, c: B.Command, id: Uuid)
    requires B.Execute(db, b, c, id).Ok?
    ensures Advances(db, B.Execute(db, b, c, id).value)
  {
    hide B.Decide;
    DecisionsLog(db.rows[b], c);
  }

  lemma StepAdvances(s: S.System, step: S.Step)
    requires |s.commands.parts| > 0 && |s.events.parts| > 0
    ensures Advances(s.booking, S.Apply(s, step).booking)
  {
    hide B.Execute;
    match step {
      case Command(b, c, id) => if B.Execute(s.booking, b, c, id).Ok? { ExecuteAdvances(s.booking, b, c, id); }
      case BookingConsumes(q, id) =>
        if HasNext(s.events, q) {
          var m := Next(s.events, q);
          var db := s.booking.(inbox := s.booking.inbox + {m.id});
          if B.Execute(db, m.key, B.ReactionTo(m.body), id).Ok? {
            ExecuteAdvances(db, m.key, B.ReactionTo(m.body), id);
          }
        }
      case _ =>
    }
  }

  // ----- a move is at most one step -----

  ghost predicate Sound(s: S.System, open: Open) {
    && Stale(s.booking, open.t)
    && match open
       case Host(t) => Saga.FromHost(t.command)
       case Consumer(t, q, m) => t.b == m.key && t.command == B.ReactionTo(m.body)
  }

  ghost predicate WorldInv(w: World) {
    S.RelayInv(w.sys) && S.SagaInv(w.sys) && forall tx | tx in w.open :: Sound(w.sys, w.open[tx])
  }

  lemma StaleCommit(db: B.BookingDb, t: Tx, id: Uuid)
    requires Versioned(db) && Stale(db, t)
    ensures CommitStale(db, t, id).Ok? ==> CommitStale(db, t, id) == B.Execute(db, t.b, t.command, id)
  {
    hide B.Decide, Versioned, B.Execute;
    if CommitStale(db, t, id).Ok? {
      CommitNeedsDecision(db, t, id);
      CommitsOnlyIfCurrent(db, t, id);
    }
  }

  lemma CommitIsAStep(w: World, tx: nat, id: Uuid)
    requires WorldInv(w) && |w.sys.events.parts| > 0 && tx in w.open
    ensures var steps := Amounts(w, Finish(tx, id));
      Commit(w.sys, w.open[tx], id) == if steps == [] then w.sys else S.Apply(w.sys, steps[0])
  {
    hide Relay.Inv, S.SagaInv, Versioned, CommitStale, B.Execute;
    SagasAreVersioned(w.sys);
    assert Sound(w.sys, w.open[tx]);
    match w.open[tx] {
      case Host(t) => StaleCommit(w.sys.booking, t, id);
      case Consumer(t, q, m) =>
        var db := w.sys.booking.(inbox := w.sys.booking.inbox + {m.id});
        SameVersions(w.sys.booking, db);
        StaleCommit(db, t, id);
    }
  }

  lemma SameVersions(db: B.BookingDb, claimed: B.BookingDb)
    requires Versioned(db) && claimed.rows == db.rows && claimed.events == db.events
    ensures Versioned(claimed)
  {
  }

  lemma MoveIsAStep(w: World, move: Move)
    requires WorldInv(w) && |w.sys.commands.parts| > 0 && |w.sys.events.parts| > 0
    ensures |Amounts(w, move)| <= 1
    ensures Moved(w, move).sys == if Amounts(w, move) == [] then w.sys else S.Apply(w.sys, Amounts(w, move)[0])
  {
    hide WorldInv, Commit, Amounts;
    if move.Finish? && move.tx in w.open {
      CommitIsAStep(w, move.tx, move.id);
    }
    AtMostOne(w, move);
  }

  lemma AtMostOne(w: World, move: Move)
    ensures |Amounts(w, move)| <= 1
    ensures move.Alone? ==> Amounts(w, move) == [move.step]
    ensures !move.Alone? && !(move.Finish? && move.tx in w.open) ==> Amounts(w, move) == []
  {
    hide CommitStale;
  }

  lemma SoundStays(s: S.System, later: S.System, open: Open)
    requires Sound(s, open) && Advances(s.booking, later.booking)
    ensures Sound(later, open)
  {
  }

  lemma NewIsSound(w: World, move: Move)
    requires Versioned(w.sys.booking) && forall b | b in w.sys.booking.rows :: 1 <= w.sys.booking.rows[b].version
    requires |w.sys.commands.parts| > 0 && |w.sys.events.parts| > 0
    ensures var open := Moved(w, move).open;
      forall tx | tx in open ::
        (tx in w.open && open[tx] == w.open[tx]) || (!move.Alone? && move.tx == tx && Sound(w.sys, open[tx]))
    ensures !move.Alone? && !move.Finish? ==> Moved(w, move).sys == w.sys
  {
    hide Versioned, S.Apply, Commit;
  }

  lemma MoveKeepsInv(w: World, move: Move)
    requires WorldInv(w) && |w.sys.commands.parts| > 0 && |w.sys.events.parts| > 0
    ensures WorldInv(Moved(w, move))
  {
    hide Relay.Inv, S.SagaInv, Amounts, S.Apply, Commit, Moved, Sound, Advances;
    var w' := Moved(w, move);
    MoveIsAStep(w, move);
    SagasAreVersioned(w.sys);
    NewIsSound(w, move);
    if Amounts(w, move) != [] {
      var step := Amounts(w, move)[0];
      S.ApplyMovesOneSaga(w.sys, step);
      S.SagaStepKeepsInv(w.sys, w'.sys);
      StepAdvances(w.sys, step);
    } else {
      assert Advances(w.sys.booking, w'.sys.booking) by { NothingMoves(w.sys.booking); }
    }
    forall tx | tx in w'.open ensures Sound(w'.sys, w'.open[tx]) {
      assert Sound(w.sys, w'.open[tx]);
      SoundStays(w.sys, w'.sys, w'.open[tx]);
    }
  }

  lemma NothingMoves(db: B.BookingDb)
    ensures Advances(db, db)
  {
  }

  lemma {:induction false} PlayedIsRun(w: World, moves: seq<Move>)
    requires WorldInv(w) && |w.sys.commands.parts| > 0 && |w.sys.events.parts| > 0
    ensures Played(w, moves).sys == S.Run(w.sys, Serialized(w, moves))
    decreases moves
  {
    hide WorldInv, Amounts, Moved;
    if moves != [] {
      var w', steps := Moved(w, moves[0]), Amounts(w, moves[0]);
      MoveIsAStep(w, moves[0]);
      MoveKeepsInv(w, moves[0]);
      PlayedIsRun(w', moves[1..]);
      assert steps != [] ==> (steps + Serialized(w', moves[1..]))[1..] == Serialized(w', moves[1..]);
      assert steps == [] ==> steps + Serialized(w', moves[1..]) == Serialized(w', moves[1..]);
    }
  }

  // However transactions overlap, the system is in a state that the serial run of what committed reaches:
  // everything proved of reachable states holds of it.
  lemma OverlappingIsSerial(s: S.System, moves: seq<Move>)
    requires S.Init(s)
    ensures |s.commands.parts| > 0 && |s.events.parts| > 0
    ensures var w := World(s, map[]);
      Played(w, moves).sys == S.Run(s, Serialized(w, moves)) && S.Reachable(Played(w, moves).sys)
  {
    hide Relay.Inv, Saga.Inv;
    S.InitIsReachable(s);
    S.ReachableInv(s);
    PlayedIsRun(World(s, map[]), moves);
  }
}
