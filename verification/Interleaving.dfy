/**
  Booking transactions that overlap in time. A transaction reads a booking's row, decides on what it
  read, and later inserts its events and updates the row; others may commit in between. The unique
  (booking_id, version) constraint lets it commit only if the version it read is still current, so any
  interleaving leaves the database a serial execution of the committed transactions would leave.
*/
module Interleaving {
  import opened Tables
  import opened Domain
  import opened Relay
  import opened Bookings
  import SagaSafety

  type BookingRow = Domain.Booking

  // An open transaction: its command and the row it read.
  datatype Tx = Tx(b: Uuid, command: Command, read: BookingRow)

  datatype State = State(db: BookingDb, open: map<nat, Tx>)

  datatype Step =
    | Insert(b: Uuid, row: BookingRow, id: Uuid)
    | Begin(tx: nat, b: Uuid, command: Command)
    | Commit(tx: nat, id: Uuid)
    | Abort(tx: nat)

  // The UPDATE a session issues: only the columns its object changed since it was read.
  function Written(current: BookingRow, read: BookingRow, changed: BookingRow): BookingRow {
    current.(
      status := if changed.status != read.status then changed.status else current.status,
      version := if changed.version != read.version then changed.version else current.version,
      start := if changed.start != read.start then changed.start else current.start,
      end := if changed.end != read.end then changed.end else current.end,
      overageCents := if changed.overageCents != read.overageCents then changed.overageCents else current.overageCents)
  }

  // Deciding and versioning by the row as it was read; inserting against the tables as they are.
  function CommitStale(db: BookingDb, t: Tx, id: Uuid): Result<BookingDb, Error> {
    if t.b !in db.rows then Err(BookingNotFound)
    else
      match Decide(t.read, t.command)
      case Err(e) => Err(e)
      case Ok(eff) =>
        if Conflict(db.events, t.b, t.read.version, |eff.events|) then Err(ConcurrentUpdate)
        else if eff.message.Some? && Used(db.outbox, id) then Err(IntegrityError)
        else Ok(db.(rows := db.rows[t.b := Written(db.rows[t.b], t.read, eff.row)],
                    events := db.events + Tag(t.b, Stamp(t.read.version, eff.events)),
                    outbox := Post(db.outbox, id, t.b, eff.message)))
  }

  function Apply(s: State, step: Step): State {
    match step
    case Insert(b, row, id) =>
      if row.version == 1 && CreateBooking(s.db, b, row, id).Ok?
      then s.(db := CreateBooking(s.db, b, row, id).value)
      else s
    case Begin(tx, b, c) => if b in s.db.rows then s.(open := s.open[tx := Tx(b, c, s.db.rows[b])]) else s
    case Commit(tx, id) =>
      if tx in s.open && CommitStale(s.db, s.open[tx], id).Ok?
      then State(CommitStale(s.db, s.open[tx], id).value, s.open - {tx})
      else s.(open := s.open - {tx})
    case Abort(tx) => s.(open := s.open - {tx})
  }

  function Run(s: State, steps: seq<Step>): State
    decreases steps
  {
    if steps == [] then s else Run(Apply(s, steps[0]), steps[1..])
  }

  // What a step commits: an insertion, or one command on one booking.
  datatype Work = Created(b: Uuid, row: BookingRow, id: Uuid) | Executed(b: Uuid, command: Command, id: Uuid)

  function Commits(s: State, step: Step): seq<Work> {
    match step
    case Insert(b, row, id) =>
      if row.version == 1 && CreateBooking(s.db, b, row, id).Ok? then [Created(b, row, id)] else []
    case Commit(tx, id) =>
      if tx in s.open && CommitStale(s.db, s.open[tx], id).Ok?
      then [Executed(s.open[tx].b, s.open[tx].command, id)] else []
    case _ => []
  }

  function Committed(s: State, steps: seq<Step>): seq<Work>
    decreases steps
  {
    if steps == [] then [] else Commits(s, steps[0]) + Committed(Apply(s, steps[0]), steps[1..])
  }

  // The serial executions: each piece of work runs alone, from reading to committing.
  function Do(db: BookingDb, w: Work): Result<BookingDb, Error> {
    match w
    case Created(b, row, id) => CreateBooking(db, b, row, id)
    case Executed(b, c, id) => Execute(db, b, c, id)
  }

  function Serial(db: BookingDb, work: seq<Work>): Result<BookingDb, Error>
    decreases work
  {
    if work == [] then Ok(db)
    else
      match Do(db, work[0])
      case Err(e) => Err(e)
      case Ok(db') => Serial(db', work[1..])
  }

  // The event versions of a booking are exactly 2..version.
  ghost predicate Versioned(db: BookingDb) {
    && (forall i | 0 <= i < |db.events| ::
          db.events[i].key in db.rows && 2 <= db.events[i].value.version <= db.rows[db.events[i].key].version)
    && forall b, v | b in db.rows && 2 <= v <= db.rows[b].version :: VersionUsed(db.events, b, v)
  }

  // A row that was read is the current one, or an older version of it.
  ghost predicate Stale(db: BookingDb, t: Tx) {
    t.b in db.rows && t.read.version <= db.rows[t.b].version
    && (t.read.version == db.rows[t.b].version ==> t.read == db.rows[t.b]) && 1 <= t.read.version
  }

  ghost predicate Inv(s: State) {
    && Versioned(s.db)
    && (forall b | b in s.db.rows :: 1 <= s.db.rows[b].version)
    && forall tx | tx in s.open :: Stale(s.db, s.open[tx])
  }

  lemma DecisionsLog(row: BookingRow, c: Command)
    requires Decide(row, c).Ok?
    ensures var eff := Decide(row, c).value;
      |eff.events| >= 1 && eff.row.version == row.version + |eff.events|
      && Written(row, row, eff.row) == eff.row
  {
    SagaSafety.DecideByTable(row, c);
  }

  // The optimistic check: a transaction commits just as it would alone if nobody committed on its
  // booking since it read, and is refused otherwise.
  lemma CommitsOnlyIfCurrent(db: BookingDb, t: Tx, id: Uuid)
    requires Versioned(db) && Stale(db, t) && Decide(t.read, t.command).Ok?
    ensures CommitStale(db, t, id) ==
      if t.read.version == db.rows[t.b].version then Execute(db, t.b, t.command, id) else Err(ConcurrentUpdate)
  {
    hide Decide;
    DecisionsLog(t.read, t.command);
    if t.read.version < db.rows[t.b].version {
      assert VersionUsed(db.events, t.b, t.read.version + 1);
    }
  }

  lemma AppendKeepsVersioned(db: BookingDb, b: Uuid, row: BookingRow, version: nat, es: seq<Event>, db': BookingDb)
    requires Versioned(db) && row.version == version + |es| && version >= 1
    requires if b in db.rows then db.rows[b].version == version else version == 1
    requires db'.rows == db.rows[b := row] && db'.events == db.events + Tag(b, Stamp(version, es))
    ensures Versioned(db')
  {
    forall k, v | k in db'.rows && 2 <= v <= db'.rows[k].version ensures VersionUsed(db'.events, k, v) {
      if k in db.rows && v <= db.rows[k].version {
        assert VersionUsed(db.events, k, v);
        var i :| 0 <= i < |db.events| && db.events[i].key == k && db.events[i].value.version == v;
        assert db'.events[i] == db.events[i];
      } else {
        var j := v - version - 1;
        assert db'.events[|db.events| + j] == Row(b, Stored(version + 1 + j, es[j]));
      }
    }
  }

  lemma ExecuteKeepsInv(s: State, b: Uuid, c: Command, id: Uuid)
    requires Inv(s) && Execute(s.db, b, c, id).Ok?
    ensures Inv(s.(db := Execute(s.db, b, c, id).value))
  {
    hide Decide, Versioned;
    var row := s.db.rows[b];
    DecisionsLog(row, c);
    AppendKeepsVersioned(s.db, b, Decide(row, c).value.row, row.version, Decide(row, c).value.events,
      Execute(s.db, b, c, id).value);
  }

  lemma CreateKeepsInv(s: State, b: Uuid, row: BookingRow, id: Uuid)
    requires Inv(s) && row.version == 1 && CreateBooking(s.db, b, row, id).Ok?
    ensures Inv(s.(db := CreateBooking(s.db, b, row, id).value))
  {
    hide Versioned;
    AppendKeepsVersioned(s.db, b, row.(version := 2), 1, [BookingRequested], CreateBooking(s.db, b, row, id).value);
  }

  // One step commits nothing, or exactly what running its work alone on the current tables commits.
  lemma StepIsSerial(s: State, step: Step)
    requires Inv(s)
    ensures Inv(Apply(s, step)) && Serial(s.db, Commits(s, step)) == Ok(Apply(s, step).db)
  {
    hide Versioned, Execute, CreateBooking, CommitStale, Decide;
    match step {
      case Insert(b, row, id) =>
        if row.version == 1 && CreateBooking(s.db, b, row, id).Ok? { CreateKeepsInv(s, b, row, id); }
      case Commit(tx, id) =>
        if tx in s.open && CommitStale(s.db, s.open[tx], id).Ok? {
          var t := s.open[tx];
          CommitNeedsDecision(s.db, t, id);
          CommitsOnlyIfCurrent(s.db, t, id);
          ExecuteKeepsInv(s, t.b, t.command, id);
        }
      case _ =>
    }
  }

  lemma CommitNeedsDecision(db: BookingDb, t: Tx, id: Uuid)
    requires CommitStale(db, t, id).Ok?
    ensures Decide(t.read, t.command).Ok?
  {
  }

  lemma {:induction false} SerialConcat(db: BookingDb, a: seq<Work>, b: seq<Work>)
    requires Serial(db, a).Ok?
    ensures Serial(db, a + b) == Serial(Serial(db, a).value, b)
    decreases a
  {
    if a == [] {
      assert a + b == b;
    } else {
      assert (a + b)[1..] == a[1..] + b;
      SerialConcat(Do(db, a[0]).value, a[1..], b);
    }
  }

  lemma {:induction false} InterleavingIsSerial(s: State, steps: seq<Step>)
    requires Inv(s)
    ensures Inv(Run(s, steps)) && Serial(s.db, Committed(s, steps)) == Ok(Run(s, steps).db)
    decreases steps
  {
    hide Inv, Apply, Commits, Do;
    if steps != [] {
      StepIsSerial(s, steps[0]);
      InterleavingIsSerial(Apply(s, steps[0]), steps[1..]);
      SerialConcat(s.db, Commits(s, steps[0]), Committed(Apply(s, steps[0]), steps[1..]));
    }
  }

  // From an empty database, any interleaving of transactions leaves the tables that running the
  // committed ones one after another, in commit order, leaves; none of them fails when run so.
  lemma Serializable(steps: seq<Step>)
    ensures var s0 := State(BookingDb(map[], [], [], {}), map[]);
      Serial(s0.db, Committed(s0, steps)) == Ok(Run(s0, steps).db)
  {
    InterleavingIsSerial(State(BookingDb(map[], [], [], {}), map[]), steps);
  }
}
