/**
  The listing service's vehicles and the events it tells search about them (services/listing/service.py).
  A vehicle's editable columns are kept as a map from column to value, as the source's dictionaries do.
*/
module Listing {
  import opened Tables

  datatype Field = Make | Model | Year | DailyPriceCents | DailyMileageLimit | BookingMode | Latitude | Longitude

  datatype Value = Text(text: string) | Number(number: int) | Coordinate(degrees: real)

  type Fields = map<Field, Value>

  const MUTABLE_VEHICLE_FIELDS :=
    [Make, Model, Year, DailyPriceCents, DailyMileageLimit, BookingMode, Latitude, Longitude]

  datatype Approval = Pending | Approved | Rejected

  datatype Vehicle = Vehicle(hostId: Uuid, fields: Fields, approval: Approval)

  // What an event carries: the vehicle as it is after the change.
  datatype Snapshot = Snapshot(vehicleId: Uuid, hostId: Uuid, fields: Fields, approval: Approval)

  // An outbox row: the event's type and what it carries.
  datatype Posted = Posted(eventType: string, data: Snapshot)

  // `order` is the vehicles' (created_at, id) order, which paging follows.
  datatype ListingDb = ListingDb(vehicles: map<Uuid, Vehicle>, order: seq<Uuid>, outbox: seq<Posted>)

  datatype ListingError = VehicleNotFound | NotVehicleOwner | InvalidApprovalTransition | DuplicateId

  datatype Operation =
    | Create(id: Uuid, hostId: Uuid, fields: Fields)
    | Edit(id: Uuid, hostId: Uuid, changes: Fields)
    | Approve(id: Uuid)
    | Reject(id: Uuid)

  function SnapshotOf(id: Uuid, v: Vehicle): Snapshot {
    Snapshot(id, v.hostId, v.fields, v.approval)
  }

  // Only the changes to editable columns take effect; every column is one.
  function Merged(fields: Fields, changes: Fields, columns: seq<Field>): Fields {
    map f | f in fields.Keys + (set c | c in columns && c in changes) ::
      if f in columns && f in changes then changes[f] else fields[f]
  }

  lemma NothingMerged(fields: Fields, changes: Fields)
    ensures Merged(fields, changes, []) == fields
  {
  }

  lemma MergeOneMore(fields: Fields, changes: Fields, columns: seq<Field>, f: Field)
    ensures Merged(fields, changes, columns + [f])
      == if f in changes then Merged(fields, changes, columns)[f := changes[f]] else Merged(fields, changes, columns)
  {
  }

  function Execute(db: ListingDb, op: Operation): Result<ListingDb, ListingError> {
    match op
    case Create(id, hostId, fields) =>
      if id in db.vehicles then Err(DuplicateId)
      else Ok(db.(vehicles := db.vehicles[id := Vehicle(hostId, fields, Pending)], order := db.order + [id]))
    case Edit(id, hostId, changes) =>
      if id !in db.vehicles then Err(VehicleNotFound)
      else if db.vehicles[id].hostId != hostId then Err(NotVehicleOwner)
      else
        var v := db.vehicles[id].(fields := Merged(db.vehicles[id].fields, changes, MUTABLE_VEHICLE_FIELDS));
        Ok(db.(vehicles := db.vehicles[id := v], outbox := db.outbox + [Posted("vehicle_updated", SnapshotOf(id, v))]))
    case Approve(id) =>
      if id !in db.vehicles then Err(VehicleNotFound)
      else if db.vehicles[id].approval != Pending then Err(InvalidApprovalTransition)
      else
        var v := db.vehicles[id].(approval := Approved);
        Ok(db.(vehicles := db.vehicles[id := v], outbox := db.outbox + [Posted("vehicle_approved", SnapshotOf(id, v))]))
    case Reject(id) =>
      if id !in db.vehicles then Err(VehicleNotFound)
      else if db.vehicles[id].approval != Pending then Err(InvalidApprovalTransition)
      else Ok(db.(vehicles := db.vehicles[id := db.vehicles[id].(approval := Rejected)]))
  }

  // A serial history; operations that fail change nothing.
  function After(db: ListingDb, ops: seq<Operation>): ListingDb
    decreases ops
  {
    if ops == [] then db
    else After(match Execute(db, ops[0]) case Ok(d) => d case Err(_) => db, ops[1..])
  }

  // ----- what operations mean, column by column -----

  // Which error an operation gets, if any.
  function Refusal(db: ListingDb, op: Operation): Option<ListingError> {
    match op
    case Create(id, _, _) => if id in db.vehicles then Some(DuplicateId) else None
    case Edit(id, hostId, _) =>
      if id !in db.vehicles then Some(VehicleNotFound)
      else if db.vehicles[id].hostId != hostId then Some(NotVehicleOwner) else None
    case Approve(id) =>
      if id !in db.vehicles then Some(VehicleNotFound)
      else if db.vehicles[id].approval != Pending then Some(InvalidApprovalTransition) else None
    case Reject(id) =>
      if id !in db.vehicles then Some(VehicleNotFound)
      else if db.vehicles[id].approval != Pending then Some(InvalidApprovalTransition) else None
  }

  // The vehicle an operation leaves: a new one is pending; an edit changes the named columns to the named
  // values, all of them and no others; a decision changes the approval alone.
  function Outcome(db: ListingDb, op: Operation): Vehicle
    requires Refusal(db, op).None?
  {
    match op
    case Create(_, hostId, fields) => Vehicle(hostId, fields, Pending)
    case Edit(id, hostId, changes) => Vehicle(hostId, db.vehicles[id].fields + changes, db.vehicles[id].approval)
    case Approve(id) => Vehicle(db.vehicles[id].hostId, db.vehicles[id].fields, Approved)
    case Reject(id) => Vehicle(db.vehicles[id].hostId, db.vehicles[id].fields, Rejected)
  }

  lemma EveryColumnMerges(fields: Fields, changes: Fields)
    ensures Merged(fields, changes, MUTABLE_VEHICLE_FIELDS) == fields + changes
  {
    forall f: Field ensures f in MUTABLE_VEHICLE_FIELDS {
      match f {
        case Make => assert MUTABLE_VEHICLE_FIELDS[0] == f;
        case Model => assert MUTABLE_VEHICLE_FIELDS[1] == f;
        case Year => assert MUTABLE_VEHICLE_FIELDS[2] == f;
        case DailyPriceCents => assert MUTABLE_VEHICLE_FIELDS[3] == f;
        case DailyMileageLimit => assert MUTABLE_VEHICLE_FIELDS[4] == f;
        case BookingMode => assert MUTABLE_VEHICLE_FIELDS[5] == f;
        case Latitude => assert MUTABLE_VEHICLE_FIELDS[6] == f;
        case Longitude => assert MUTABLE_VEHICLE_FIELDS[7] == f;
      }
    }
  }

  // An operation commits unless it is refused; it changes its own vehicle only, and an edit or an approval
  // posts one event carrying exactly the vehicle as it now is.
  lemma OperationMeans(db: ListingDb, op: Operation)
    ensures Refusal(db, op).Some? ==> Execute(db, op) == Err(Refusal(db, op).value)
    ensures Refusal(db, op).None? ==> var v := Outcome(db, op);
      Execute(db, op) == Ok(ListingDb(
        db.vehicles[op.id := v],
        if op.Create? then db.order + [op.id] else db.order,
        db.outbox + (match op
          case Edit(id, _, _) => [Posted("vehicle_updated", Snapshot(id, v.hostId, v.fields, v.approval))]
          case Approve(id) => [Posted("vehicle_approved", Snapshot(id, v.hostId, v.fields, v.approval))]
          case _ => [])))
  {
    assert db.outbox + [] == db.outbox;
    if op.Edit? && Refusal(db, op).None? { EveryColumnMerges(db.vehicles[op.id].fields, op.changes); }
  }

  // The operations of a history that commit.
  function Committed(db: ListingDb, ops: seq<Operation>): seq<Operation>
    decreases ops
  {
    if ops == [] then []
    else
      match Execute(db, ops[0])
      case Ok(d) => [ops[0]] + Committed(d, ops[1..])
      case Err(_) => Committed(db, ops[1..])
  }

  // The value a committed operation gives a column of a vehicle, if any.
  function Gives(op: Operation, id: Uuid, f: Field): Option<Value> {
    match op
    case Create(i, _, fields) => if i == id && f in fields then Some(fields[f]) else None
    case Edit(i, _, changes) => if i == id && f in changes then Some(changes[f]) else None
    case _ => None
  }

  // The last value given, or `before` if none was.
  function LastGiven(before: Option<Value>, ops: seq<Operation>, id: Uuid, f: Field): Option<Value>
    decreases ops
  {
    if ops == [] then before
    else LastGiven(if Gives(ops[0], id, f).Some? then Gives(ops[0], id, f) else before, ops[1..], id, f)
  }

  function Column(db: ListingDb, id: Uuid, f: Field): Option<Value> {
    if id in db.vehicles && f in db.vehicles[id].fields then Some(db.vehicles[id].fields[f]) else None
  }

  // After any history every column of every vehicle holds the value the last committed operation gave it.
  lemma {:induction false} ColumnIsLastGiven(db: ListingDb, ops: seq<Operation>, id: Uuid, f: Field)
    ensures Column(After(db, ops), id, f) == LastGiven(Column(db, id, f), Committed(db, ops), id, f)
    decreases ops
  {
    if ops != [] {
      hide Execute, Merged;
      OperationMeans(db, ops[0]);
      match Execute(db, ops[0]) {
        case Ok(d) =>
          ColumnIsLastGiven(d, ops[1..], id, f);
          assert ([ops[0]] + Committed(d, ops[1..]))[1..] == Committed(d, ops[1..]);
        case Err(_) => ColumnIsLastGiven(db, ops[1..], id, f);
      }
    }
  }

  // A retried creation draws a new id.
  function Retried(op: Operation, again: Uuid): Operation {
    match op
    case Create(_, hostId, fields) => Create(again, hostId, fields)
    case _ => op
  }

  // What no operation changes back: a vehicle keeps its owner, and a decision on it stays.
  ghost predicate Settled(db: ListingDb, later: ListingDb) {
    forall id | id in db.vehicles ::
      && id in later.vehicles && later.vehicles[id].hostId == db.vehicles[id].hostId
      && (db.vehicles[id].approval != Pending ==> later.vehicles[id].approval == db.vehicles[id].approval)
  }

  lemma {:induction false} HistorySettles(db: ListingDb, ops: seq<Operation>)
    ensures Settled(db, After(db, ops))
    decreases ops
  {
    if ops != [] {
      var next := match Execute(db, ops[0]) case Ok(d) => d case Err(_) => db;
      assert Settled(db, next);
      HistorySettles(next, ops[1..]);
    }
  }

  // The same request again, at any time: an edit, and a creation under the new id it draws, commit again; a
  // moderator's decision does not.
  lemma RepeatedOperation(db: ListingDb, op: Operation, ops: seq<Operation>, again: Uuid)
    requires Execute(db, op).Ok? && again !in After(Execute(db, op).value, ops).vehicles
    ensures Execute(After(Execute(db, op).value, ops), Retried(op, again)).Ok? <==> op.Create? || op.Edit?
  {
    HistorySettles(Execute(db, op).value, ops);
  }

  // ----- the code as it runs -----

  class ListingSession {
    var vehicles: map<Uuid, Vehicle>
    var order: seq<Uuid>
    var outbox: seq<Posted>

    constructor (db: ListingDb)
      ensures Db() == db
    {
      vehicles, order, outbox := db.vehicles, db.order, db.outbox;
    }

    function Db(): ListingDb
      reads this
    {
      ListingDb(vehicles, order, outbox)
    }

    // Applies the changed columns one by one to a vehicle of the session.
    method SetFields(id: Uuid, changes: Fields)
      requires id in vehicles
      modifies this`vehicles
      ensures vehicles == old(vehicles)[id := old(vehicles)[id].(fields :=
        Merged(old(vehicles)[id].fields, changes, MUTABLE_VEHICLE_FIELDS))]
    {
      hide Merged;
      NothingMerged(vehicles[id].fields, changes);
      var n := 0;
      ghost var was := vehicles[id];
      while n < |MUTABLE_VEHICLE_FIELDS|
        invariant 0 <= n <= |MUTABLE_VEHICLE_FIELDS|
        invariant id in vehicles && vehicles == old(vehicles)[id := vehicles[id]]
        invariant vehicles[id] == was.(fields := Merged(was.fields, changes, MUTABLE_VEHICLE_FIELDS[..n]))
      {
        var f := MUTABLE_VEHICLE_FIELDS[n];
        assert MUTABLE_VEHICLE_FIELDS[..n + 1] == MUTABLE_VEHICLE_FIELDS[..n] + [f];
        MergeOneMore(was.fields, changes, MUTABLE_VEHICLE_FIELDS[..n], f);
        if f in changes {
          vehicles := vehicles[id := vehicles[id].(fields := vehicles[id].fields[f := changes[f]])];
        }
        n := n + 1;
      }
      assert MUTABLE_VEHICLE_FIELDS[..n] == MUTABLE_VEHICLE_FIELDS;
    }

    method UpdateVehicle(id: Uuid, hostId: Uuid, changes: Fields) returns (r: Result<(), ListingError>)
      modifies this
      ensures match Execute(old(Db()), Edit(id, hostId, changes))
        case Ok(db) => r == Ok(()) && Db() == db
        case Err(e) => r == Err(e) && Db() == old(Db())
    {
      if id !in vehicles { return Err(VehicleNotFound); }
      if vehicles[id].hostId != hostId { return Err(NotVehicleOwner); }
      hide Merged;
      SetFields(id, changes);
      outbox := outbox + [Posted("vehicle_updated", SnapshotOf(id, vehicles[id]))];
      return Ok(());
    }

    method ApproveVehicle(id: Uuid) returns (r: Result<(), ListingError>)
      modifies this
      ensures match Execute(old(Db()), Approve(id))
        case Ok(db) => r == Ok(()) && Db() == db
        case Err(e) => r == Err(e) && Db() == old(Db())
    {
      if id !in vehicles { return Err(VehicleNotFound); }
      if vehicles[id].approval != Pending { return Err(InvalidApprovalTransition); }
      vehicles := vehicles[id := vehicles[id].(approval := Approved)];
      outbox := outbox + [Posted("vehicle_approved", SnapshotOf(id, vehicles[id]))];
      return Ok(());
    }

    method RejectVehicle(id: Uuid) returns (r: Result<(), ListingError>)
      modifies this
      ensures match Execute(old(Db()), Reject(id))
        case Ok(db) => r == Ok(()) && Db() == db
        case Err(e) => r == Err(e) && Db() == old(Db())
    {
      if id !in vehicles { return Err(VehicleNotFound); }
      if vehicles[id].approval != Pending { return Err(InvalidApprovalTransition); }
      vehicles := vehicles[id := vehicles[id].(approval := Rejected)];
      return Ok(());
    }
  }
}
