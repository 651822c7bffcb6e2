/**
  The search index as a view of the listing table (services/search): built from the event stream under
  redelivery, with and without deduplication, and rebuilt in bulk from listing's pages.
*/
module Search {
  import opened Tables
  import opened Listing

  datatype Document = Document(vehicleId: Uuid, hostId: Uuid, fields: Fields, location: Fields)

  type Index = map<Uuid, Document>

  const LOCATION := {Latitude, Longitude}

  function VehicleToDocument(s: Snapshot): Document {
    Document(s.vehicleId, s.hostId, s.fields - LOCATION, map f | f in s.fields && f in LOCATION :: s.fields[f])
  }

  // A document of this vehicle: its ids, its columns, and apart from them its two coordinates.
  ghost predicate Describes(d: Document, id: Uuid, v: Vehicle) {
    && d.vehicleId == id && d.hostId == v.hostId
    && (forall f :: f in d.fields <==> f in v.fields && f != Latitude && f != Longitude)
    && (forall f :: f in d.location <==> f in v.fields && (f == Latitude || f == Longitude))
    && (forall f | f in d.fields :: d.fields[f] == v.fields[f])
    && (forall f | f in d.location :: d.location[f] == v.fields[f])
  }

  // What a search answers about a document (services/search/schemas.py).
  datatype VehicleSearchResult = VehicleSearchResult(vehicleId: Uuid, hostId: Uuid, columns: Fields)

  function DocumentToResult(d: Document): VehicleSearchResult {
    VehicleSearchResult(d.vehicleId, d.hostId, d.fields + d.location)
  }

  // Reading a vehicle's document back gives its ids and every one of its columns.
  lemma ResultShowsVehicle(d: Document, id: Uuid, v: Vehicle)
    requires Describes(d, id, v)
    ensures DocumentToResult(d) == VehicleSearchResult(id, v.hostId, v.fields)
  {
    assert d.fields.Keys + d.location.Keys == v.fields.Keys;
  }

  // What one event makes of its vehicle's entry.
  function EffectOf(s: Snapshot): Option<Document> {
    if s.approval == Approved then Some(VehicleToDocument(s)) else None
  }

  function Set(index: Index, id: Uuid, doc: Option<Document>): Index {
    if doc.Some? then index[id := doc.value] else index - {id}
  }

  function Handled(index: Index, s: Snapshot): Index {
    Set(index, s.vehicleId, EffectOf(s))
  }

  class SearchRepository {
    var index: Index

    constructor (index: Index)
      ensures this.index == index
    {
      this.index := index;
    }

    method UpsertVehicle(id: Uuid, document: Document)
      modifies this
      ensures index == old(index)[id := document]
    {
      index := index[id := document];
    }

    method DeleteVehicle(id: Uuid)
      modifies this
      ensures index == old(index) - {id}
    {
      index := index - {id};
    }

    method HandleVehicleEvent(data: Snapshot)
      modifies this
      ensures index == Handled(old(index), data)
      ensures forall id | id != data.vehicleId :: Lookup(index, id) == Lookup(old(index), id)
      ensures data.vehicleId in index <==> data.approval == Approved
      ensures data.vehicleId in index ==>
        Describes(index[data.vehicleId], data.vehicleId, Vehicle(data.hostId, data.fields, data.approval))
    {
      if data.approval == Approved {
        UpsertVehicle(data.vehicleId, VehicleToDocument(data));
      } else {
        DeleteVehicle(data.vehicleId);
      }
    }
  }

  // The index after a list of events.
  function IndexAfter(index: Index, events: seq<Snapshot>): Index {
    if events == [] then index
    else Handled(IndexAfter(index, events[..|events| - 1]), events[|events| - 1])
  }

  // The approved vehicles with their current fields.
  function ApprovedView(vehicles: map<Uuid, Vehicle>): Index {
    map id | id in vehicles && vehicles[id].approval == Approved :: VehicleToDocument(SnapshotOf(id, vehicles[id]))
  }

  // ----- consuming the stream -----

  // The event types the processor handles; others are ignored.
  const LISTING_EVENT_TYPES := ["vehicle_approved", "vehicle_updated"]

  // What the processor takes from listing's outbox.
  function Heard(outbox: seq<Posted>): seq<Snapshot> {
    if outbox == [] then []
    else
      var last := outbox[|outbox| - 1];
      Heard(outbox[..|outbox| - 1]) + if last.eventType in LISTING_EVENT_TYPES then [last.data] else []
  }

  lemma HeardMore(outbox: seq<Posted>, p: Posted)
    requires p.eventType == "vehicle_approved" || p.eventType == "vehicle_updated"
    ensures Heard(outbox + [p]) == Heard(outbox) + [p.data]
  {
    assert (outbox + [p])[..|outbox|] == outbox;
    assert LISTING_EVENT_TYPES[0] == "vehicle_approved" && LISTING_EVENT_TYPES[1] == "vehicle_updated";
  }

  lemma IndexGrows(index: Index, events: seq<Snapshot>, s: Snapshot)
    ensures IndexAfter(index, events + [s]) == Handled(IndexAfter(index, events), s)
  {
    assert (events + [s])[..|events|] == events;
  }

  lemma ViewFollows(vehicles: map<Uuid, Vehicle>, id: Uuid, v: Vehicle)
    ensures ApprovedView(vehicles[id := v]) == Handled(ApprovedView(vehicles), SnapshotOf(id, v))
  {
  }

  // Operations that send no event leave the view alone: they never touch an approved vehicle.
  lemma SilentOperation(vehicles: map<Uuid, Vehicle>, id: Uuid, v: Vehicle)
    requires v.approval != Approved && (id in vehicles ==> vehicles[id].approval != Approved)
    ensures ApprovedView(vehicles[id := v]) == ApprovedView(vehicles)
  {
  }

  lemma StepKeepsView(db: ListingDb, op: Operation)
    requires IndexAfter(map[], Heard(db.outbox)) == ApprovedView(db.vehicles) && Execute(db, op).Ok?
    ensures var db' := Execute(db, op).value; IndexAfter(map[], Heard(db'.outbox)) == ApprovedView(db'.vehicles)
  {
    hide ApprovedView, Handled, IndexAfter, Heard, Execute;
    OperationMeans(db, op);
    var v := Outcome(db, op);
    if op.Edit? || op.Approve? {
      var db' := Execute(db, op).value;
      HeardMore(db.outbox, db'.outbox[|db.outbox|]);
      IndexGrows(map[], Heard(db.outbox), SnapshotOf(op.id, v));
      ViewFollows(db.vehicles, op.id, v);
    } else {
      assert Execute(db, op).value.outbox == db.outbox;
      SilentOperation(db.vehicles, op.id, v);
    }
  }

  // Consuming the whole event log of any serial history gives exactly the approved vehicles, with
  // their current fields.
  lemma {:induction false} StreamBuildsView(db: ListingDb, ops: seq<Operation>)
    requires IndexAfter(map[], Heard(db.outbox)) == ApprovedView(db.vehicles)
    ensures IndexAfter(map[], Heard(After(db, ops).outbox)) == ApprovedView(After(db, ops).vehicles)
    decreases ops
  {
    if ops != [] {
      match Execute(db, ops[0]) {
        case Ok(d) => StepKeepsView(db, ops[0]); StreamBuildsView(d, ops[1..]);
        case Err(_) => StreamBuildsView(db, ops[1..]);
      }
    }
  }

  // ----- redelivery -----

  // A vehicle's entry is decided by the last of its events.
  lemma {:induction false} EntryAfter(index: Index, events: seq<Snapshot>, v: Uuid, j: nat)
    requires j < |events| && events[j].vehicleId == v
    requires forall i | j < i < |events| :: events[i].vehicleId != v
    ensures Lookup(IndexAfter(index, events), v) == EffectOf(events[j])
  {
    if j < |events| - 1 {
      EntryAfter(index, events[..|events| - 1], v, j);
    }
  }

  lemma {:induction false} EntryUntouched(index: Index, events: seq<Snapshot>, v: Uuid)
    requires forall i | 0 <= i < |events| :: events[i].vehicleId != v
    ensures Lookup(IndexAfter(index, events), v) == Lookup(index, v)
  {
    if events != [] {
      EntryUntouched(index, events[..|events| - 1], v);
    }
  }

  function Delivered<T>(log: seq<T>, trace: seq<nat>): seq<T>
    requires forall i | 0 <= i < |trace| :: trace[i] < |log|
  {
    seq(|trace|, i requires 0 <= i < |trace| => log[trace[i]])
  }

  // Offsets as a restarting consumer delivers them: from the start, one forward or back to any earlier.
  predicate Trace<T>(log: seq<T>, trace: seq<nat>) {
    && (forall i | 0 <= i < |trace| :: trace[i] < |log|)
    && (trace != [] ==> trace[0] == 0)
    && forall i | 0 <= i < |trace| - 1 :: trace[i + 1] <= trace[i] + 1
  }

  // Once a trace is at or past a vehicle's last event, that event is the last of them delivered.
  lemma {:induction false} LastEventWins(log: seq<Snapshot>, trace: seq<nat>, v: Uuid, j: nat)
    requires Trace(log, trace) && trace != [] && trace[|trace| - 1] >= j
    requires j < |log| && log[j].vehicleId == v && forall i | j < i < |log| :: log[i].vehicleId != v
    ensures Lookup(IndexAfter(map[], Delivered(log, trace)), v) == EffectOf(log[j])
  {
    var init := trace[..|trace| - 1];
    assert Delivered(log, trace)[..|trace| - 1] == Delivered(log, init);
    if trace[|trace| - 1] > j {
      LastEventWins(log, init, v, j);
    }
  }

  lemma {:induction false} LastEventOf(log: seq<Snapshot>, v: Uuid) returns (j: Option<nat>)
    ensures j.None? ==> forall i | 0 <= i < |log| :: log[i].vehicleId != v
    ensures j.Some? ==>
      j.value < |log| && log[j.value].vehicleId == v && forall i | j.value < i < |log| :: log[i].vehicleId != v
  {
    if log == [] {
      j := None;
    } else if log[|log| - 1].vehicleId == v {
      j := Some(|log| - 1);
    } else {
      j := LastEventOf(log[..|log| - 1], v);
    }
  }

  lemma SameEntries(a: Index, b: Index)
    requires forall v :: Lookup(a, v) == Lookup(b, v)
    ensures a == b
  {
    assert forall v :: v in a <==> Lookup(a, v).Some?;
    assert forall v :: v in b <==> Lookup(b, v).Some?;
    assert forall v | v in a :: a[v] == Lookup(a, v).value == Lookup(b, v).value == b[v];
  }

  // Without deduplication, however often parts of the log are delivered again, a consumer that has
  // reached its end holds the same index as one that read it once.
  lemma RedeliveryConverges(log: seq<Snapshot>, trace: seq<nat>)
    requires Trace(log, trace) && trace != [] && trace[|trace| - 1] == |log| - 1
    ensures IndexAfter(map[], Delivered(log, trace)) == IndexAfter(map[], log)
  {
    var a, b := IndexAfter(map[], Delivered(log, trace)), IndexAfter(map[], log);
    forall v ensures Lookup(a, v) == Lookup(b, v) {
      var j := LastEventOf(log, v);
      match j {
        case Some(i) => LastEventWins(log, trace, v, i); EntryAfter(map[], log, v, i);
        case None => EntryUntouched(map[], Delivered(log, trace), v); EntryUntouched(map[], log, v);
      }
    }
    SameEntries(a, b);
  }

  // ----- deduplication by claims that expire -----

  datatype Event = Event(id: Uuid, data: Snapshot)

  // The index and the event ids whose Redis claim has not expired.
  datatype Deduped = Deduped(index: Index, claimed: set<Uuid>)

  function Process(p: Deduped, e: Event): Deduped {
    if e.id in p.claimed then p else Deduped(Handled(p.index, e.data), p.claimed + {e.id})
  }

  function Feed(p: Deduped, events: seq<Event>): Deduped {
    if events == [] then p else Process(Feed(p, events[..|events| - 1]), events[|events| - 1])
  }

  function Datas(events: seq<Event>): seq<Snapshot> {
    seq(|events|, i requires 0 <= i < |events| => events[i].data)
  }

  predicate DistinctIds(events: seq<Event>) {
    forall i, j | 0 <= i < j < |events| :: events[i].id != events[j].id
  }

  // The events of a pass whose claims are gone.
  function Reapplied(events: seq<Event>, claimed: set<Uuid>): seq<Snapshot> {
    if events == [] then []
    else
      var e := events[|events| - 1];
      Reapplied(events[..|events| - 1], claimed) + if e.id in claimed then [] else [e.data]
  }

  lemma {:induction false} FeedClaims(p: Deduped, events: seq<Event>)
    ensures p.claimed <= Feed(p, events).claimed
    ensures forall i | 0 <= i < |events| :: events[i].id in Feed(p, events).claimed
    ensures forall x | x in Feed(p, events).claimed && x !in p.claimed ::
      exists i | 0 <= i < |events| :: events[i].id == x
  {
    if events != [] {
      var init, e := events[..|events| - 1], events[|events| - 1];
      FeedClaims(p, init);
      forall x | x in Feed(p, events).claimed && x !in p.claimed
        ensures exists i | 0 <= i < |events| :: events[i].id == x
      {
        if x in Feed(p, init).claimed {
          var i :| 0 <= i < |init| && init[i].id == x;
          assert events[i].id == x;
        } else {
          assert events[|init|].id == x;
        }
      }
    }
  }

  lemma {:induction false} FeedReapplies(p: Deduped, events: seq<Event>)
    requires DistinctIds(events)
    ensures Feed(p, events).index == IndexAfter(p.index, Reapplied(events, p.claimed))
  {
    if events != [] {
      var init, e := events[..|events| - 1], events[|events| - 1];
      FeedReapplies(p, init);
      FeedClaims(p, init);
      if e.id in p.claimed {
        assert Reapplied(events, p.claimed) == Reapplied(init, p.claimed);
      } else {
        assert forall i | 0 <= i < |init| :: init[i] == events[i];
        assert e.id !in Feed(p, init).claimed;
        IndexGrows(p.index, Reapplied(init, p.claimed), e.data);
      }
    }
  }

  // How much of the log a trace has delivered.
  function Reached(trace: seq<nat>): nat {
    if trace == [] then 0
    else
      var before, next := Reached(trace[..|trace| - 1]), trace[|trace| - 1] + 1;
      if next > before then next else before
  }

  lemma {:induction false} ReachedWithin<T>(log: seq<T>, trace: seq<nat>)
    requires Trace(log, trace)
    ensures Reached(trace) <= |log| && forall i | 0 <= i < |trace| :: trace[i] < Reached(trace)
  {
    if trace != [] {
      ReachedWithin(log, trace[..|trace| - 1]);
    }
  }

  // While no claim has expired, any trace leaves the index, and the claims, of one reading of as much of
  // the log as it has reached: what it delivers again is skipped.
  lemma {:induction false} DedupedTrace(events: seq<Event>, trace: seq<nat>)
    requires Trace(events, trace)
    ensures Reached(trace) <= |events|
    ensures Feed(Deduped(map[], {}), Delivered(events, trace)) == Feed(Deduped(map[], {}), events[..Reached(trace)])
  {
    ReachedWithin(events, trace);
    if trace != [] {
      var init, last := trace[..|trace| - 1], trace[|trace| - 1];
      DedupedTrace(events, init);
      ReachedWithin(events, init);
      assert Delivered(events, trace)[..|trace| - 1] == Delivered(events, init);
      var read := events[..Reached(init)];
      if last < Reached(init) {
        FeedClaims(Deduped(map[], {}), read);
        assert read[last] == events[last];
      } else {
        assert |init| > 0 ==> init[|init| - 1] < Reached(init);
        assert last == Reached(init);
        assert events[..last + 1][..last] == read;
      }
    }
  }

  lemma DedupedStream(events: seq<Event>, trace: seq<nat>)
    requires DistinctIds(events) && Trace(events, trace)
    ensures Reached(trace) <= |events|
    ensures Feed(Deduped(map[], {}), Delivered(events, trace)).index
      == IndexAfter(map[], Datas(events[..Reached(trace)]))
  {
    DedupedTrace(events, trace);
    FirstReading(events[..Reached(trace)]);
  }

  lemma FirstReading(events: seq<Event>)
    requires DistinctIds(events)
    ensures Feed(Deduped(map[], {}), events).index == IndexAfter(map[], Datas(events))
  {
    FeedReapplies(Deduped(map[], {}), events);
    NothingClaimed(events, {});
  }

  // In particular whatever is delivered again after the whole log was read is skipped whole.
  lemma RedeliveredSuffixIsSkipped(events: seq<Event>, from: nat)
    requires DistinctIds(events) && from <= |events|
    ensures var p := Feed(Deduped(map[], {}), events);
      p.index == IndexAfter(map[], Datas(events)) && Feed(p, events[from..]) == p
  {
    var p := Feed(Deduped(map[], {}), events);
    FirstReading(events);
    FeedClaims(Deduped(map[], {}), events);
    forall i | 0 <= i < |events[from..]| ensures events[from..][i].id in p.claimed {
      assert events[from..][i] == events[from + i];
    }
    AllClaimed(p, events[from..]);
  }

  lemma {:induction false} NothingClaimed(events: seq<Event>, claimed: set<Uuid>)
    requires forall i | 0 <= i < |events| :: events[i].id !in claimed
    ensures Reapplied(events, claimed) == Datas(events)
  {
    if events != [] { NothingClaimed(events[..|events| - 1], claimed); }
  }

  lemma {:induction false} AllClaimed(p: Deduped, events: seq<Event>)
    requires forall i | 0 <= i < |events| :: events[i].id in p.claimed
    ensures Feed(p, events) == p
  {
    if events != [] { AllClaimed(p, events[..|events| - 1]); }
  }

  // Each vehicle's last reapplied event says what the index already shows for that vehicle.
  predicate Harmless(index: Index, again: seq<Snapshot>) {
    forall k | 0 <= k < |again| && (forall i | k < i < |again| :: again[i].vehicleId != again[k].vehicleId) ::
      EffectOf(again[k]) == Lookup(index, again[k].vehicleId)
  }

  // A redelivery leaves any index as it is exactly when what it reapplies is harmless.
  lemma RedeliveryLeavesIndexExactly(p: Deduped, events: seq<Event>)
    requires DistinctIds(events)
    ensures Feed(p, events).index == p.index <==> Harmless(p.index, Reapplied(events, p.claimed))
  {
    var again := Reapplied(events, p.claimed);
    var after := IndexAfter(p.index, again);
    FeedReapplies(p, events);
    forall k | 0 <= k < |again| && (forall i | k < i < |again| :: again[i].vehicleId != again[k].vehicleId)
      ensures Lookup(after, again[k].vehicleId) == EffectOf(again[k])
    {
      EntryAfter(p.index, again, again[k].vehicleId, k);
    }
    if Harmless(p.index, again) {
      forall v ensures Lookup(after, v) == Lookup(p.index, v) {
        var j := LastEventOf(again, v);
        if j.None? { EntryUntouched(p.index, again, v); }
      }
      SameEntries(after, p.index);
    }
  }

  // Event k is the last of its vehicle among those delivered again whose claim has expired.
  predicate LastReapplied(events: seq<Event>, expired: set<Uuid>, from: nat, k: nat) {
    from <= k < |events| && events[k].id in expired
    && forall i | k < i < |events| && events[i].data.vehicleId == events[k].data.vehicleId :: events[i].id !in expired
  }

  predicate LastOfVehicle(events: seq<Event>, k: nat, j: nat) {
    k <= j < |events| && events[j].data.vehicleId == events[k].data.vehicleId
    && forall i | j < i < |events| :: events[i].data.vehicleId != events[k].data.vehicleId
  }

  lemma {:induction false} ReappliedEntry(index: Index, events: seq<Event>, claimed: set<Uuid>, k: nat)
    requires k < |events| && events[k].id !in claimed
    requires forall i | k < i < |events| && events[i].data.vehicleId == events[k].data.vehicleId ::
      events[i].id in claimed
    ensures Lookup(IndexAfter(index, Reapplied(events, claimed)), events[k].data.vehicleId) == EffectOf(events[k].data)
  {
    var init, e := events[..|events| - 1], events[|events| - 1];
    if e.id !in claimed {
      IndexGrows(index, Reapplied(init, claimed), e.data);
    } else {
      assert Reapplied(events, claimed) == Reapplied(init, claimed);
    }
    if k < |events| - 1 { ReappliedEntry(index, init, claimed, k); }
  }

  lemma {:induction false} NotReapplied(index: Index, events: seq<Event>, claimed: set<Uuid>, v: Uuid)
    requires forall i | 0 <= i < |events| && events[i].data.vehicleId == v :: events[i].id in claimed
    ensures Lookup(IndexAfter(index, Reapplied(events, claimed)), v) == Lookup(index, v)
  {
    if events != [] {
      var init, e := events[..|events| - 1], events[|events| - 1];
      if e.id !in claimed {
        IndexGrows(index, Reapplied(init, claimed), e.data);
      } else {
        assert Reapplied(events, claimed) == Reapplied(init, claimed);
      }
      NotReapplied(index, init, claimed, v);
    }
  }

  // The last event of a vehicle whose claim has expired, at or after `from`.
  lemma {:induction false} LastReappliedOf(events: seq<Event>, expired: set<Uuid>, from: nat, v: Uuid)
    returns (k: Option<nat>)
    ensures k.None? ==> forall i | from <= i < |events| && events[i].data.vehicleId == v :: events[i].id !in expired
    ensures k.Some? ==> LastReapplied(events, expired, from, k.value) && events[k.value].data.vehicleId == v
  {
    if |events| <= from {
      k := None;
    } else if events[|events| - 1].data.vehicleId == v && events[|events| - 1].id in expired {
      k := Some(|events| - 1);
    } else {
      k := LastReappliedOf(events[..|events| - 1], expired, from, v);
    }
  }

  // Claims expire one by one, so a redelivery of a log that was read whole can find an old event's claim
  // gone and a newer one's still held. Afterwards the index is the right one exactly if, for each vehicle,
  // the last event delivered again without a claim says what the vehicle's last event says.
  lemma RedeliveryAfterExpiry(events: seq<Event>, expired: set<Uuid>, from: nat)
    requires DistinctIds(events) && from <= |events|
    ensures var p := Feed(Deduped(map[], {}), events);
      Feed(p.(claimed := p.claimed - expired), events[from..]).index == IndexAfter(map[], Datas(events))
      <==> forall k: nat, j: nat | LastReapplied(events, expired, from, k) && LastOfVehicle(events, k, j) ::
             EffectOf(events[k].data) == EffectOf(events[j].data)
  {
    hide Feed, Reapplied, EffectOf, IndexAfter;
    var p := Feed(Deduped(map[], {}), events);
    var after := Feed(p.(claimed := p.claimed - expired), events[from..]).index;
    DistinctSuffix(events, from);
    FeedReapplies(p.(claimed := p.claimed - expired), events[from..]);
    FirstReading(events);
    forall k: nat, j: nat | LastReapplied(events, expired, from, k) && LastOfVehicle(events, k, j)
      ensures Lookup(after, events[k].data.vehicleId) == EffectOf(events[k].data)
      ensures Lookup(p.index, events[k].data.vehicleId) == EffectOf(events[j].data)
    {
      EntryWhenReapplied(events, expired, from, k);
      EntryInStream(events, k, j);
    }
    if forall k: nat, j: nat | LastReapplied(events, expired, from, k) && LastOfVehicle(events, k, j) ::
      EffectOf(events[k].data) == EffectOf(events[j].data)
    {
      forall v ensures Lookup(after, v) == Lookup(p.index, v) {
        var k := LastReappliedOf(events, expired, from, v);
        match k {
          case Some(i) => var j := LastOfVehicleOf(events, i);
          case None => EntryWhenSkipped(events, expired, from, v);
        }
      }
      SameEntries(after, p.index);
    }
  }

  lemma DistinctSuffix(events: seq<Event>, from: nat)
    requires DistinctIds(events) && from <= |events|
    ensures DistinctIds(events[from..])
  {
    assert forall i | 0 <= i < |events| - from :: events[from..][i] == events[from + i];
  }

  lemma EntryInStream(events: seq<Event>, k: nat, j: nat)
    requires DistinctIds(events) && k < |events| && LastOfVehicle(events, k, j)
    ensures Lookup(Feed(Deduped(map[], {}), events).index, events[k].data.vehicleId) == EffectOf(events[j].data)
  {
    FirstReading(events);
    EntryAfter(map[], Datas(events), events[k].data.vehicleId, j);
  }

  lemma LastOfVehicleOf(events: seq<Event>, k: nat) returns (j: nat)
    requires k < |events|
    ensures LastOfVehicle(events, k, j)
  {
    var i := LastEventOf(Datas(events), events[k].data.vehicleId);
    assert Datas(events)[k].vehicleId == events[k].data.vehicleId;
    j := i.value;
    assert forall i | 0 <= i < |events| :: Datas(events)[i] == events[i].data;
  }

  lemma ExpiredAreUnclaimed(events: seq<Event>, expired: set<Uuid>)
    ensures forall i | 0 <= i < |events| ::
      events[i].id in Feed(Deduped(map[], {}), events).claimed - expired <==> events[i].id !in expired
  {
    FeedClaims(Deduped(map[], {}), events);
  }

  lemma EntryWhenReapplied(events: seq<Event>, expired: set<Uuid>, from: nat, k: nat)
    requires from <= |events| && LastReapplied(events, expired, from, k)
    ensures var p := Feed(Deduped(map[], {}), events);
      Lookup(IndexAfter(p.index, Reapplied(events[from..], p.claimed - expired)), events[k].data.vehicleId)
      == EffectOf(events[k].data)
  {
    var p := Feed(Deduped(map[], {}), events);
    ExpiredAreUnclaimed(events, expired);
    assert forall i | 0 <= i < |events| - from :: events[from..][i] == events[from + i];
    ReappliedEntry(p.index, events[from..], p.claimed - expired, k - from);
  }

  lemma EntryWhenSkipped(events: seq<Event>, expired: set<Uuid>, from: nat, v: Uuid)
    requires from <= |events|
    requires forall i | from <= i < |events| && events[i].data.vehicleId == v :: events[i].id !in expired
    ensures var p := Feed(Deduped(map[], {}), events);
      Lookup(IndexAfter(p.index, Reapplied(events[from..], p.claimed - expired)), v) == Lookup(p.index, v)
  {
    var p := Feed(Deduped(map[], {}), events);
    ExpiredAreUnclaimed(events, expired);
    assert forall i | 0 <= i < |events| - from :: events[from..][i] == events[from + i];
    NotReapplied(p.index, events[from..], p.claimed - expired, v);
  }

  // A vehicle approved, then repriced; the approval's claim expires first. Reading both again puts the
  // old price back and skips the event that would correct it.
  lemma ExpiredClaimRevertsAnUpdate(v: Uuid, hostId: Uuid)
    ensures var cheap, dear := Snapshot(v, hostId, map[DailyPriceCents := Number(4000)], Approved),
                              Snapshot(v, hostId, map[DailyPriceCents := Number(5000)], Approved);
      var events := [Event(1, cheap), Event(2, dear)];
      var p := Feed(Deduped(map[], {}), events);
      && p.index == map[v := VehicleToDocument(dear)]
      && Feed(p.(claimed := p.claimed - {1}), events).index == map[v := VehicleToDocument(cheap)]
      && VehicleToDocument(cheap) != VehicleToDocument(dear)
  {
    var cheap, dear := Snapshot(v, hostId, map[DailyPriceCents := Number(4000)], Approved),
                      Snapshot(v, hostId, map[DailyPriceCents := Number(5000)], Approved);
    var e1, e2 := Event(1, cheap), Event(2, dear);
    FeedTwo(Deduped(map[], {}), e1, e2);
    var p := Feed(Deduped(map[], {}), [e1, e2]);
    FeedTwo(p.(claimed := p.claimed - {1}), e1, e2);
    assert VehicleToDocument(cheap).fields[DailyPriceCents] != VehicleToDocument(dear).fields[DailyPriceCents];
  }

  lemma FeedTwo(p: Deduped, a: Event, b: Event)
    ensures Feed(p, [a, b]) == Process(Process(p, a), b)
  {
    assert [a, b][..1] == [a] && [a][..0] == [];
    assert Feed(p, [a]) == Process(p, a);
  }

  lemma {:induction false} FeedConcat(p: Deduped, a: seq<Event>, b: seq<Event>)
    ensures Feed(p, a + b) == Feed(Feed(p, a), b)
  {
    if b == [] {
      assert a + b == a;
    } else {
      assert (a + b)[..|a + b| - 1] == a + b[..|b| - 1];
      FeedConcat(p, a, b[..|b| - 1]);
    }
  }

  lemma {:induction false} IndexConcat(index: Index, a: seq<Snapshot>, b: seq<Snapshot>)
    ensures IndexAfter(index, a + b) == IndexAfter(IndexAfter(index, a), b)
  {
    if b == [] {
      assert a + b == a;
    } else {
      assert (a + b)[..|a + b| - 1] == a + b[..|b| - 1];
      IndexConcat(index, a, b[..|b| - 1]);
    }
  }

  // The processor dies after claiming event k, before writing the index, and the consumer comes back at
  // `from` while the claim lasts. The write is lost; at the end of the log the index is right exactly if a
  // later event of the vehicle makes up for it, or there was nothing to write.
  lemma DyingAfterTheClaim(events: seq<Event>, k: nat, from: nat)
    requires DistinctIds(events) && from <= k < |events|
    ensures var p, v := Feed(Deduped(map[], {}), events[..k]), events[k].data.vehicleId;
      Feed(p.(claimed := p.claimed + {events[k].id}), events[from..]).index == IndexAfter(map[], Datas(events))
      <==> ((exists j | k < j < |events| :: events[j].data.vehicleId == v)
            || EffectOf(events[k].data) == Lookup(p.index, v))
  {
    hide Feed, IndexAfter, Handled;
    var p, e, rest := Feed(Deduped(map[], {}), events[..k]), events[k], Datas(events[k + 1..]);
    RestIsFedOnce(events, k, from);
    assert Datas(events) == Datas(events[..k + 1]) + rest && Datas(events[..k + 1]) == Datas(events[..k]) + [e.data];
    IndexConcat(map[], Datas(events[..k + 1]), rest);
    IndexGrows(map[], Datas(events[..k]), e.data);
    assert forall i | 0 <= i < k :: events[..k][i] == events[i];
    FirstReading(events[..k]);
    LostWrite(p.index, e.data, rest);
    if j :| k < j < |events| && events[j].data.vehicleId == e.data.vehicleId {
      assert rest[j - k - 1].vehicleId == e.data.vehicleId;
    }
    assert forall i | 0 <= i < |rest| :: rest[i] == events[k + 1 + i].data;
  }

  lemma LostWrite(index: Index, s: Snapshot, rest: seq<Snapshot>)
    ensures IndexAfter(index, rest) == IndexAfter(Handled(index, s), rest)
      <==> (exists j | 0 <= j < |rest| :: rest[j].vehicleId == s.vehicleId) || EffectOf(s) == Lookup(index, s.vehicleId)
  {
    hide IndexAfter, VehicleToDocument;
    var after, right := IndexAfter(index, rest), IndexAfter(Handled(index, s), rest);
    forall v | v != s.vehicleId ensures Lookup(after, v) == Lookup(right, v) {
      SameButFor(index, Handled(index, s), rest, v);
    }
    var j := LastEventOf(rest, s.vehicleId);
    match j {
      case Some(i) =>
        EntryAfter(index, rest, s.vehicleId, i);
        EntryAfter(Handled(index, s), rest, s.vehicleId, i);
        SameEntries(after, right);
      case None =>
        EntryUntouched(index, rest, s.vehicleId);
        EntryUntouched(Handled(index, s), rest, s.vehicleId);
        if EffectOf(s) == Lookup(index, s.vehicleId) { SameEntries(after, right); }
    }
  }

  lemma SameButFor(a: Index, b: Index, events: seq<Snapshot>, v: Uuid)
    requires Lookup(a, v) == Lookup(b, v)
    ensures Lookup(IndexAfter(a, events), v) == Lookup(IndexAfter(b, events), v)
  {
    var j := LastEventOf(events, v);
    match j {
      case Some(i) => EntryAfter(a, events, v, i); EntryAfter(b, events, v, i);
      case None => EntryUntouched(a, events, v); EntryUntouched(b, events, v);
    }
  }

  lemma RestIsFedOnce(events: seq<Event>, k: nat, from: nat)
    requires DistinctIds(events) && from <= k < |events|
    ensures var p := Feed(Deduped(map[], {}), events[..k]);
      Feed(p.(claimed := p.claimed + {events[k].id}), events[from..]).index
        == IndexAfter(p.index, Datas(events[k + 1..]))
  {
    var p := Feed(Deduped(map[], {}), events[..k]);
    var died := p.(claimed := p.claimed + {events[k].id});
    var again, rest := events[from..k + 1], events[k + 1..];
    assert events[from..] == again + rest;
    FeedConcat(died, again, rest);
    FeedClaims(Deduped(map[], {}), events[..k]);
    forall i | 0 <= i < |again| ensures again[i].id in died.claimed {
      assert from + i < k ==> events[..k][from + i] == again[i];
    }
    AllClaimed(died, again);
    forall i | 0 <= i < |rest| ensures rest[i].id !in died.claimed {
      assert rest[i] == events[k + 1 + i];
      assert forall j | 0 <= j < k :: events[..k][j] == events[j];
    }
    FeedReapplies(died, rest);
    NothingClaimed(rest, died.claimed);
  }

  // ----- deliveries, deaths and expiries in any order -----

  // The event at an offset is processed; or it is claimed and the process dies before the write; or some
  // claims expire.
  datatype Happening = Deliver(i: nat) | Die(i: nat) | Expire(ids: set<Uuid>)

  function Happen(events: seq<Event>, p: Deduped, h: Happening): Deduped {
    match h
    case Deliver(i) => if i < |events| then Process(p, events[i]) else p
    case Die(i) => if i < |events| then p.(claimed := p.claimed + {events[i].id}) else p
    case Expire(ids) => p.(claimed := p.claimed - ids)
  }

  function History(events: seq<Event>, p: Deduped, hs: seq<Happening>): Deduped {
    if hs == [] then p else Happen(events, History(events, p, hs[..|hs| - 1]), hs[|hs| - 1])
  }

  // The offsets whose events were written, oldest first: those delivered without a claim.
  function Writes(events: seq<Event>, p: Deduped, hs: seq<Happening>): (offsets: seq<nat>)
    ensures forall n | 0 <= n < |offsets| :: offsets[n] < |events|
  {
    if hs == [] then []
    else
      var init, h := hs[..|hs| - 1], hs[|hs| - 1];
      Writes(events, p, init)
      + if h.Deliver? && h.i < |events| && events[h.i].id !in History(events, p, init).claimed then [h.i] else []
  }

  lemma {:induction false} HistoryWrites(events: seq<Event>, p: Deduped, hs: seq<Happening>)
    ensures History(events, p, hs).index == IndexAfter(p.index, Delivered(Datas(events), Writes(events, p, hs)))
  {
    if hs != [] {
      var init, h := hs[..|hs| - 1], hs[|hs| - 1];
      HistoryWrites(events, p, init);
      var before, now :=
        Delivered(Datas(events), Writes(events, p, init)), Delivered(Datas(events), Writes(events, p, hs));
      if h.Deliver? && h.i < |events| && events[h.i].id !in History(events, p, init).claimed {
        assert now == before + [events[h.i].data];
        IndexGrows(p.index, before, events[h.i].data);
      } else {
        assert Writes(events, p, hs) == Writes(events, p, init);
      }
    }
  }

  // What a vehicle's entry is after these writes: its last written event's, or none.
  predicate Shows(written: seq<Snapshot>, v: Uuid, doc: Option<Document>) {
    && (forall n | 0 <= n < |written| && written[n].vehicleId == v
          && (forall m | n < m < |written| :: written[m].vehicleId != v) :: EffectOf(written[n]) == doc)
    && ((forall n | 0 <= n < |written| :: written[n].vehicleId != v) ==> doc == None)
  }

  lemma EntryShown(written: seq<Snapshot>, v: Uuid)
    ensures Shows(written, v, Lookup(IndexAfter(map[], written), v))
    ensures forall doc | Shows(written, v, doc) :: doc == Lookup(IndexAfter(map[], written), v)
  {
    forall n | 0 <= n < |written| && written[n].vehicleId == v
      && (forall m | n < m < |written| :: written[m].vehicleId != v)
      ensures EffectOf(written[n]) == Lookup(IndexAfter(map[], written), v)
    {
      EntryAfter(map[], written, v, n);
    }
    var j := LastEventOf(written, v);
    if j.None? { EntryUntouched(map[], written, v); }
  }

  // Whatever was delivered, died and expired, in whatever order: the index is the right one exactly if,
  // for each vehicle, its last written event says what its last event in the log says, and a vehicle none
  // of whose events was written has nothing to show.
  lemma IndexRightExactly(events: seq<Event>, hs: seq<Happening>)
    ensures var written := Delivered(Datas(events), Writes(events, Deduped(map[], {}), hs));
      History(events, Deduped(map[], {}), hs).index == IndexAfter(map[], Datas(events))
      <==> forall j: nat | LastOfVehicle(events, j, j) ::
        Shows(written, events[j].data.vehicleId, EffectOf(events[j].data))
  {
    hide Shows, EffectOf, IndexAfter, History, Writes;
    var written := Delivered(Datas(events), Writes(events, Deduped(map[], {}), hs));
    var index, right := IndexAfter(map[], written), IndexAfter(map[], Datas(events));
    HistoryWrites(events, Deduped(map[], {}), hs);
    forall j: nat | LastOfVehicle(events, j, j)
      ensures Lookup(right, events[j].data.vehicleId) == EffectOf(events[j].data)
    {
      EntryAfter(map[], Datas(events), events[j].data.vehicleId, j);
    }
    forall v ensures forall doc :: Shows(written, v, doc) <==> doc == Lookup(index, v) {
      EntryShown(written, v);
    }
    if forall j: nat | LastOfVehicle(events, j, j) ::
      Shows(written, events[j].data.vehicleId, EffectOf(events[j].data))
    {
      forall v ensures Lookup(index, v) == Lookup(right, v) {
        var j := LastEventOf(Datas(events), v);
        match j {
          case Some(i) =>
            assert forall m | i < m < |events| :: Datas(events)[m].vehicleId == events[m].data.vehicleId;
            assert LastOfVehicle(events, i, i);
          case None =>
            EntryUntouched(map[], Datas(events), v);
            EntryUntouched(map[], written, v);
        }
      }
      SameEntries(index, right);
    }
  }

  // The processor as it runs: a claim in Redis, then the write to the index.
  class ListingEventProcessor {
    const repo: SearchRepository
    var claimed: set<Uuid>

    constructor (repo: SearchRepository, claimed: set<Uuid>)
      ensures this.repo == repo && this.claimed == claimed
    {
      this.repo, this.claimed := repo, claimed;
    }

    method ProcessEvent(eventType: string, e: Event)
      modifies this, repo
      ensures Deduped(repo.index, claimed)
        == if eventType == "vehicle_approved" || eventType == "vehicle_updated"
           then Process(Deduped(old(repo.index), old(claimed)), e)
           else Deduped(old(repo.index), old(claimed))
    {
      assert LISTING_EVENT_TYPES[0] == "vehicle_approved" && LISTING_EVENT_TYPES[1] == "vehicle_updated";
      if eventType !in LISTING_EVENT_TYPES { return; }
      if e.id in claimed { return; }
      claimed := claimed + {e.id};
      repo.HandleVehicleEvent(e.data);
    }
  }

  // ----- bulk backfill -----

  datatype VehicleResponse = VehicleResponse(id: Uuid, hostId: Uuid, fields: Fields, approval: Approval)

  datatype Page = Page(items: seq<VehicleResponse>, nextOffset: Option<nat>)

  function ToResponse(id: Uuid, v: Vehicle): VehicleResponse {
    VehicleResponse(id, v.hostId, v.fields, v.approval)
  }

  function EventData(r: VehicleResponse): Snapshot {
    Snapshot(r.id, r.hostId, r.fields, r.approval)
  }

  // The approved vehicles in listing order.
  function ApprovedIn(vehicles: map<Uuid, Vehicle>, order: seq<Uuid>): seq<VehicleResponse> {
    if order == [] then []
    else
      var id := order[|order| - 1];
      ApprovedIn(vehicles, order[..|order| - 1])
      + if id in vehicles && vehicles[id].approval == Approved then [ToResponse(id, vehicles[id])] else []
  }

  // One row more than the page is read, to learn whether there is a next page.
  function ListVehicles(approved: seq<VehicleResponse>, limit: nat, offset: nat): Page {
    var end := if offset + limit + 1 < |approved| then offset + limit + 1 else |approved|;
    var rows := if offset <= end then approved[offset..end] else [];
    Page(if |rows| > limit then rows[..limit] else rows, if |rows| > limit then Some(offset + limit) else None)
  }

  function Snapshots(responses: seq<VehicleResponse>): seq<Snapshot> {
    seq(|responses|, i requires 0 <= i < |responses| => EventData(responses[i]))
  }

  // A page holds the next `limit` vehicles, or what is left of them, and names a next page exactly if more
  // are left.
  lemma PageIsSlice(approved: seq<VehicleResponse>, limit: nat, offset: nat)
    ensures var page, n := ListVehicles(approved, limit, offset), |approved|;
      && page.items == (if offset >= n then [] else if offset + limit >= n then approved[offset..]
                        else approved[offset..offset + limit])
      && page.nextOffset == (if offset + limit < n then Some(offset + limit) else None)
  {
  }

  lemma IndexOneMore(index: Index, approved: seq<VehicleResponse>, n: nat)
    requires n < |approved|
    ensures IndexAfter(index, Snapshots(approved[..n + 1]))
      == Handled(IndexAfter(index, Snapshots(approved[..n])), EventData(approved[n]))
  {
    assert Snapshots(approved[..n + 1]) == Snapshots(approved[..n]) + [EventData(approved[n])];
    IndexGrows(index, Snapshots(approved[..n]), EventData(approved[n]));
  }

  lemma NothingIndexed(index: Index, approved: seq<VehicleResponse>)
    ensures IndexAfter(index, Snapshots(approved[..0])) == index
  {
  }

  // Pages through the approved vehicles until there is no next page, indexing each.
  method RunBackfill(repo: SearchRepository, approved: seq<VehicleResponse>, pageSize: nat) returns (indexed: nat)
    requires pageSize > 0
    modifies repo
    ensures indexed == |approved|
    ensures repo.index == IndexAfter(old(repo.index), Snapshots(approved))
  {
    hide ListVehicles, IndexAfter, Handled, Snapshots, EventData;
    indexed := 0;
    var offset := 0;
    NothingIndexed(old(repo.index), approved);
    while true
      invariant offset == indexed <= |approved|
      invariant repo.index == IndexAfter(old(repo.index), Snapshots(approved[..indexed]))
      decreases |approved| - offset
    {
      var page := ListVehicles(approved, pageSize, offset);
      PageIsSlice(approved, pageSize, offset);
      var n := 0;
      while n < |page.items|
        invariant 0 <= n <= |page.items| && indexed == offset + n <= |approved|
        invariant repo.index == IndexAfter(old(repo.index), Snapshots(approved[..indexed]))
      {
        IndexOneMore(old(repo.index), approved, indexed);
        repo.HandleVehicleEvent(EventData(page.items[n]));
        indexed := indexed + 1;
        n := n + 1;
      }
      if page.nextOffset.None? {
        assert indexed == |approved| && approved[..indexed] == approved;
        return;
      }
      offset := page.nextOffset.value;
    }
  }

  function Listed(vehicles: map<Uuid, Vehicle>, order: seq<Uuid>): map<Uuid, Vehicle> {
    map id | id in vehicles && id in order :: vehicles[id]
  }

  lemma ListedGrows(vehicles: map<Uuid, Vehicle>, order: seq<Uuid>, id: Uuid)
    ensures Listed(vehicles, order + [id])
      == if id in vehicles then Listed(vehicles, order)[id := vehicles[id]] else Listed(vehicles, order)
    ensures var before := Snapshots(ApprovedIn(vehicles, order));
      Snapshots(ApprovedIn(vehicles, order + [id]))
      == if id in vehicles && vehicles[id].approval == Approved then before + [SnapshotOf(id, vehicles[id])] else before
  {
    assert (order + [id])[..|order|] == order;
    assert Listed(vehicles, order + [id]).Keys
      == if id in vehicles then Listed(vehicles, order).Keys + {id} else Listed(vehicles, order).Keys;
  }

  // Indexing the listed vehicles from empty gives the approved vehicles of the table.
  lemma {:induction false} BackfillBuildsView(vehicles: map<Uuid, Vehicle>, order: seq<Uuid>)
    requires forall i, j | 0 <= i < j < |order| :: order[i] != order[j]
    ensures IndexAfter(map[], Snapshots(ApprovedIn(vehicles, order))) == ApprovedView(Listed(vehicles, order))
  {
    if order == [] {
      assert ApprovedView(Listed(vehicles, order)) == map[];
    } else {
      hide ApprovedView, IndexAfter, Handled, ApprovedIn, Snapshots;
      var init, id := order[..|order| - 1], order[|order| - 1];
      assert order == init + [id];
      BackfillBuildsView(vehicles, init);
      ListedGrows(vehicles, init, id);
      if id in vehicles && vehicles[id].approval == Approved {
        IndexGrows(map[], Snapshots(ApprovedIn(vehicles, init)), SnapshotOf(id, vehicles[id]));
        ViewFollows(Listed(vehicles, init), id, vehicles[id]);
      } else if id in vehicles {
        SilentOperation(Listed(vehicles, init), id, vehicles[id]);
      }
    }
  }

  ghost predicate Ordered(db: ListingDb) {
    && (forall i, j | 0 <= i < j < |db.order| :: db.order[i] != db.order[j])
    && forall id :: id in db.vehicles <==> id in db.order
  }

  lemma {:induction false} HistoryKeepsOrder(db: ListingDb, ops: seq<Operation>)
    requires Ordered(db)
    ensures Ordered(After(db, ops))
    decreases ops
  {
    if ops != [] {
      match Execute(db, ops[0]) {
        case Ok(d) => HistoryKeepsOrder(d, ops[1..]);
        case Err(_) => HistoryKeepsOrder(db, ops[1..]);
      }
    }
  }

  // The bulk backfill and the event stream build the same index, whatever the serial history.
  lemma BackfillEqualsStream(ops: seq<Operation>)
    ensures var db := After(ListingDb(map[], [], []), ops);
      IndexAfter(map[], Snapshots(ApprovedIn(db.vehicles, db.order))) == IndexAfter(map[], Heard(db.outbox))
  {
    var empty := ListingDb(map[], [], []);
    var db := After(empty, ops);
    StreamBuildsView(empty, ops);
    HistoryKeepsOrder(empty, ops);
    BackfillBuildsView(db.vehicles, db.order);
    assert Listed(db.vehicles, db.order) == db.vehicles;
  }

  // After any serial history the index has an entry for exactly the approved vehicles, and it says of each
  // what the listing table says, column by column; so does a bulk backfill from empty.
  lemma IndexByColumns(ops: seq<Operation>)
    ensures var db := After(ListingDb(map[], [], []), ops);
      var index := IndexAfter(map[], Heard(db.outbox));
      && (forall id :: id in index <==> id in db.vehicles && db.vehicles[id].approval == Approved)
      && (forall id | id in index :: Describes(index[id], id, db.vehicles[id]))
      && IndexAfter(map[], Snapshots(ApprovedIn(db.vehicles, db.order))) == index
  {
    hide Handled;
    var empty := ListingDb(map[], [], []);
    StreamBuildsView(empty, ops);
    BackfillEqualsStream(ops);
    ViewDescribes(After(empty, ops).vehicles);
  }

  lemma ViewDescribes(vehicles: map<Uuid, Vehicle>)
    ensures forall id | id in ApprovedView(vehicles) :: Describes(ApprovedView(vehicles)[id], id, vehicles[id])
  {
  }
}
