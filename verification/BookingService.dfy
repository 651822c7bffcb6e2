/**
  The booking service's code as it runs on a database session: each method is proved against the
  transaction of module Bookings that it implements.
*/
module BookingService {
  import opened Tables
  import opened Domain
  import opened Relay
  import opened Bookings

  // The rows being inserted carry other versions than the one inserted next.
  lemma EarlierRowsDoNotClash(events: seq<Row<Stored>>, b: Uuid, version: nat, es: seq<Event>, n: nat)
    requires n < |es|
    ensures VersionUsed(events + Tag(b, Stamp(version, es))[..n], b, version + n + 1)
      <==> VersionUsed(events, b, version + n + 1)
  {
    var now := events + Tag(b, Stamp(version, es))[..n];
    if VersionUsed(events, b, version + n + 1) {
      var i :| 0 <= i < |events| && events[i].key == b && events[i].value.version == version + n + 1;
      assert now[i] == events[i];
    }
  }

  lemma ConflictGrows(events: seq<Row<Stored>>, b: Uuid, version: nat, n: nat)
    ensures Conflict(events, b, version, n + 1)
      <==> Conflict(events, b, version, n) || VersionUsed(events, b, version + n + 1)
  {
    hide VersionUsed;
  }

  lemma DecisionOf(row: Booking, c: Command, t: Transition)
    requires Transact(row, c) == Ok(t) && !FromStranger(row, c)
    ensures |t.events| > 0 && ApplyTransition(row, t).version == row.version
    ensures var row' := ApplyTransition(row, t).(version := row.version + |t.events|, status := t.nextStatus);
      Decide(row, c) == Ok(Effect(row', t.events, MessageOf(row', c)))
  {
  }

  // A database session of the booking service. On an error the caller abandons it, as the source's
  // `async with session_factory()` does, so what a failed method left in it is never committed.
  class BookingSession {
    var rows: map<Uuid, Booking>
    var events: seq<Row<Stored>>
    var outbox: seq<Msg<Message>>
    var inbox: set<Uuid>

    constructor (db: BookingDb)
      ensures Db() == db
    {
      rows, events, outbox, inbox := db.rows, db.events, db.outbox, db.inbox;
    }

    function Db(): BookingDb
      reads this
    {
      BookingDb(rows, events, outbox, inbox)
    }

    method ClaimEvent(id: Uuid) returns (claimed: bool)
      modifies this`inbox
      ensures claimed == (id !in old(inbox))
      ensures inbox == old(inbox) + {id}
    {
      claimed := id !in inbox;
      inbox := inbox + {id};
    }

    method WriteOutboxEvent(id: Uuid, b: Uuid, body: Message) returns (r: Result<(), Error>)
      modifies this`outbox
      ensures r == if Used(old(outbox), id) then Err(IntegrityError) else Ok(())
      ensures r.Ok? ==> outbox == Post(old(outbox), id, b, Some(body))
    {
      if Used(outbox, id) {
        return Err(IntegrityError);
      }
      outbox := outbox + [Msg(id, b, body)];
      return Ok(());
    }

    // Inserts one row per event under consecutive versions; any of them may already be taken.
    method AppendEvents(b: Uuid, newEvents: seq<Event>, nextStatus: Status) returns (r: Result<(), Error>)
      requires b in rows
      modifies this`rows, this`events
      ensures r == if Conflict(old(events), b, old(rows)[b].version, |newEvents|) then Err(ConcurrentUpdate) else Ok(())
      ensures r.Ok? ==>
        && events == old(events) + Tag(b, Stamp(old(rows)[b].version, newEvents))
        && rows == old(rows)[b := old(rows)[b].(version := old(rows)[b].version + |newEvents|, status := nextStatus)]
    {
      hide VersionUsed;
      var version := rows[b].version;
      ghost var stamped := Tag(b, Stamp(version, newEvents));
      var offset := 0;
      while offset < |newEvents|
        invariant 0 <= offset <= |newEvents| && rows == old(rows)
        invariant events == old(events) + stamped[..offset]
        invariant !Conflict(old(events), b, version, offset)
      {
        EarlierRowsDoNotClash(old(events), b, version, newEvents, offset);
        ConflictGrows(old(events), b, version, offset);
        if VersionUsed(events, b, version + offset + 1) {
          return Err(ConcurrentUpdate);
        }
        events := events + [Row(b, Stored(version + offset + 1, newEvents[offset]))];
        offset := offset + 1;
      }
      rows := rows[b := rows[b].(version := version + |newEvents|, status := nextStatus)];
      return Ok(());
    }

    // The common shape of every command after its transition is known.
    method Record(b: Uuid, c: Command, t: Transition, id: Uuid) returns (r: Result<(), Error>)
      requires b in rows && Transact(rows[b], c) == Ok(t) && !FromStranger(rows[b], c)
      modifies this
      ensures match Execute(old(Db()), b, c, id)
        case Ok(db) => r == Ok(()) && Db() == db
        case Err(e) => r == Err(e)
    {
      hide Transact, MessageOf, Decide, ApplyTransition, Conflict;
      DecisionOf(rows[b], c, t);
      rows := rows[b := ApplyTransition(rows[b], t)];
      var appended := AppendEvents(b, t.events, t.nextStatus);
      if appended.Err? {
        return Err(appended.error);
      }
      match MessageOf(rows[b], c)
      case None => return Ok(());
      case Some(body) => r := WriteOutboxEvent(id, b, body);
    }

    method AcceptBookingRequest(b: Uuid, hostId: Uuid, id: Uuid) returns (r: Result<(), Error>)
      modifies this
      ensures match Execute(old(Db()), b, Accept(hostId), id)
        case Ok(db) => r == Ok(()) && Db() == db
        case Err(e) => r == Err(e)
    {
      if b !in rows { return Err(BookingNotFound); }
      if rows[b].hostId != hostId { return Err(NotBookingParty); }
      var t := AcceptRequest(rows[b]);
      if t.Err? { return Err(t.error); }
      r := Record(b, Accept(hostId), t.value, id);
    }

    method RejectBookingRequest(b: Uuid, hostId: Uuid, id: Uuid) returns (r: Result<(), Error>)
      modifies this
      ensures match Execute(old(Db()), b, Reject(hostId), id)
        case Ok(db) => r == Ok(()) && Db() == db
        case Err(e) => r == Err(e)
    {
      if b !in rows { return Err(BookingNotFound); }
      if rows[b].hostId != hostId { return Err(NotBookingParty); }
      var t := RejectRequest(rows[b]);
      if t.Err? { return Err(t.error); }
      r := Record(b, Reject(hostId), t.value, id);
    }

    method RecordHandoverOf(b: Uuid, hostId: Uuid, reading: Reading, id: Uuid) returns (r: Result<(), Error>)
      modifies this
      ensures match Execute(old(Db()), b, Handover(hostId, reading), id)
        case Ok(db) => r == Ok(()) && Db() == db
        case Err(e) => r == Err(e)
    {
      if b !in rows { return Err(BookingNotFound); }
      if rows[b].hostId != hostId { return Err(NotBookingParty); }
      var t := RecordHandover(rows[b], reading);
      if t.Err? { return Err(t.error); }
      r := Record(b, Handover(hostId, reading), t.value, id);
    }

    method RecordReturnOf(b: Uuid, hostId: Uuid, reading: Reading, id: Uuid) returns (r: Result<(), Error>)
      modifies this
      ensures match Execute(old(Db()), b, Return(hostId, reading), id)
        case Ok(db) => r == Ok(()) && Db() == db
        case Err(e) => r == Err(e)
    {
      if b !in rows { return Err(BookingNotFound); }
      if rows[b].hostId != hostId { return Err(NotBookingParty); }
      var t := RecordReturn(rows[b], reading);
      if t.Err? { return Err(t.error); }
      r := Record(b, Return(hostId, reading), t.value, id);
    }

    // The four reactions to payment events differ only in their transition and their notice.
    method ApplyPaymentEvent(b: Uuid, e: PaymentEvent, id: Uuid) returns (r: Result<(), Error>)
      modifies this
      ensures match Execute(old(Db()), b, ReactionTo(e), id)
        case Ok(db) => r == Ok(()) && Db() == db
        case Err(err) => r == Err(err)
    {
      if b !in rows { return Err(BookingNotFound); }
      var t := Transact(rows[b], ReactionTo(e));
      if t.Err? { return Err(t.error); }
      r := Record(b, ReactionTo(e), t.value, id);
    }

    method CreateRequested(b: Uuid, row: Booking) returns (r: Result<(), Error>)
      modifies this`rows
      ensures r == if row.endDate < row.startDate then Err(InvalidDateRange)
                   else if b in old(rows) || Overlaps(old(rows), row) then Err(OverlappingBooking) else Ok(())
      ensures r.Ok? ==> rows == old(rows)[b := row]
    {
      if row.endDate < row.startDate { return Err(InvalidDateRange); }
      if b in rows || Overlaps(rows, row) { return Err(OverlappingBooking); }
      rows := rows[b := row];
      return Ok(());
    }

    method RequestBookingFor(b: Uuid, renterId: Uuid, vehicleId: Uuid, vehicle: Option<VehicleInfo>,
                             startDate: Date, endDate: Date, id: Uuid) returns (r: Result<(), Error>)
      modifies this
      ensures match RequestBooking(old(Db()), b, renterId, vehicleId, vehicle, startDate, endDate, id)
        case Ok(db) => r == Ok(()) && Db() == db
        case Err(e) => r == Err(e)
    {
      if vehicle.None? || !vehicle.value.approved { return Err(VehicleNotBookable); }
      var row := NewBooking(renterId, vehicleId, vehicle.value, startDate, endDate);
      r := CreateRequested(b, row);
      if r.Err? { return; }
      assert Conflict(events, b, 1, 1) <==> VersionUsed(events, b, 2);
      r := AppendEvents(b, [BookingRequested], Requested);
      if r.Err? { return; }
      if vehicle.value.mode == Instant {
        r := WriteOutboxEvent(id, b, AuthorizeMessage(rows[b]));
      }
    }
  }

  // The inbox processor: a fresh session, committed only if the handler succeeds.
  method ProcessPaymentEvent(db: BookingDb, m: Msg<PaymentEvent>, id: Uuid)
    returns (db': BookingDb, r: Result<(), Error>)
    ensures match ReceivePaymentEvent(db, m, id)
      case Ok(d) => r == Ok(()) && db' == d
      case Err(e) => r == Err(e) && db' == db
  {
    var session := new BookingSession(db);
    var claimed := session.ClaimEvent(m.id);
    if claimed {
      r := session.ApplyPaymentEvent(m.key, m.body, id);
      if r.Err? { return db, r; }
    }
    assert !claimed ==> db.inbox + {m.id} == db.inbox;
    return session.Db(), Ok(());
  }
}
