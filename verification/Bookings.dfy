/**
  The booking service (services/booking/service.py, repository.py and consumers.py): what each command
  and each payment event does to the booking tables. `Decide` is one booking's decision; `Execute`,
  `CreateBooking` and `ReceivePaymentEvent` are the database transactions around it.
*/
module Bookings {
  import opened Tables
  import opened Domain
  import opened Relay

  datatype Stored = Stored(version: nat, event: Event)

  // What booking tells payment, and everyone else, through its outbox.
  datatype Message =
    | AuthorizePaymentRequested(renterId: Uuid, amountCents: int)
    | CapturePaymentRequested(hostId: Uuid, holdAmountCents: int, overageCents: int)
    | LifecycleNotice(notice: Notice, renterId: Uuid, hostId: Uuid, status: Status)

  datatype Notice = NoticeRejected | NoticeConfirmed | NoticeCancelled | NoticeCompleted | NoticeCaptureFailed

  // What payment tells booking.
  datatype PaymentEvent = Authorized | AuthorizationFailed | Captured | CaptureFailed

  datatype BookingDb = BookingDb(
    rows: map<Uuid, Booking>, events: seq<Row<Stored>>, outbox: seq<Msg<Message>>, inbox: set<Uuid>)

  // A host's command, or the reaction to a payment event.
  datatype Command =
    | Accept(hostId: Uuid)
    | Reject(hostId: Uuid)
    | Handover(hostId: Uuid, reading: Reading)
    | Return(hostId: Uuid, reading: Reading)
    | ApplyAuthorized
    | ApplyAuthorizationFailed
    | ApplyCaptured
    | ApplyCaptureFailed

  // What the listing service answers about a vehicle.
  datatype VehicleInfo = VehicleInfo(
    hostId: Uuid, dailyPriceCents: int, dailyMileageLimit: int, mode: Mode, approved: bool)

  datatype Effect = Effect(row: Booking, events: seq<Event>, message: Option<Message>)

  function Stamp(version: nat, events: seq<Event>): (stored: seq<Stored>)
    ensures |stored| == |events|
    ensures forall i | 0 <= i < |stored| :: stored[i] == Stored(version + 1 + i, events[i])
  {
    seq(|events|, i requires 0 <= i < |events| => Stored(version + 1 + i, events[i]))
  }

  // The unique constraint on (booking_id, version) refuses a second row for this pair.
  predicate VersionUsed(events: seq<Row<Stored>>, b: Uuid, version: nat) {
    exists i | 0 <= i < |events| :: events[i].key == b && events[i].value.version == version
  }

  predicate Conflict(events: seq<Row<Stored>>, b: Uuid, version: nat, count: nat) {
    exists v | version < v <= version + count :: VersionUsed(events, b, v)
  }

  function AmountDue(b: Booking): int {
    b.dailyPriceCents * Days(b.startDate, b.endDate)
  }

  function AuthorizeMessage(b: Booking): Message {
    AuthorizePaymentRequested(b.renterId, AmountDue(b))
  }

  function LifecycleMessage(b: Booking, notice: Notice): Message {
    LifecycleNotice(notice, b.renterId, b.hostId, b.status)
  }

  function ApplyTransition(b: Booking, t: Transition): Booking
    requires |t.events| > 0
  {
    match t.events[0]
    case HandoverRecorded(reading) => b.(start := Some(reading))
    case ReturnRecorded(reading, overage) => b.(end := Some(reading), overageCents := overage)
    case _ => b
  }

  function Transact(b: Booking, c: Command): Result<Transition, Error> {
    match c
    case Accept(_) => AcceptRequest(b)
    case Reject(_) => RejectRequest(b)
    case Handover(_, reading) => RecordHandover(b, reading)
    case Return(_, reading) => RecordReturn(b, reading)
    case ApplyAuthorized => ConfirmAfterPaymentAuthorized(b)
    case ApplyAuthorizationFailed => CancelAfterPaymentAuthorizationFailed(b)
    case ApplyCaptured => CompleteAfterPaymentCaptured(b)
    case ApplyCaptureFailed => NotePaymentCaptureFailed(b)
  }

  // The message a command leaves in the outbox once the row is as `b` shows.
  function MessageOf(b: Booking, c: Command): Option<Message> {
    match c
    case Accept(_) => Some(AuthorizeMessage(b))
    case Reject(_) => Some(LifecycleMessage(b, NoticeRejected))
    case Handover(_, _) => None
    case Return(_, _) => Some(CapturePaymentRequested(b.hostId, AmountDue(b), b.overageCents))
    case ApplyAuthorized => Some(LifecycleMessage(b, NoticeConfirmed))
    case ApplyAuthorizationFailed => Some(LifecycleMessage(b, NoticeCancelled))
    case ApplyCaptured => Some(LifecycleMessage(b, NoticeCompleted))
    case ApplyCaptureFailed => Some(LifecycleMessage(b, NoticeCaptureFailed))
  }

  predicate FromStranger(b: Booking, c: Command) {
    (c.Accept? || c.Reject? || c.Handover? || c.Return?) && c.hostId != b.hostId
  }

  function Decide(b: Booking, c: Command): Result<Effect, Error> {
    if FromStranger(b, c) then Err(NotBookingParty)
    else
      match Transact(b, c)
      case Err(e) => Err(e)
      case Ok(t) =>
        var b' := ApplyTransition(b, t).(version := b.version + |t.events|, status := t.nextStatus);
        Ok(Effect(b', t.events, MessageOf(b', c)))
  }

  function Post<T>(outbox: seq<Msg<T>>, id: Uuid, key: Uuid, body: Option<T>): seq<Msg<T>> {
    outbox + if body.Some? then [Msg(id, key, body.value)] else []
  }

  // A transaction that reads booking `b`, decides, and writes row, events and outbox together. `id` is
  // the random id drawn for the outbox row.
  function Execute(db: BookingDb, b: Uuid, c: Command, id: Uuid): Result<BookingDb, Error> {
    if b !in db.rows then Err(BookingNotFound)
    else
      match Decide(db.rows[b], c)
      case Err(e) => Err(e)
      case Ok(eff) =>
        if Conflict(db.events, b, db.rows[b].version, |eff.events|) then Err(ConcurrentUpdate)
        else if eff.message.Some? && Used(db.outbox, id) then Err(IntegrityError)
        else Ok(db.(rows := db.rows[b := eff.row],
                    events := db.events + Tag(b, Stamp(db.rows[b].version, eff.events)),
                    outbox := Post(db.outbox, id, b, eff.message)))
  }

  function NewBooking(renterId: Uuid, vehicleId: Uuid, v: VehicleInfo, startDate: Date, endDate: Date): Booking {
    Booking(vehicleId, v.hostId, renterId, startDate, endDate, v.dailyPriceCents, v.dailyMileageLimit, v.mode,
            Requested, 1, None, None, 0)
  }

  // A live booking of the same vehicle holds one of the new booking's days.
  predicate Overlaps(rows: map<Uuid, Booking>, b: Booking) {
    exists k | k in rows :: Live(rows[k]) && Clash(rows[k], b)
  }

  // `b` is the random id drawn for the booking. A primary-key collision is reported like an overlap.
  function CreateBooking(db: BookingDb, b: Uuid, row: Booking, id: Uuid): Result<BookingDb, Error> {
    if row.endDate < row.startDate then Err(InvalidDateRange)
    else if b in db.rows || Overlaps(db.rows, row) then Err(OverlappingBooking)
    else if VersionUsed(db.events, b, row.version + 1) then Err(ConcurrentUpdate)
    else if row.mode == Instant && Used(db.outbox, id) then Err(IntegrityError)
    else Ok(db.(rows := db.rows[b := row.(version := row.version + 1)],
                events := db.events + Tag(b, Stamp(row.version, [BookingRequested])),
                outbox := Post(db.outbox, id, b, if row.mode == Instant then Some(AuthorizeMessage(row)) else None)))
  }

  function RequestBooking(db: BookingDb, b: Uuid, renterId: Uuid, vehicleId: Uuid, vehicle: Option<VehicleInfo>,
                          startDate: Date, endDate: Date, id: Uuid): Result<BookingDb, Error>
  {
    if vehicle.None? || !vehicle.value.approved then Err(VehicleNotBookable)
    else CreateBooking(db, b, NewBooking(renterId, vehicleId, vehicle.value, startDate, endDate), id)
  }

  function ReactionTo(e: PaymentEvent): Command {
    match e
    case Authorized => ApplyAuthorized
    case AuthorizationFailed => ApplyAuthorizationFailed
    case Captured => ApplyCaptured
    case CaptureFailed => ApplyCaptureFailed
  }

  // Claim, dispatch and commit in one transaction; a claimed event is acknowledged without effect.
  function ReceivePaymentEvent(db: BookingDb, m: Msg<PaymentEvent>, id: Uuid): Result<BookingDb, Error> {
    if m.id in db.inbox then Ok(db)
    else Execute(db.(inbox := db.inbox + {m.id}), m.key, ReactionTo(m.body), id)
  }
}
