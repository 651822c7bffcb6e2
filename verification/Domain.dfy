/**
  The booking state machine (services/booking/domain.py): pure functions from a booking to the events
  a step appends and the status it settles on. A booking row and the `BookingState` copied from it
  have the same columns, so one datatype stands for both.
*/
module Domain {
  import opened Tables

  type Date = int  // a calendar day, counted from a fixed one

  datatype Mode = Instant | RequestToBook

  datatype Status = Requested | Confirmed | Active | Completed | Cancelled | Rejected

  // The odometer, fuel and photo columns, which are always written together.
  datatype Reading = Reading(odometer: int, fuelPercent: int, photoUrl: string)

  datatype Booking = Booking(
    vehicleId: Uuid, hostId: Uuid, renterId: Uuid,
    startDate: Date, endDate: Date,
    dailyPriceCents: int, dailyMileageLimit: int, mode: Mode,
    status: Status, version: nat,
    start: Option<Reading>, end: Option<Reading>, overageCents: int)

  datatype Event =
    | BookingRequested
    | BookingRequestAccepted
    | BookingRejected
    | PaymentAuthorized
    | BookingConfirmed
    | PaymentAuthorizationFailed
    | BookingCancelled
    | HandoverRecorded(reading: Reading)
    | ReturnRecorded(reading: Reading, overageCents: int)
    | PaymentCaptured
    | BookingCompleted
    | PaymentCaptureFailed

  datatype Transition = Transition(events: seq<Event>, nextStatus: Status)

  datatype Error =
    | InvalidTransition
    | NoStartOdometer       // arithmetic on a missing reading
    | BookingNotFound
    | NotBookingParty
    | VehicleNotBookable
    | OverlappingBooking
    | InvalidDateRange      // the database refuses a range that ends before it starts
    | ConcurrentUpdate
    | IntegrityError

  const OVERAGE_RATE_CENTS_PER_MILE := 50

  function Days(startDate: Date, endDate: Date): (days: int)
    ensures days >= 1
  {
    if endDate - startDate > 1 then endDate - startDate else 1
  }

  function RentalDays(b: Booking): int {
    Days(b.startDate, b.endDate)
  }

  function Settle(b: Booking, expected: Status, events: seq<Event>, nextStatus: Status): Result<Transition, Error> {
    if b.status != expected then Err(InvalidTransition) else Ok(Transition(events, nextStatus))
  }

  function AcceptRequest(b: Booking): Result<Transition, Error> {
    if b.mode != RequestToBook then Err(InvalidTransition)
    else Settle(b, Requested, [BookingRequestAccepted], Requested)
  }

  function RejectRequest(b: Booking): Result<Transition, Error> {
    Settle(b, Requested, [BookingRejected], Rejected)
  }

  function ConfirmAfterPaymentAuthorized(b: Booking): Result<Transition, Error> {
    Settle(b, Requested, [PaymentAuthorized, BookingConfirmed], Confirmed)
  }

  function CancelAfterPaymentAuthorizationFailed(b: Booking): Result<Transition, Error> {
    Settle(b, Requested, [PaymentAuthorizationFailed, BookingCancelled], Cancelled)
  }

  function RecordHandover(b: Booking, reading: Reading): Result<Transition, Error> {
    Settle(b, Confirmed, [HandoverRecorded(reading)], Active)
  }

  function ComputeOverageCents(startOdometer: int, endOdometer: int, dailyMileageLimit: int, days: int): int {
    var driven := endOdometer - startOdometer;
    var allowed := dailyMileageLimit * days;
    if driven <= allowed then 0 else (driven - allowed) * OVERAGE_RATE_CENTS_PER_MILE
  }

  function RecordReturn(b: Booking, reading: Reading): Result<Transition, Error> {
    if b.status != Active then Err(InvalidTransition)
    else if b.start.None? then Err(NoStartOdometer)
    else
      var overage := ComputeOverageCents(
        b.start.value.odometer, reading.odometer, b.dailyMileageLimit, RentalDays(b));
      Settle(b, Active, [ReturnRecorded(reading, overage)], Active)
  }

  function CompleteAfterPaymentCaptured(b: Booking): Result<Transition, Error> {
    Settle(b, Active, [PaymentCaptured, BookingCompleted], Completed)
  }

  function NotePaymentCaptureFailed(b: Booking): Result<Transition, Error> {
    Settle(b, Active, [PaymentCaptureFailed], Active)
  }

  // A booking that holds its dates: the rows the no-overlap constraint looks at.
  predicate Live(b: Booking) {
    b.status != Cancelled && b.status != Rejected
  }

  // Two inclusive date ranges on one vehicle share a day.
  predicate Clash(a: Booking, b: Booking) {
    a.vehicleId == b.vehicleId && a.startDate <= b.endDate && b.startDate <= a.endDate
  }
}
