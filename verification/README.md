# CarFlow booking saga: a verified model

CarFlow is a car-rental marketplace made of small services that share nothing but Kafka topics. A
rental is a saga between two of them: *booking* keeps the rental's row and event log, *payment* keeps a
hold on the renter's card and a double-entry ledger, and Stripe moves the money. Each service writes its
messages to an outbox table in the same transaction as its state; Debezium ships the outbox to a topic;
the other service consumes the topic at least once and deduplicates by an inbox table. No function of
either service checks the other side. This project models both services, everything between them and
Stripe's keyed memory, and proves what every run of that whole keeps. A second, smaller part does the
same for the search index, which is a view of the listing service's table.

`dafny verify dfyconfig.toml` checks everything.

## How it is built

| file | what it holds |
|---|---|
| Tables, Domain | shared values; the booking state machine |
| Bookings, Payments | the services' transactions as functions on their tables; Stripe as a memory keyed by operation and booking, with lost requests and lost replies |
| BookingService, PaymentService | the services' code as methods on a database session, each proved equal to its transaction |
| Relay | outbox, connector (which may re-publish), partitioned topic, consumer offsets, inbox; the invariant that each booking's claimed messages are a prefix of those sent |
| Delivery | the consumer loop, and at-least-once delivery as a refinement of exactly-once |
| Saga, SagaSafety | one booking seen through exactly-once queues; its invariant, kept by every step |
| SagaFacts, SagaHistory | what that invariant says about agreement, money, the log, and permanence |
| System | the two services, topics and Stripe joined; every step of the system is at most one step of one saga, so every reachable state satisfies the invariant |
| Guarantees, Totals, Calendar, Liveness | the results about every reachable state |
| Requests, Announcements | what requests and commands store and are answered, column by column; every message booking sends, read off its log |
| LateRejection, Unrecorded, Retries | what the code lets happen, with runs that reach it: a rejection that blocks a partition, money held or taken that the books do not show, a request that commits twice |
| Interleaving, Overlapping | overlapping booking transactions are serializable, alone and inside the whole system, so that the results about reachable states hold with them |
| Idempotency | the HTTP idempotency guard under races |
| Listing, Search | the index as a view: stream, redelivery, expiring deduplication, bulk backfill |

A run is any list of steps: renter and host requests, rows shipped or shipped again, records consumed by
either side on any partition, offsets committed, handlers that fail or die after any of their Stripe
calls, consumers restarted at their committed offset. Random ids (`uuid4`) are parameters of the steps
and may collide; a collision fails as the primary key makes it fail. Stripe's verdicts, the listing
service's answer about a vehicle and the caller's id are parameters too.

## What the code does differently from what its documentation says

- The repository's overview (README.md:49-51) says a failed payment rolls a booking back to *rejected*;
  the code settles it on `cancelled`.
- It also says (README.md:45-48) that the same command landing twice produces one effect. That holds for
  events. For HTTP requests it can fail when they overlap: `Idempotency.RaceCommitsTwice` is a
  counterexample, `Idempotency.SecondEffectExactly` says of every run exactly when a key gets a second
  effect (a request with the same body was past its lookup when the first response was stored, and its own
  response was built), `Idempotency.LateFinishesAddEffects` counts them, and
  `Idempotency.OneByOneOneEffect` says that requests made one after another have one. The second response
  can be built exactly when the tables still allow it, which the guard does not look at: an accept while the
  booking waits, a return while it is active, never a rejection or a handover
  (`Retries.RepeatedCommandCommitsExactly`); creating or editing a vehicle always, a moderator's decision
  never (`Listing.RepeatedOperation`); and a booking request once its first booking has been rejected or
  cancelled and while nobody else holds the days (`Retries.RepeatedRequestNeedsEnd`,
  `Retries.RequestCommitsExactly`), which leaves two bookings under one key (`Retries.SameRequestTwice`).
- services/search/redis_inbox.py:3-9 argues that weak deduplication cannot hurt because index writes are
  idempotent. Without any deduplication that is right (`Search.RedeliveryConverges`). With claims that
  expire one by one it is not: `Search.ExpiredClaimRevertsAnUpdate` puts an old price back, and
  `Search.RedeliveryAfterExpiry` says, by the log and the claims alone, exactly which redeliveries leave the
  index right. A process that dies between claim and write loses the write;
  `Search.DyingAfterTheClaim` says exactly when that shows, and `Search.IndexRightExactly` covers every
  mixture of deliveries, deaths and expiries.
- A host may reject a booking after its hold was requested (`LateRejection.RequestedThenRejected`,
  `LateRejection.HeldThenRejected` reach such states). The payment event is then refused and redelivered
  for ever, the hold is never settled (`Guarantees.RejectedHoldIsNeverReleased`), and every later event on
  its partition waits behind it, whichever booking it is for
  (`LateRejection.RejectedEventBlocksPartition`), and nothing else holds an event up
  (`LateRejection.ClaimableExactly`). `Liveness.RestExactlyWithoutLateRejection` proves that,
  with positive vehicle prices, this is the only thing that can keep the system from coming to rest.
- The ledger never shows money Stripe did not take (`Guarantees.LedgerBackedByStripe`), but it may lack money
  Stripe took: an answer that is lost counts as a refusal. `Unrecorded.UnrecordedExactly` says exactly when,
  and `Unrecorded.CaptureGoesUnrecorded` and `Unrecorded.OverageGoesUnrecorded` are runs in which it happens.
  In the same way a booking can be cancelled as unpaid while Stripe keeps the hold
  (`Unrecorded.DeniedHoldExactly`, `Unrecorded.CancelledWithHold`).

## Model

| member | source | states |
|---|---|---|
| Guarantees.QuiescentAgreement | services/booking/service.py:75-283 | in every reachable state with everything sent handled, booking and payment of each rental agree: requested or rejected with no payment and never accepted, cancelled with authorization failed, confirmed with authorized, active with authorized (not returned) or capture failed (returned), completed with captured |
| Guarantees.BookingNeverAheadOfPayment | services/payment/service.py:22-92 | at every step, confirmed, active and completed bookings have an authorized payment, completed ones a captured payment and a logged return, cancelled ones a failed authorization |
| Guarantees.NoPaymentBeforeAcceptance | services/booking/service.py:106-124 | a request-mode booking that has a payment, or is confirmed, active, completed or cancelled, has an acceptance in its log, though the confirm transition does not test it |
| Guarantees.StallsExactlyWhenRejected | services/booking/service.py:226-283 | the next unclaimed payment event finds its booking and is applied if and only if the booking is not rejected; captured and capture-failed events are never refused |
| Guarantees.RejectedHoldIsNeverReleased | services/booking/service.py:129-143 | once a booking with an authorized hold is rejected, no run changes the row or the payment, or reaches a state with everything handled |
| Guarantees.NoVersionConflict | services/booking/repository.py:83-102 | appends made one transaction at a time never meet a taken version |
| Guarantees.CaptureEqualsHold | services/booking/service.py:209-221 | every capture command names the booking's host and exactly the amount held by that booking's payment, its price times the days from start to end, although the capture handler never compares them |
| Guarantees.KeyedCallsAgree | services/payment/service.py:26-111 | in any run, crashes and retries included, two Stripe calls under one idempotency key are the same request |
| Guarantees.LedgerConservation | services/payment/service.py:94-136 | a booking has ledger entries if and only if its payment is captured; then debits and credits both equal hold plus overage, the rental entries alone the hold and the mileage entries the overage, on the renter's and the host's account, every amount positive |
| Guarantees.LedgerBackedByStripe | services/payment/service.py:76-128 | a captured payment's hold, capture and overage charge are successes Stripe remembers, for the recorded amounts and under the recorded intents; the overage is zero or that of the first return |
| Guarantees.IntentsAreStripes | services/payment/service.py:26-58 | every payment names the intents Stripe answered with: its hold's unless authorization failed, and its overage charge's if and only if it records an overage |
| Guarantees.AmountCheckNeverFires | services/payment/migrations/versions/0001_initial.py:71 | with a positive vehicle price the ledger's amount check never aborts a handler |
| Guarantees.RowIsProjectionOfLog | services/booking/models.py:13-21 | replaying a booking's events from the created row gives the row; versions are exactly 2..version; two-event facts are adjacent; one handover at most |
| Guarantees.LogFollowsGrammar | services/booking/domain.py:60-150 | every log is a word of the saga's grammar and its place in the grammar is the row's status |
| Guarantees.OverageDecidedByReadings | services/booking/domain.py:103-137 | an active or completed row's overage is 50 cents for each mile over the allowance between the unique handover reading and the last return |
| Guarantees.HistoryIsPermanent | services/payment/service.py:22-74 | no later run shortens a booking's log or ledger, leaves a terminal status, changes a settled payment, or changes a hold's amount, renter or intent |
| Guarantees.RunPersistsViews | services/payment/service.py:22-136 | the same permanence for everything one booking's saga holds, over any run; Stripe's hold stays as it is, and it is asked nothing more about a payment once that is settled |
| Announcements.MessagesFollowTheLog | services/booking/service.py:37-72 | in every reachable state the messages sent for a booking are exactly those its log calls for, in order: holds and captures for price times days, and for each turn its own notice with renter, host and status |
| Announcements.NextTells | services/booking/service.py:112-283 | every step of a saga keeps its messages those its log calls for |
| Requests.RequestStores | services/booking/service.py:90-109 | a committed request stores the renter's choice and listing's answer, column by column, logs one event, and posts the hold for its price if and only if listing says the vehicle books instantly |
| Requests.HoldAskedExactly | services/booking/service.py:106-124 | however much later, the booking keeps the columns requested, and a hold has been asked for if and only if listing called the vehicle instant or the log has an acceptance |
| Requests.RequestAnswered | services/booking/repository.py:51-81 | which error a booking request gets in any reachable state, and when it commits |
| Requests.CommandAnswered | services/booking/service.py:112-283 | which error a command or reaction gets in any reachable state, and when it commits; a missing odometer and a concurrent update are never met serially |
| Requests.ExecuteRefused | services/booking/repository.py:83-102 | on any tables, a transaction fails for want of the booking, by its decision, because one of its versions is taken, or because its message's id is, in that order |
| Requests.DecisionRefused | services/booking/domain.py:60-150 | the error of a refused decision: a stranger, a wrong status or mode, or a missing handover reading |
| Requests.MessageAnswered | shared/kafka_consumer.py:99-118 | payment's transaction fails only on a taken event id or a capture of no positive amount; a claimed message changes nothing, any other claims its id and only adds rows |
| Payments.DeadHandlerIsAPrefix | services/payment/service.py:26-111 | a payment handler that dies has made a prefix of its Stripe calls, and Stripe remembers of those exactly what the finished handler would have left |
| Retries.RepeatedCommandCommitsExactly | services/booking/domain.py:60-137 | however much later, a host command that committed commits a second time if and only if it is an accept and the booking is still requested, or a return and it is still active; a rejection or a handover never does |
| Retries.RepeatedRequestNeedsEnd | services/booking/migrations/versions/0001_initial.py:64-72 | however much later, a booking request that committed is refused when made again while its first booking is neither rejected nor cancelled |
| Retries.RequestCommitsExactly | services/booking/repository.py:51-81 | in any reachable state a request for a bookable vehicle under unused ids commits if and only if each booking of the vehicle is cancelled, rejected, over before it starts or begins after it ends |
| Retries.SameRequestTwice | shared/idempotency.py:79-81 | a reachable state in which one request, made again after its booking was rejected, has left two bookings and asked for two holds |
| LateRejection.RejectCommits | services/booking/service.py:129-143 | in any reachable state a host's rejection of a requested booking commits, whatever payment has done |
| LateRejection.RequestedThenRejected | services/booking/service.py:129-143 | a state with a rejected booking whose payment was requested is reachable |
| LateRejection.HeldThenRejected | services/booking/service.py:129-143 | a state with a rejected booking and an authorized hold is reachable |
| LateRejection.RejectedEventBlocksPartition | shared/kafka_consumer.py:75-94 | the waiting event of a rejected booking and all later events of its partition, of any booking, are never claimed by any run |
| LateRejection.ClaimableExactly | shared/kafka_consumer.py:75-94 | some run claims a given event of payment's outbox if and only if no event at or before it on its partition is of a rejected booking |
| Unrecorded.DeniedHoldExactly | services/payment/service.py:26-59 | in any reachable state a payment whose hold Stripe remembers reads authorization failed if and only if the answer was lost when the hold was placed |
| Unrecorded.PlacedUnderSome | services/payment/service.py:22-25 | every payment of a reachable state was placed by one consumed authorization command, under some verdicts of Stripe |
| Unrecorded.CancelledWithHold | services/payment/service.py:26-44 | a reachable state with a cancelled booking, a failed payment and a hold Stripe keeps |
| Unrecorded.UnrecordedExactly | services/payment/service.py:76-117 | for a settled payment of any reachable state, a capture Stripe remembers is missing from the ledger if and only if its answer was lost when the payment was settled, and a remembered overage charge if and only if that answer or the capture's was |
| Unrecorded.SettledUnderSome | services/payment/service.py:62-74 | every settled payment of a reachable state was settled by one consumed capture command, under some verdicts of Stripe |
| Unrecorded.SettlingOutcome | services/payment/service.py:76-136 | the handler settles an authorized payment, and its books miss what Stripe remembers exactly if an answer was lost |
| Unrecorded.CaptureGoesUnrecorded | services/payment/service.py:82-92 | a reachable state in which Stripe captured the hold and the ledger is empty |
| Unrecorded.OverageGoesUnrecorded | services/payment/service.py:108-117 | a reachable state in which Stripe charged the overage and the captured payment records none |
| Guarantees.VersionsBounded | services/booking/migrations/versions/0001_initial.py:87 | no logged version of a booking exceeds its row's version |
| Totals.LedgerBalancesGlobally | services/payment/models.py:35-38 | over all bookings, total debits equal total credits equal the sum of hold and overage over captured payments |
| Liveness.RestExactlyWithoutLateRejection | shared/kafka_consumer.py:75-94 | with positive prices, and whatever sequence of verdicts Stripe gives, the services alone can reach a state with everything handled if and only if no booking was rejected after its payment was requested; otherwise no run reaches one |
| Liveness.RestIsReachable | shared/kafka_consumer.py:99-118 | the run of shipping and consuming that gets there, following any sequence of Stripe verdicts |
| Liveness.EnabledAdvances | shared/kafka_consumer.py:75-118 | call a state calm if it keeps the invariants, prices are positive and no booking was rejected after its payment was requested; every step the services can take from a calm state keeps it calm and leaves less work |
| Liveness.RejectedAfterRequest | services/booking/service.py:129-143 | after such a rejection every run stays short of rest |
| Liveness.PaymentReadAdvances | services/payment/service.py:13-136 | a record read by payment succeeds, under any fresh id and verdicts, and leaves less work |
| Liveness.BookingReadAdvances | services/booking/consumers.py:15-41 | a record read by booking succeeds, under any fresh id, and leaves less work |
| Liveness.EveryScheduleReachesRest | shared/kafka_consumer.py:75-118 | in whatever order connectors and consumers work and whatever Stripe answers, a run of theirs from a calm state is no longer than the work there is, and one that cannot go on has everything handled |
| Calendar.NoDoubleBooking | services/booking/migrations/versions/0001_initial.py:64-72 | in every reachable state two bookings of a vehicle that are neither cancelled nor rejected share no day |
| Calendar.DecisionsKeepDates | services/booking/domain.py:60-150 | a command only runs on a live booking and keeps its vehicle and dates, so no status change can create an overlap |
| Calendar.PackingBound | services/booking/domain.py:49-50 | k live bookings of a vehicle inside N days bill at most N - k days |
| System.ReachableInv | services/booking/service.py:75-283 | every reachable state satisfies the transport invariant and every booking's saga invariant |
| System.ApplyMovesOneSaga | shared/kafka_consumer.py:75-118 | every step of the system is at most one step of one booking's saga |
| System.CommandMoves | services/booking/service.py:112-223 | a committed host command is that command on its booking's saga and nothing else |
| System.RequestMoves | services/booking/service.py:75-109 | a committed request creates one saga and touches no other |
| System.PaymentReadsMoves | shared/kafka_consumer.py:108-116 | a record payment consumes, duplicate or not, is at most the next message of its booking; a failed handler changes Stripe's memory only |
| System.PaymentDiesMoves | services/payment/service.py:76-111 | a crash after any of the handler's Stripe calls leaves the database as it was |
| System.BookingReadsMoves | services/booking/consumers.py:15-41 | a record booking consumes is at most the next event of its booking |
| SagaSafety.DecideByTable | services/booking/domain.py:60-150 | a command is accepted if and only if status, mode, handover reading and caller allow it, and then row, events and message are the table's |
| SagaSafety.LogsMakeTheRow | services/booking/service.py:24-35 | applying the logged events to the old row gives the new one |
| SagaSafety.LogsFollowTheGrammar | services/booking/domain.py:35-46 | the events of a transition lead from its status's place in the grammar to its next status's place |
| SagaSafety.PendingEventFits | services/booking/service.py:226-283 | a waiting payment event fits the booking's status unless the booking was rejected |
| SagaSafety.HoldIsGood | services/payment/service.py:13-59 | the first authorization message records the hold the message names and the event that follows from Stripe's answer |
| SagaSafety.CaptureIsGood | services/payment/service.py:62-136 | a capture settles the payment with the matching ledger and event, or fails leaving only expected calls |
| SagaSafety.NextKeepsInv | services/payment/service.py:13-136 | every step of a saga keeps its invariant |
| SagaHistory.HalvesAreAdjacent | services/booking/domain.py:36-43 | in a log of the grammar each two-event fact is recorded as two adjacent events |
| SagaHistory.NextPersists | services/booking/service.py:112-283 | no step of a saga undoes what is permanent |
| Relay.ShipKeepsInv | shared/outbox.py:17-45 | shipping a row, again or for the first time, keeps per-partition order of first copies |
| Relay.ClaimKeepsInv | shared/inbox.py:17-22 | claiming the record read next keeps the claimed ids a prefix of each partition's share of the outbox |
| Relay.ConsumeTakesNext | shared/kafka_consumer.py:108-116 | an unclaimed record is exactly the next message its booking was sent, and claiming it moves no other booking |
| Relay.UncommittedIsReread | shared/kafka_consumer.py:75-94 | a record handled after the last commit is read again after a restart, and nothing before it |
| Delivery.CrashReturnsToCommit | shared/kafka_consumer.py:75-94 | whatever was handled since the last commit, a crash sends the consumer back to where it committed |
| Idempotency.StoredKeyIsReplayed | shared/idempotency.py:124-151 | however long after, and until a purge, a request with a stored key is answered with the stored reply, or a conflict if its body differs, and changes nothing |
| Idempotency.EveryRequestIsAnsweredOnce | shared/idempotency.py:84-104 | in any run the requests made are those answered, each once, and those still being built |
| Idempotency.PurgeForgets | shared/idempotency.py:156-169 | a purged key is new again: the next request with it is built, stored and answered afresh, and other keys are untouched |
| Relay.NothingIsLost | shared/outbox.py:17-45 | once everything is shipped and read, every outbox row has been claimed |
| Delivery.AtLeastOnceRefinesExactlyOnce | shared/kafka_consumer.py:75-94 | for any log and schedule of failures, commits and crashes, the effective handler runs are a prefix of the log's first occurrences, in order and once each, and cover everything before the committed offset |
| Delivery.TablesAfterAnySchedule | shared/kafka_consumer.py:99-118 | after any schedule the booking tables are those of handling a prefix of the log's first occurrences once each, and the whole of them at the end of the log |
| Delivery.RunConsumer | shared/kafka_consumer.py:50-96 | the loop handles records in order, commits each offset after its record, and stops at the first failing record with its offset uncommitted |
| Delivery.RedeliveryChangesNothing | shared/inbox.py:17-22 | delivering any suffix of a handled log again changes no table |
| Interleaving.Serializable | services/booking/repository.py:83-102 | any interleaving of read-then-append transactions leaves the tables of the committed ones run one after another in commit order |
| Interleaving.CommitsOnlyIfCurrent | services/booking/migrations/versions/0001_initial.py:87 | a transaction commits, with the effect it would have alone, exactly if the version it read is current, and is refused as a concurrent update otherwise |
| Interleaving.StepIsSerial | services/booking/models.py:52-55 | one interleaved step commits what running its work alone commits |
| Overlapping.OverlappingIsSerial | services/booking/repository.py:83-102 | however host commands and consumed events overlap in the whole system, its state is one that the serial run of what committed reaches, so everything proved of reachable states holds |
| Overlapping.CommitIsAStep | shared/kafka_consumer.py:99-118 | a transaction that read its row earlier finishes as one serial step or none: its command, its record consumed, or its consumer taken down |
| BookingService.BookingSession.AppendEvents | services/booking/repository.py:83-102 | inserts the events under consecutive versions and moves version and status, or refuses if any version is taken |
| BookingService.BookingSession.CreateRequested | services/booking/repository.py:51-81 | inserts the row unless its id is taken, its range is invalid or a live booking of the vehicle overlaps |
| BookingService.BookingSession.RequestBookingFor | services/booking/service.py:75-109 | the request transaction, or its error |
| BookingService.BookingSession.AcceptBookingRequest | services/booking/service.py:112-126 | the accept transaction, or its error |
| BookingService.BookingSession.RejectBookingRequest | services/booking/service.py:129-143 | the reject transaction, or its error |
| BookingService.BookingSession.RecordHandoverOf | services/booking/service.py:162-184 | the handover transaction, or its error |
| BookingService.BookingSession.RecordReturnOf | services/booking/service.py:187-223 | the return transaction, or its error |
| BookingService.BookingSession.ApplyPaymentEvent | services/booking/service.py:226-283 | the reaction to each of the four payment events, or its error |
| BookingService.BookingSession.WriteOutboxEvent | shared/outbox.py:17-45 | appends the row in the caller's transaction unless its id is taken |
| BookingService.BookingSession.ClaimEvent | shared/inbox.py:17-22 | claims an event id and reports whether it was new |
| BookingService.ProcessPaymentEvent | shared/kafka_consumer.py:99-118 | claim, reaction and commit are one transaction; an error leaves the database as it was |
| PaymentService.PaymentSession.HandleAuthorizePaymentRequested | services/payment/service.py:13-59 | the authorize handler: payment row, outbox event and Stripe's memory, for every verdict |
| PaymentService.PaymentSession.HandleCapturePaymentRequested | services/payment/service.py:62-136 | the capture handler along all its paths: skipped, declined, refused by the ledger, without overage, overage declined, overage charged |
| PaymentService.PaymentSession.WriteLedgerPair | services/payment/repository.py:43-73 | a debit and a credit of the same positive amount, or a refusal |
| PaymentService.StripeClient.Send | services/payment/stripe_client.py:31-71 | a known key is answered from memory and stays as it is, with an error if the parameters differ or the answer is lost; a new key is remembered with its decision unless the request is lost; no other slot or booking is touched |
| PaymentService.ProcessMessage | shared/kafka_consumer.py:99-118 | claim, dispatch and commit are one transaction outside of which only Stripe's memory changes |
| Idempotency.IdempotencyGuard.Store | shared/idempotency.py:48-81 | stores and commits a new key, adopts and commits on a lost race with the same body, refuses another body without committing |
| Idempotency.IdempotencyGuard.RespondIdempotently | shared/idempotency.py:84-104 | replays a known key without touching the session, otherwise builds, stores and answers with the stored reply |
| Idempotency.ResponsesAgree | shared/idempotency.py:107-151 | between purges of a key all successful answers to it are equal and were given to one request body, for any interleaving |
| Idempotency.StoredRowAnswersAll | shared/idempotency.py:124-151 | a stored row never changes before its purge and decides every later answer to its key |
| Idempotency.OtherBodyCommitsNothing | shared/idempotency.py:74-78 | a request with another body hash gets an error and commits nothing |
| Idempotency.RaceCommitsTwice | shared/idempotency.py:79-81 | two overlapping requests with one key and body both commit, with equal answers |
| Idempotency.SecondEffectExactly | shared/idempotency.py:64-81 | over any run from before a key's first response to its purge, the key gets a second effect if and only if some request with the same body was past its lookup when the first response was stored, and finished with its response built |
| Idempotency.LateFinishesAddEffects | shared/idempotency.py:79-81 | once a key is stored, a run adds exactly as many effects to it as requests with the stored body finish late |
| Idempotency.OneByOneOneEffect | shared/idempotency.py:84-104 | requests that do not overlap commit at most one effect for a key |
| Listing.ListingSession.UpdateVehicle | services/listing/service.py:101-122 | the owner's changes to the editable columns and one event with the new state, or the error |
| Listing.ListingSession.ApproveVehicle | services/listing/service.py:125-142 | a pending vehicle becomes approved with one event, or the error |
| Listing.ListingSession.RejectVehicle | services/listing/service.py:145-153 | a pending vehicle becomes rejected without an event, or the error |
| Listing.OperationMeans | services/listing/service.py:101-153 | which error an operation gets, and otherwise the vehicle it leaves column by column (an edit changes exactly the columns it names), that no other vehicle changes, and the one event posted with that state |
| Listing.ColumnIsLastGiven | services/listing/service.py:9-18 | after any serial history every column of every vehicle holds the value the last committed operation gave it |
| Listing.RepeatedOperation | services/listing/service.py:101-153 | however much later, an operation that committed commits again when repeated if and only if it is an edit or a creation under a new id |
| Search.SearchRepository.HandleVehicleEvent | services/search/service.py:9-19 | an approved vehicle's entry holds its ids, columns and coordinates; any other vehicle has none; no other entry changes |
| Search.IndexByColumns | services/search/documents.py:1-12 | after any serial history the index has an entry for exactly the approved vehicles and says of each, column by column, what the listing table says; a backfill builds the same |
| Search.ResultShowsVehicle | services/search/schemas.py:21-33 | reading a document back gives the vehicle's ids and all of its columns |
| Search.StreamBuildsView | services/listing/service.py:33-49 | consuming the event log of any serial history gives exactly the approved vehicles with their current fields |
| Search.RedeliveryConverges | services/search/repository.py:9-16 | any trace that moves forward one event at a time or jumps back, and ends at the last event, leaves the index of a single pass |
| Search.DedupedStream | services/search/consumers.py:16-21 | while no claim has expired, any trace leaves the index of reading once as much of the log as it has reached |
| Search.RedeliveredSuffixIsSkipped | services/search/consumers.py:18-19 | redelivery after the whole log was read changes neither index nor claims |
| Search.RedeliveryAfterExpiry | services/search/redis_inbox.py:12-14 | after some claims of a fully read log expired, a redelivery from any offset leaves the right index if and only if each vehicle's last event delivered again without a claim has the effect of the vehicle's last event |
| Search.RedeliveryLeavesIndexExactly | services/search/redis_inbox.py:3-9 | from any index and claims, a redelivery changes nothing if and only if each vehicle's last reapplied event says what the index shows |
| Search.DyingAfterTheClaim | services/search/consumers.py:18-21 | when the process dies after a claim and before the write, the index is right at the end of the log if and only if a later event of the vehicle follows or there was nothing to write |
| Search.IndexRightExactly | services/search/consumers.py:16-21 | after any mixture of deliveries, deaths between claim and write and expiries, the index is right if and only if each vehicle's last written event says what its last event in the log says, and a vehicle never written has nothing to show |
| Search.ExpiredClaimRevertsAnUpdate | services/search/redis_inbox.py:3-14 | an expired claim before a live one puts a vehicle's old price back |
| Search.ListingEventProcessor.ProcessEvent | services/search/consumers.py:13-23 | ignores other event types, skips a claimed event, otherwise claims it and writes the index |
| Search.PageIsSlice | services/listing/routes.py:106-110 | a page holds the next vehicles up to the limit, and names a next offset if and only if more are left |
| Search.RunBackfill | services/search/backfill.py:58-78 | for any positive page size the paging loop ends, counts every approved vehicle once and indexes them in order |
| Search.BackfillBuildsView | services/listing/routes.py:106-110 | indexing the listed vehicles from empty gives exactly the approved ones |
| Search.BackfillEqualsStream | services/search/backfill.py:27-40 | after any serial history the backfill and the event stream build the same index |

## Left out

- FastAPI routing, JWT, roles, password hashing and settings: callers' ids arrive as parameters; the only request validation modelled is that a booking starts before it ends.
- Kafka, Debezium, Postgres, Redis and Elasticsearch themselves: they appear as logs with offsets, atomic transactions with constraint checks, and maps. Consumers of one group are modelled as owning their partitions.
- JSON encoding, trace context, metrics, lag reporting, timestamps and 32-bit column overflow.
- Row identity columns: event and ledger rows carry no id of their own, and a payment is identified by its booking, to which it is 1:1.
- The odometer, fuel and photo columns of one reading are kept as one value, since they are only ever written together.
- Stripe's webhook and any other inbox user: it drives no step of the saga, and its event ids do not collide with outbox ids.
- Other consumers of the booking topic (notification, admin): they read lifecycle notices, which the model sends and payment skips.
- Telemetry, notification, admin, availability blocks, search queries and their cache: last-write-wins or pass-through code that would add only easy members.
- The exact purge age of idempotency keys: a purge removes any set of keys.
- Concurrent listing transactions, which may emit stale snapshots: listing histories are serial.
- Search.ListingEventProcessor.ProcessEvent: the method runs claim and write uninterrupted; what a stop between them costs is the subject of Search.DyingAfterTheClaim.
- Overlapping.OverlappingIsSerial: a consumer's open transaction is given up when its partition is read from elsewhere or its event was claimed meanwhile; requests and payment's handlers run one at a time, each being a single insert or having its partition to itself.
