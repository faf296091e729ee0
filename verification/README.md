# Verification of PulsarPass's reservation saga

PulsarPass sells tickets through three services that only agree by messages. `pulsar-core`
holds event counters, versioned reservation rows and an outbox. `pulsar-payment` projects
reservations, charges an acquirer once per idempotency key and has an outbox of its own.
Relays (`horizon`) publish outboxes, a sweeper (`chrono`) publishes overdue reservations, and
the broker delivers at least once, in any order, up to a budget. This project models that
system and proves what it is for: no overbooking, one serial history, one effect per command,
one charge per idempotency key, and agreement between the two databases, under crashes, duplicates, reordering
and concurrent transactions.

How the files fit together:

- `CoreModel.dfy` gives the rows, each SQL statement's effect, and `Exec`: the serial meaning of
  Reserve and of Confirm, Expire, Fail and Cancel (one command, `Settle`, by the state aimed at).
  `Sums.dfy` sums quantities over the reservation table.
- `CoreStore.dfy` runs the use cases as the code does, on mutable entities and tables, with
  statements and commits that may fail, and proves every method against `Exec`.
- `Interleaving.dfy` runs the same use cases statement by statement with locks and proves that
  every interleaving refines a serial run of `Exec`.
- `CoreLedger.dfy` and `Replays.dfy` prove what every serial run keeps; by the refinement it holds
  of every interleaving.
- `CoreLaws.dfy` states for every command and every reachable database what is answered and left
  behind, in terms of rows, prices and sums of quantities alone; `PaymentLaws.dfy` does the same
  for a payment run and the acquirer's answer, and `TokenLaws.dfy` for the token table's text.
- `Payment.dfy` is the payment machine with crashes between any two steps; `Processor.dfy` is the
  code over mutable tables, proved against that machine's steps.
- `Saga.dfy` puts both databases, both outboxes, the relays, the sweeper and the broker together;
  `Subscribers.dfy` is the code of the message handlers, proved against its steps, and
  `PaymentRuns.dfy` turns what the processor's code promises into runs of it.
- `Concurrent.dfy` is the saga over the statement-level core of `Interleaving.dfy`, and refines
  `Saga.dfy`; `Answers.dfy` proves what an answered or acknowledged message means,
  `Approvals.dfy` that no reservation is CONFIRMED without an approving answer, `Windows.dfy`
  which window and owner a charge is checked against, and `Mishaps.dfy` runs the
  whole system from a seeded database into the two ways it breaks a promise to a customer.
- `Oldest.dfy`, `Relay.dfy` and `Chrono.dfy` treat the two "oldest first, limited" pollers.
- `Holds.dfy`, `Delivery.dfy` and `Tokens.dfy` treat the hold breaker and its counters, redelivery
  pacing, and the gateway's token table.

Five promises turned out to hold only under a condition, which is proved exact:

- The stored amount is price times quantity if and only if that product is below 2^63. The code
  multiplies two int64 values without an overflow check (`AmountExactIff`, `AmountOverflowExample`).
- An accepted redelivery of a command that already succeeded, or of another cause of the same
  settlement, changes nothing if and only if it carries a reservation id. Reserve commands without one are accepted and write on every accepted
  delivery (`ReplayWritesIffNoId`, `EmptyIdReservesTwice`).
- Charges stay inside the retention window (internal/core/application/service.go:198-200), the
  stated reason why a confirmation has no expiry check, if and only if the window of the
  reservation the command names does not outlast that of the reservation being paid. The
  processor checks the former and charges the payment stored under the idempotency key, which may
  be for another reservation when a client reuses its key (`ChargedInWindowIff`,
  `ReusedKeyPaysForAnother`).
- Only the owner of a reservation pays it (internal/payment/processor.go:193-196) if and only if
  those two reservations have the same owner (`ChargedToOwnerIff`). A command that names the
  reservation its key's payment is for keeps both promises (`OwnReservationIsSafe`).
- A succeeded payment is honored even when its event arrives after the window
  (internal/core/application/service.go:198-200) if and only if its outcome message is answered,
  that is, unless an expiry, a cancellation or a failed payment released the reservation first.
  Then the customer stays charged and the message ends as a dead letter (`SuccessIsHonoredIff`,
  `ChargedButReleased`).

Where comments in the repository and its code disagree, the model follows the code:

- The sale-opening tolerance is described as roughly 14 s (internal/core/subscribers.go:25); the
  delays add up to 11.85 s between the first and the tenth delivery.
- The relay reads its batch without locking rows (internal/horizon/adapter/postgres/store.go:31-36),
  so several relays may publish the same row.
- The tables `tickets` and `processed_messages` are never written by a service; deduplication is
  done by the reservation state machine and is modelled there.

Assumptions: deliveries with the same idempotency key are handled one at a time, because
`UpdateStatus` has no guard on the old status; generated identifiers are non-empty; seeded
counters are zero and capacities fit the `integer` column; prices and opening times of events
do not change while the services run. Clock readings, generated ids, the acquirer's answers and
the results of statements and commits are arbitrary: parameters or nondeterministic choices.

## Model

| member | source | states |
|---|---|---|
| CoreStore.Reservation.New | internal/core/domain/reservation.go:55-77 | a new reservation is PENDING at version 1, its window starts at creation, its amount is the int64 product of price and quantity |
| CoreStore.Reservation.Confirm | internal/core/domain/reservation.go:84-93 | moves only a PENDING reservation; otherwise an error and no change |
| CoreStore.Reservation.Expire | internal/core/domain/reservation.go:96-106 | as above, and only strictly after the window has closed |
| CoreStore.Reservation.MarkFailed | internal/core/domain/reservation.go:109-116 | moves only a PENDING reservation; otherwise an error and no change |
| CoreStore.Reservation.Cancel | internal/core/domain/reservation.go:119-126 | moves only a PENDING reservation; otherwise an error and no change |
| CoreStore.Reservation.Touch | internal/core/domain/reservation.go:128-131 | every move bumps the version by one and stamps the time |
| CoreStore.Event.Reserve | internal/core/domain/event.go:23-32 | the in-memory counter rule and the guarded SQL statement accept the same quantities, with the same result, wherever the counters fit the column type |
| CoreStore.Event.Release | internal/core/domain/event.go:35-41 | agrees with the SQL release for every positive quantity; refuses others |
| CoreStore.Event.ConfirmSold | internal/core/domain/event.go:44-51 | agrees with the SQL sale for every positive quantity; refuses others |
| CoreStore.Store.Begin | pkg/pgtx/pgtx.go:42-49 | opens a transaction only if none surrounds the caller |
| CoreStore.Store.End | pkg/pgtx/pgtx.go:50-61 | rollback restores exactly the state at the beginning; a nested end changes nothing; a failed commit took effect entirely or not at all |
| CoreStore.Store.Get | internal/core/adapter/postgres/reservations.go:44-64 | returns the stored row; "not found" exactly for a missing one, unless the store fails |
| CoreStore.Store.GetEvent | internal/core/adapter/postgres/inventory.go:29-46 | returns the stored event; "not found" exactly for a missing one, unless the store fails |
| CoreStore.Store.NotFoundOr | internal/core/adapter/postgres/inventory.go:104-113 | separates a missing event from a failed guard |
| CoreStore.Store.ReserveCapacity | internal/core/adapter/postgres/inventory.go:50-65 | success changes one counter of one event within capacity; any error changes nothing and names its true cause |
| CoreStore.Store.ReleaseCapacity | internal/core/adapter/postgres/inventory.go:68-83 | success returns seats of one event that were reserved; any error changes nothing and names its true cause |
| CoreStore.Store.CommitSold | internal/core/adapter/postgres/inventory.go:86-102 | success moves reserved seats to sold; any error changes nothing and names its true cause |
| CoreStore.Store.Create | internal/core/adapter/postgres/reservations.go:27-41 | inserts exactly when neither the id nor the active user-and-event slot is taken; a conflict is reported only for one of them |
| CoreStore.Store.Update | internal/core/adapter/postgres/reservations.go:68-86 | compare-and-set on the previous version; only the four mutable columns change |
| CoreStore.Store.Enqueue | internal/core/adapter/postgres/outbox.go:26-51 | success appends all records in order; failure part-way is reported |
| CoreStore.ReservationService.Reserve | internal/core/application/service.go:69-80 | the whole use case is its serial meaning or has no effect; only a store error may hide which |
| CoreStore.ReservationService.SettleTo | internal/core/application/service.go:82-107 | the same for Confirm, Expire, Fail and Cancel, with rollback of partial writes on any error |
| CoreStore.ReservationService.ReserveInTx | internal/core/application/service.go:126-183 | on success the tables are the serial result; on failure the error is the serial one or a store error |
| CoreStore.ReservationService.Load | internal/core/application/service.go:294-299 | an empty id is not found; otherwise the stored row |
| CoreStore.ReservationService.ConfirmInTx | internal/core/application/service.go:185-220 | on success the tables are the serial result; on failure the error is the serial one or a store error |
| CoreStore.ReservationService.ReleaseInTx | internal/core/application/service.go:233-276 | the same for the three releases, cross-cause replays included |
| CoreLedger.AppliedWrites | internal/core/application/service.go:126-276 | an applied use case is exactly one permitted write: one event's counters, one row, one ticket, of the reservation named, in the state asked for |
| CoreLedger.StepSettles | internal/core/application/service.go:185-276 | a use case settles only the reservation it names, and only as told |
| CoreLedger.WriteKeepsCounters | deployments/k6/verify.sql:6-22 | a permitted write keeps both counters equal to the sums of quantities, and their total within capacity |
| CoreLedger.ExecKeepsLedger | deployments/k6/verify.sql:6-22 | every use case keeps reserved = sum of PENDING, sold = sum of CONFIRMED, total within capacity, one active reservation per user and event |
| CoreLedger.SerialKeepsLedger | deployments/k6/verify.sql:6-22 | the same over whole serial runs |
| CoreLedger.CountersCoverRows | migrations/core/000001_init.up.sql:14-19 | counters are never negative and cover every single reservation counted in them |
| CoreLedger.SettleAlwaysLands | internal/core/adapter/postgres/inventory.go:68-102 | serially no counter guard and no version check ever fails: a PENDING reservation always moves (expiry after the window), a settled one never |
| CoreLedger.OutcomeSettles | internal/core/application/service.go:185-276 | confirming or failing an existing reservation leaves it settled, whatever it was |
| CoreLedger.SerialEvolves | internal/core/adapter/postgres/reservations.go:66-86 | over any run no row or ticket is lost, terms and prices never change, terminal states are final |
| CoreLedger.AmountExactIff | internal/core/application/service.go:160 | the stored amount is price times quantity if and only if the product is below 2^63 |
| CoreLedger.AmountOverflowExample | internal/core/application/service.go:155-163 | a concrete reservation of four seats stored for four cents |
| CoreLaws.ReserveUnsold | internal/core/application/service.go:126-151 | every answer a reserve command gets before seats are looked at, in order: malformed, bad id, replay, unknown event, not on sale before the opening instant |
| CoreLaws.SoldOutIff | internal/core/adapter/postgres/inventory.go:50-65 | sold out is answered if and only if the PENDING and CONFIRMED quantities leave no room for the seats asked for |
| CoreLaws.ReservedIff | internal/core/application/service.go:152-182 | a reserve command writes if and only if its seats are left and its keys are free, down to the last seat; then exactly its counter, its reservation with the terms and window asked for, and its ticket appear |
| CoreLaws.ReserveConflictIff | internal/core/adapter/postgres/reservations.go:27-41 | exactly when a reserve command with seats left is refused for a taken key, or fails for a number that does not fit |
| CoreLaws.UnsettledIs | internal/core/application/service.go:185-247 | every answer of a settlement that moves nothing: unknown, replay, refused, or too early to expire |
| CoreLaws.SettledIs | internal/core/application/service.go:201-275 | a settlement of a PENDING reservation changes exactly its state, version and times, moves exactly its seats, and writes one ticket with the reason of the state |
| CoreLaws.ConfirmedAtCommand | internal/core/domain/reservation.go:84-93 | over any run a confirmed reservation carries the instant of the command that confirmed it |
| CoreLedger.WriteKeepsView | internal/core/application/service.go:164-182 | the ticket of a write carries exactly the change of counters and status |
| CoreLedger.ExecKeepsOutbox | internal/core/application/service.go:164-276 | every use case keeps the outbox a faithful ledger |
| CoreLedger.OutboxIsLedger | internal/core/application/service.go:164-276 | folding the outbox rebuilds both counters of every event and every reservation's status; each reservation has one ticket.reserved and, once settled, exactly one closing ticket with the matching reason |
| Replays.AppliedIsDone | internal/core/application/service.go:133-143 | an accepted command with a reservation id has nothing left to do |
| Replays.DoneIsStable | internal/core/application/service.go:190-197 | no other use case makes it undone |
| Replays.DoneIsNoop | internal/core/application/service.go:133-143 | a repeated command writes nothing, whatever its clock says |
| Replays.SucceededIsDone | internal/core/application/service.go:133-143 | success anywhere in a run makes the command done at its end |
| Replays.ErasedIsNoop | internal/core/application/service.go:238-247 | a covered delivery would have written nothing, whatever it reads and whatever ran in between; a covered settlement would have reported a replay, or an invalid transition exactly when confirmation and release meet |
| Replays.ErasingReplaysChangesNothing | internal/core/application/service.go:133-143 | erasing any set of deliveries covered by an earlier success from any run leaves reservations, counters and outbox exactly as they were: repeats of the same command, and other causes of a settlement that has happened, such as failed after expired |
| Replays.ReplayWritesIffNoId | internal/core/application/service.go:137-143 | an accepted delivery covered by an earlier success writes if and only if the command has no reservation id, and then it creates another reservation |
| Replays.EmptyIdReservesTwice | internal/core/application/service.go:137-143 | a concrete run in which one such command reserves twice |
| Interleaving.CommitIsExec | internal/core/application/service.go:278-292 | at its commit, what a transaction writes is what its serial execution would do at that moment |
| Interleaving.ReplayIsExec | internal/core/application/service.go:133-143 | a replay answered from an old read is still a replay at its commit |
| Interleaving.CommitKeepsOther | internal/core/adapter/postgres/reservations.go:68-86 | a commit keeps true whatever another open transaction has already checked |
| Interleaving.StepKeepsInv | pkg/pgtx/pgtx.go:42-62 | every statement, commit, rollback or crash keeps the invariant that relates commits to a serial run |
| Interleaving.InterleavingRefinesSerial | internal/core/application/service.go:126-292 | for any number of interleaved, crashing and rolled-back use cases, the committed database is the serial run of just the committed ones in commit order, and none of them fails in it |
| Interleaving.SeatLedger | deployments/k6/verify.sql:6-22 | the seat ledger and the one-active rule in every reachable committed state of every interleaving |
| Interleaving.InterleavedOutboxIsLedger | internal/core/application/service.go:164-276 | the outbox rebuilds counters and statuses in every reachable committed state |
| Interleaving.InterleavingEvolves | internal/core/domain/reservation.go:79-131 | between any two moments of any interleaving, terminal reservations and all terms are unchanged and nothing is lost |
| Interleaving.VersionIsStateMachine | internal/core/domain/reservation.go:79-131 | version 1 exactly when PENDING and 2 otherwise, confirmation time exactly when CONFIRMED and then that of the last change, EXPIRED only after the window, in every reachable state |
| Interleaving.GuardErrorMeansLostRace | internal/core/adapter/postgres/inventory.go:68-102 | a failing counter guard means someone else settled the reservation, so the version check would fail too |
| Interleaving.LostRaceNeverCommits | internal/core/adapter/postgres/reservations.go:66-85 | a transaction whose reservation was settled by another never gets past the version check |
| Interleaving.AbortIsExplained | internal/core/application/service.go:126-276 | the error an aborted use case reports is the one its serial execution reports at that moment, unless that has become a replay or somebody else settled its reservation |
| Interleaving.SoldOutIsSerial | internal/core/subscribers.go:98-104 | sold out, the one acknowledged error, is only reported of a reserve command when the committed quantities leave no room for its seats, or when it has become a replay |
| Interleaving.NoDeadlock | internal/core/application/service.go:205-210 | while transactions are open, at least one of them can take its next step |
| Payment.SetStatusIsOwnRow | internal/payment/adapter/postgres/payments.go:67-77 | the unguarded update by id touches exactly the row of its own idempotency key |
| Payment.NextKeepsInv | internal/payment/processor.go:179-372 | every step and crash keeps the payment invariant and evolves rows only from undecided to decided |
| Payment.ExecKeepsInv | internal/payment/processor.go:179-372 | the same over whole runs |
| Payment.StepMoves | internal/payment/processor.go:284-309 | every new row is priced by its run's context, every run keeps its request and context |
| Payment.ChargeBound | internal/payment/processor.go:203-236 | calls per key are at most one more than the runs that charged and died before committing |
| Payment.NeverChargedOnceDecided | internal/payment/processor.go:207-224 | the acquirer is called only for a stored, undecided payment, inside the window of the reservation the command names |
| Windows.ChargedInWindowIff | internal/payment/processor.go:203-231 | in every reachable state, a charge is sure to fall inside the window of the reservation being paid if and only if the named reservation's window does not outlast it |
| Windows.ChargedToOwnerIff | internal/payment/processor.go:192-231 | the user who sent the command is the user of the payment charged if and only if the reservation named and the one paid have the same owner |
| Windows.OwnReservationIsSafe | internal/payment/processor.go:192-231 | a command naming the reservation its key's payment is for is charged inside its window, to its owner |
| Mishaps.ReusedKeyPaysForAnother | internal/gateway/handler.go:115-158 | a concrete run of the whole system in which a reused key charges another user's payment after its window, the command is answered, and the named reservation is never paid |
| Payment.OutcomesAgree | internal/payment/processor.go:357-381 | all outcome events of one payment are equal and state what its row states |
| Payment.DecidedIsFinal | internal/payment/processor.go:207-218 | over any run a decided payment never changes and no event is withdrawn |
| PaymentLaws.DecisionIs | internal/payment/processor.go:220-235 | the acquirer is called exactly inside the window; the row becomes SUCCEEDED with its reference exactly if it approved, FAILED with its reason or the elapsed window otherwise; one event announces the row |
| PaymentLaws.AcceptedDeliveryIs | internal/payment/processor.go:179-236 | a delivery without error was complete and the owner's, works on the stored payment of its key or a fresh one, decides it by this answer only if it was undecided, and announces what the row says |
| PaymentLaws.DecisionsAreGrounded | internal/payment/processor.go:220-235 | over every run a SUCCEEDED payment was approved with its reference, a FAILED one declined with its reason or out of time |
| Approvals.ConfirmedWasApproved | internal/core/subscribers.go:117-144 | over every run of the whole system a CONFIRMED reservation has a payment the acquirer approved in that run, a FAILED one a payment it declined or that came too late |
| Processor.AwaitedIsFirstAnswer | internal/payment/processor.go:244-280 | the wait's answer is the first read that is not "not found" |
| Processor.PaymentProcessor.WaitContext | internal/payment/processor.go:244-280 | re-reading a projection that others go on filling, it returns that answer after exactly the specified sleeps, at most attempts + 1 reads and attempts sleeps, all reads before the last being "not found"; a context it returns is the one stored then |
| Processor.MissingMeans | internal/payment/processor.go:244-280 | a wait without an answer found nothing projected at any read it made, at all attempts + 1 or up to an aborted sleep |
| Processor.SleepsAtMost | internal/payment/processor.go:252-273 | a wait sleeps at most once per attempt, and as often as that exactly when nothing is found and no sleep aborted before the last attempt |
| Processor.PaymentStore.End | pkg/pgtx/pgtx.go:50-61 | rollback restores both tables; a failed commit took effect entirely or not at all |
| Processor.PaymentStore.Create | internal/payment/adapter/postgres/payments.go:29-41 | inserts only a positive amount under unused keys; reports a duplicate only for one |
| Processor.PaymentStore.GetByIdempotencyKey | internal/payment/adapter/postgres/payments.go:45-64 | returns the row of that key; "not found" only when there is none |
| Processor.PaymentStore.UpdateStatus | internal/payment/adapter/postgres/payments.go:67-77 | rewrites status, reference and reason of the rows with that id, whatever their old status |
| Processor.PaymentStore.Enqueue | internal/payment/adapter/postgres/outbox.go:24-49 | appends the event or changes nothing |
| Processor.PaymentProcessor.LoadOrCreate | internal/payment/processor.go:284-309 | is the machine's persist step: a fresh pending payment, or the stored one of the key |
| Processor.PaymentProcessor.Finish | internal/payment/processor.go:312-352 | status and outcome event change together or not at all, also when the commit's result is unknown |
| Processor.PaymentProcessor.Decide | internal/payment/processor.go:207-236 | is the machine's decide and conclude steps, cut short at most by a failure; it asks for the stored payment's user, amount and currency exactly when undecided and in time |
| Processor.PaymentProcessor.Proceed | internal/payment/processor.go:203-236 | from the context on, one delivery is a prefix of the machine's steps, all of them on success |
| Processor.PaymentProcessor.Handle | internal/payment/processor.go:179-236 | one delivery is a prefix of the machine's steps, all of them on success; incomplete, unprojected or foreign requests change nothing and call nobody; it sleeps exactly as often as its wait and charges at most once, what is stored under its key |
| Saga.OutcomeIsBacked | internal/core/subscribers.go:117-144 | every outcome message in the broker is backed by a decided payment over the amount of the reservation it names |
| Saga.WorkAnswersIff | internal/core/subscribers.go:92-105 | core work answers its message if and only if it ran without a fault and was accepted, or was a reserve command that was sold out |
| Saga.NextKeepsInv | internal/core/subscribers.go:75-159 | every step of the whole system keeps the agreement between its parts |
| Saga.ReachableInv | internal/core/subscribers.go:75-159 | so it holds in every reachable state |
| Saga.CoreAgreesWithPayments | internal/core/subscribers.go:117-144 | in every reachable state a CONFIRMED reservation has a SUCCEEDED payment and a FAILED one a FAILED payment, over its own stored amount |
| Saga.SucceededDelivery | internal/core/subscribers.go:117-129 | a clean delivery of payment.succeeded confirms a PENDING reservation, leaves others as they were, and is acknowledged exactly when the reservation ends CONFIRMED |
| Saga.DeliveredOutcomeSettles | internal/core/subscribers.go:117-144 | once an outcome was delivered without a store fault its reservation is never PENDING again, in any later state |
| Saga.PricesAgree | internal/payment/subscribers.go:52-74 | contexts, payments and outcome events carry the user, amount, currency and expiry of the reservation they name, for every relay order and duplication |
| Saga.RedeliveryChangesNothing | internal/core/subscribers.go:75-159 | after a message was applied, any redelivery, duplicate or other cause of the same settlement leaves the core database unchanged |
| Saga.ReachableApplied | internal/core/application/service.go:133-143 | every applied message with a reservation id has nothing left to do, in every reachable state |
| Saga.DeliveriesCounted | pkg/eventbus/jetstream.go:224-264 | an entry's counter is the number of times the run handed it to its consumer |
| Saga.BudgetHolds | pkg/eventbus/jetstream.go:98-100 | no run delivers a message more often than its budget; a dead-lettered one was delivered exactly that often, an acknowledged one at least once |
| Saga.MarkedIsStored | internal/horizon/relay.go:80-108 | whatever a relay has marked is in the broker's stream, for every crash between publish and mark and every dropped duplicate |
| Subscribers.CoreSubscribers.OnReserve | internal/core/subscribers.go:75-114 | is a work step of the saga for some behaviour of the store, and answers exactly when that outcome may be acknowledged, sold out included |
| Subscribers.CoreSubscribers.OnPaymentSucceeded | internal/core/subscribers.go:117-129 | is the saga's work step that confirms the reservation named |
| Subscribers.CoreSubscribers.OnPaymentFailed | internal/core/subscribers.go:132-144 | is the saga's work step that fails the reservation named |
| Subscribers.CoreSubscribers.OnReservationExpired | internal/core/subscribers.go:147-159 | is the saga's work step that expires the reservation named |
| Subscribers.CoreSubscribers.Consume | pkg/eventbus/jetstream.go:224-282 | a delivery is acknowledged exactly when its handler answered, and otherwise asked for again after 100, 250, 500, 1000 and then 2000 ms by attempt, 2000 ms if the attempt is unknown |
| Subscribers.ConsumeMeetsOpening | internal/core/subscribers.go:22-35 | a reserve command refused delivery after delivery, each no earlier than the delay asked for, is not refused as not open at the last one if it first came within the tolerance |
| Subscribers.ServesIsWork | internal/core/subscribers.go:75-159 | what a handler did to the database and answered is exactly one work step of the saga |
| Subscribers.PaymentSubscribers.OnTicketReserved | internal/payment/subscribers.go:52-74 | a true ticket leaves its reservation's present user, amount, currency and expiry in the projection and touches no other context, so projected contexts stay equal to their reservations |
| Subscribers.PaymentSubscribers.OnPaymentProcess | internal/payment/subscribers.go:78-96 | one payment run under the header's key or else the message id, sleeping exactly as often as its wait |
| PaymentRuns.HandledIsRun | internal/payment/processor.go:179-236 | a payment command's delivery, whatever others do while it waits, and what the processor's code then does to the tables and the acquirer are together a run of the saga, and a command the code accepts is answered there |
| Subscribers.TotalInlinePause | internal/payment/processor.go:244-280 | over any run of the whole system, the waits of all deliveries of one payment command pause inline at most MaxDeliver * attempts * delay |
| Answers.AnsweredIsDone | internal/core/subscribers.go:75-159 | in every reachable state an answered message's work is done: a reserve command has its reservation, a success outcome has it CONFIRMED, a failure outcome or expiry has it released, a ticket is projected, a payment command's key has a decided payment with its outcome enqueued; the one exception is a reserve command handled at a moment of the run when the PENDING and CONFIRMED quantities left no room for its seats |
| Answers.AcknowledgedIsDone | pkg/eventbus/jetstream.go:239-263 | the same of every acknowledged message, so none is lost |
| Answers.SuccessIsHonoredIff | internal/core/application/service.go:185-203 | in every reachable state, a success outcome delivered without a store fault has its reservation CONFIRMED if and only if it was answered, and released otherwise |
| Mishaps.ChargedButReleased | internal/core/application/service.go:195-200 | a concrete run of the whole system in which a customer pays in time, is charged, and loses the reservation to the sweeper |
| Answers.AnsweredPaymentIsForIff | internal/payment/processor.go:284-308 | an answered payment command has an outcome for the reservation it names if and only if its key's payment is for that reservation |
| Concurrent.CommitIsSerial | internal/core/application/service.go:278-292 | what a handler's transaction commits, or leaves alone as a replay, is the serial outcome at that moment |
| Concurrent.NextFollows | internal/core/subscribers.go:75-159 | every statement, commit, rollback, crash or other step of the concurrent system is one step of the saga or none |
| Concurrent.ConcurrentRefinesSaga | internal/core/application/service.go:126-292 | with handlers' use cases interleaved statement by statement among all else, every reachable state implements one the saga of one-step use cases reaches, with the committed database as its core; whatever that saga answers as sold out, a statement of the server found sold out |
| Concurrent.ConcurrentAgreement | internal/core/subscribers.go:117-144 | so CONFIRMED and FAILED reservations have matching payments in every reachable committed state of the interleaved system |
| Concurrent.ConcurrentAnsweredIsDone | internal/core/subscribers.go:75-159 | and what an interleaved handler has answered is done for good, or was a reserve command whose transaction found no room left in the committed quantities |
| Oldest.Pick | internal/horizon/adapter/postgres/store.go:31-36 | an answer of the "oldest first, limited" query always exists, whatever the ties |
| Oldest.RoundsDrain | internal/horizon/relay.go:68-111 | successive answers use up n candidates in exactly ceil(n / limit) rounds |
| Oldest.LeftOutByFull | internal/chrono/adapter/postgres/source.go:34-41 | a candidate is left out only by a full answer whose rows are no younger |
| Relay.OutboxStore.FetchBatch | internal/horizon/adapter/postgres/store.go:29-55 | the batch is the oldest unprocessed rows in order, one message each that carries its row's subject, payload and correlation id; nothing is locked or changed |
| Relay.OutboxStore.MarkProcessed | internal/horizon/adapter/postgres/store.go:58-69 | marks exactly the given rows or nothing |
| Relay.OutboxStore.CountUnprocessed | internal/horizon/adapter/postgres/store.go:73-78 | the scan counts exactly the rows still in the backlog |
| Relay.OutboxRelay.PublishBatch | internal/horizon/relay.go:78-101 | publishes in order up to the first failure and returns exactly the ids that went out |
| Relay.OutboxRelay.Sweep | internal/horizon/relay.go:68-111 | publishes a prefix of the batch, cut only by a failed publish, every message carrying what its row states, and marks exactly that prefix or nothing |
| Relay.MarkShrinksBacklog | internal/horizon/adapter/postgres/store.go:63-67 | marking removes exactly the marked rows from the backlog |
| Relay.SweepShrinksBacklog | internal/horizon/relay.go:100-108 | a marked sweep lowers the backlog by the number of rows published |
| Relay.OutboxDrains | internal/horizon/relay.go:68-111 | n rows of a fixed outbox drain in exactly ceil(n / batch) error-free sweeps |
| Relay.ProcessedWasPublished | internal/horizon/relay.go:78-108 | with any number of relays and crashes between publish and mark, every processed row was published and no row is lost |
| Relay.NextIsOldest | internal/horizon/relay.go:80-101 | what a lone relay publishes next is no younger than anything unpublished |
| Relay.FirstPublicationsInOrder | internal/horizon/relay.go:80-101 | with one relay over a fixed outbox, rows are first published in creation order, whatever fails in between |
| Chrono.ReservationSource.FindExpired | internal/chrono/adapter/postgres/source.go:30-59 | the oldest PENDING rows past their window that nobody has locked, as they are stored; another one is left out only by a full batch of no younger ones; nothing changes |
| Chrono.Sweeper.PublishBatch | internal/chrono/sweeper.go:104-132 | publishes a prefix of the batch under stable ids and reports its length |
| Chrono.Sweeper.CleanHolds | internal/chrono/sweeper.go:136-140 | releases the holds of exactly the batch, in order |
| Chrono.Sweeper.Sweep | internal/chrono/sweeper.go:96-142 | every event describes a stored reservation under its stable id; holds are cleaned exactly when the whole batch is out, and then for exactly that batch |
| Chrono.ExpireOne | internal/core/application/service.go:233-276 | handling one overdue reservation's message always succeeds and returns exactly its seats |
| Chrono.RoundExpires | internal/chrono/sweeper.go:96-142 | handling a batch expires exactly that batch and returns exactly its seats |
| Chrono.OldestFirst | internal/chrono/adapter/postgres/source.go:34-41 | a sweep at a later clock still takes the rows overdue at an earlier instant first: a full batch of them, or all that are left |
| Chrono.OneRound | internal/chrono/sweeper.go:96-142 | one sweep and its messages, delivered in any order, settle a full batch of the rows overdue at any earlier instant, or all of them |
| Chrono.NoLeakedSeat | internal/chrono/sweeper.go:96-142 | each sweep reading a later clock and each batch delivered in any order, n overdue reservations are gone after exactly ceil(n / batch) rounds, and at the last sweep's instant every event got back exactly the seats that were overdue and no longer are: all of them once a batch comes out short |
| Holds.ReportsAlternate | internal/holds/holds.go:274-294 | opened and recovered strictly alternate in lock order on every run, and the last one tells the state |
| Holds.OpenWindowHolds | internal/holds/holds.go:259-270 | nothing is admitted before the cooldown of an open breaker has passed, whatever fails meanwhile |
| Holds.ProbesAreSpaced | internal/holds/holds.go:256-270 | within one open spell any two admitted operations are at least a cooldown apart |
| Holds.ProbeComesDue | internal/holds/holds.go:256-280 | whatever the callers did, an operation that asks a cooldown after the last re-arm is admitted, and its success closes the breaker |
| Holds.ClosedAdmits | internal/holds/holds.go:259-294 | a closed breaker admits every operation until the threshold of failures in a row |
| Holds.OutageBound | internal/holds/holds.go:239-294 | in an outage of length T at most threshold + T / cooldown sequential operations reach Redis |
| Holds.Breaker.Allow | internal/holds/holds.go:259-270 | admits exactly below the threshold or a cooldown after the window began, and re-arms only for such a probe |
| Holds.Breaker.Success | internal/holds/holds.go:274-280 | reports a recovery exactly when the breaker was open |
| Holds.Breaker.Failure | internal/holds/holds.go:285-294 | reports an opening exactly on reaching the threshold |
| Holds.SnapshotObserver.ObserveOp | internal/holds/metrics.go:86-113 | per operation the attempts stay the sum of the outcomes, and latency covers exactly the round trips |
| Holds.SnapshotObserver.BreakerOpened | internal/holds/metrics.go:116-121 | openings minus recoveries stay equal to the open flag exactly when the breaker was closed before |
| Holds.SnapshotObserver.BreakerRecovered | internal/holds/metrics.go:124-129 | the same for recoveries of an open breaker |
| Holds.SnapshotObserver.Stats | internal/holds/metrics.go:132-141 | the copied map is the aggregated one, entry by entry |
| Holds.HoldStore.Set | internal/holds/holds.go:118-137 | does nothing when disabled or expired; else one breaker attempt, counted once under its outcome, a round trip only when Redis is reached, observer and breaker staying in step |
| Holds.HoldStore.Release | internal/holds/holds.go:141-160 | the same for releases |
| Holds.HoldStore.Exists | internal/holds/holds.go:164-183 | says yes only if Redis was reached, answered and knows the key; counted like the others, and nothing happens when disabled |
| Holds.HoldStore.Degraded | internal/holds/holds.go:195-209 | the opening is announced once and the observer stays in step with the breaker |
| Holds.HoldStore.Recovered | internal/holds/holds.go:213-220 | the recovery is announced once and the observer stays in step with the breaker |
| Delivery.PausesFrom5 | pkg/eventbus/jetstream.go:269-282 | for every budget m of at least 5 the pauses total 1850 + 2000 * (m - 5) ms |
| Delivery.AskedPausesPace | pkg/eventbus/jetstream.go:249-282 | deliveries that respect the delays asked for are paced as the tolerance assumes |
| Delivery.OpeningTolerance | internal/core/subscribers.go:22-35 | a reserve command first delivered no earlier than that before the opening is not rejected as not open on its last delivery |
| Delivery.OpeningToleranceIsExact | internal/core/domain/event.go:54-56 | on tight deliveries the rejection happens if and only if it came earlier |
| Delivery.DefaultTolerance | pkg/eventbus/jetstream.go:98-100 | the whole schedule up to the default of ten deliveries, 11.85 s |
| Tokens.ParseAuthTokens | internal/gateway/config.go:42-59 | the loop returns the table, or the first error, of the pairs in order |
| Tokens.TableHolds | internal/gateway/config.go:46-57 | a table comes out exactly when every pair is well formed and no token repeats, and it holds what the pairs say |
| Tokens.SplitCounts | internal/gateway/config.go:47 | splitting yields one piece more than there are commas |
| Tokens.ParseSucceedsIff | internal/gateway/config.go:42-59 | exact condition of success; then one entry per comma-separated pair, so none is dropped |
| Tokens.RoundTrip | internal/gateway/config.go:42-59 | parsing the rendering of any non-empty table with clean entries, in any order, gives that table back |
| TokenLaws.TrimOf | internal/gateway/config.go:48-49 | trimming removes exactly the white space around tight text |
| TokenLaws.PairOfPadded | internal/gateway/config.go:48-49 | white space around a token, a user and the sign between them does not matter |
| TokenLaws.PairOfSplits | internal/gateway/config.go:48-52 | every well-formed pair is such text, its token standing before the first sign |
| TokenLaws.SplitIs | internal/gateway/config.go:47 | the pieces are the text between the commas |
| TokenLaws.ParseErrorIs | internal/gateway/config.go:43-55 | blank text is an error of its own; any other failure is that of the first pair that is malformed or repeats a token |
| TokenLaws.PaddedRoundTrip | internal/gateway/config.go:42-59 | parsing the rendering of any non-empty clean table, padded with white space in any of its places, gives that table back |

## Left out

- Running without a transaction manager (internal/core/application/service.go:279): production always sets one, and without it a failure leaves partial writes.
- The hold writes after commit (internal/core/application/service.go:76-78, 119-124): they race with releases by design, so the use-case classes stop at the commit.
- Redis keys themselves; a hold is a hint, and only breaker, counters and the returned hint are modelled.
- Observer calls of concurrent hold operations in a different order than the breaker's lock order; the observer classes are proved for sequential operations, the alternation of reports for every lock order.
- Envelope ids, sources, correlation and causation ids of core and payment outbox records; their records are identified by position, and the relay's rows keep id, subject, payload and correlation id.
- JSON encoding and decoding failures, HTTP handlers, metrics, logging, configuration loading other than the token table, and process wiring.
- The moment at which an insert reports a taken id while a sweeper holds that row's lock: the model lets it wait for the sweeper first.
- Ids that are not UUIDs in later statements: they surface as a store error, which every statement may return.
- Stream provisioning, the consume loop, shutdown and dead-letter advisories of the broker client; the broker is modelled by what it may do to a message.
- The payment method token sent with a charge; the rest of the request is logged.
- The simulated acquirer's randomness: answers are arbitrary.
- Sweepers without a hold cleaner or with missing collaborators (internal/chrono/sweeper.go:97, 136), and relays without a store (internal/horizon/relay.go:69).
- Two sweepers publishing the same reservation: allowed by the model, as row locks end before publishing.
- The tables `tickets` and `processed_messages` and the ticket entity: no service path uses them.
- Time-based eviction of the broker's deduplication window: a duplicate may be dropped or stored at any time.
