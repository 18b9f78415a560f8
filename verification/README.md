# The order saga engine, modelled and proved in Dafny

EventCart places an order by writing an order row and an `OrderCreated` outbox row in one transaction. A dispatcher
delivers outbox rows to worker handlers; each handler moves stock, money or order status, emits the next event, and
records the (consumer, event id) pair in an inbox, all in one transaction. A delivery that raises is retried with a
growing delay and finally becomes a dead letter, which can be replayed under a new event id. This project models that
engine - tables, sessions, handlers, inbox, dispatcher, dead letters, keyed order creation, and the broker-mode
publisher - and proves what no single function of it guarantees.

`dafny verify dfyconfig.toml` checks everything.

## How the model is laid out

| files | content |
|---|---|
| `Tables`, `Lines`, `Sums` | the database as maps keyed by id; arithmetic over payload items and order lines; sums over finite maps |
| `Sessions` | a session: working copy, committed copy, and (ghost) every copy ever committed, which is what a crash can fall back to |
| `InventoryWorker`, `PaymentWorker`, `InvoiceWorker`, `NotificationWorker`, `OrderProjectionWorker`, `Inbox` | the handlers: each has a specification function and a method, with the source's loops, proved to compute it |
| `EventsRepository`, `Dispatcher` | ready queue, row life cycle, attempts, dead letters, replay; batches and `dispatch_until_idle` |
| `Idempotency`, `Orders` | request keys, order creation, the endpoint and its two commits |
| `Saga` | one state machine over committed databases: `Step`, `Enabled`, `Next`, and runs as sequences of steps |
| `Chain`, `Business`, `Soundness` | the invariants and the proof that every step keeps them |
| `Guarantees`, `Progress`, `Causation`, `Conservation`, `Overselling`, `RetryLedger`, `KeyedCreation` | what follows for every run |
| `Requests`, `Records`, `Branches`, `Lifecycles`, `Retries`, `Replays` | what is charged and traced for a request, the trail of records, which branch an order takes and where it ends, when retries are due, what replays leave |
| `Configurations` | what the handler mapping means |
| `Deliveries`, `Termination`, `Allocator`, `AllocatorRuns`, `DispatchCalls`, `ExactCount`, `Fairness` | the dispatcher's batches as runs; termination, the greedy allocator a call refines, calls in turn with anything in between, the exact event count, bounded bypass |
| `Duplicates` | arbitrary delivery sequences of arbitrary envelopes |
| `OutboxPublisher` | broker mode |
| `Boundaries`, `Lineages`, `Shadowing`, `Repetition` | beyond the state machine: every run the code accepts, and the exact conditions under which a guarantee ends |

**Steps.** A step is one commit: stock added, order placed (with its key row, if keyed), response stored, a handler run
on a row's envelope (first delivery or any redelivery, with or without `payment_should_fail` set on the envelope), a
row marked PUBLISHED, a failed delivery's bookkeeping, a dead letter replayed. The handler's commit and the
dispatcher's are two steps with anything in between. A crash drops everything since the last commit, so it is the
absence of a step; `Deliveries.BatchIsRun` proves that every copy a batch commits on the way is reached by a run.

**Invariants.** `Business.Sound` says: each order's rows form one chain linked by causation; each event has exactly one
live representative (a pending or published row, or an unreplayed dead letter); a FAILED row is not in the inbox and
has exactly one letter, a PUBLISHED row is in the inbox; a processed row has handed the order on; payloads agree with
the stored order lines and with the records they cite; every record is cited; an order's status is what its processed
last event says. `RetryLedger.Ledger` says the same of attempts, failure counts, back-off and letters.

**Runs and what the code accepts.** The one call the state machine bars, although `process_once` accepts it, is a
handler call on the envelope of a FAILED row. `Boundaries.SoundThroughoutIff` shows that this is exactly what must be
barred: of all runs the code accepts, those keep the invariant throughout that never make such a call. What survives of
it in all accepted runs is `Lineages.Traced`: causes have been handled, and each event still has at most one live
representative. Calls on FAILED rows that end their chain change only what a database of the state machine differs in
by statuses and markers (`Shadowing.Shadows`).

**Where a dispatcher call may start.** `Allocator.Settled` is the start of the greedy theorems: any reachable database
in which no unhandled OrderCreated or PaymentFailed row is backing off. Such rows form one queue, in which an order
takes its lines if they fit and a compensation puts its order's lines back. Published, given-up, replayed and cancelled
history, rows under way or backing off that move no stock, and rows a crash left handled but unmarked are all allowed.
Only a failed delivery of a waiting row ends it (`DispatchCalls.StepKeepsSettled`). Everything an undisturbed call can
leave behind - idle, out of batches, or crashed at any commit - is settled again (`DispatchCalls.CallLeavesSettled`), so
calls can follow one another for ever with any steps in between that leave the next start settled
(`DispatchCalls.EveryShiftIsGreedy`).

**What the environment supplies.** `Choice` carries the clock reading, the fresh ids and whether the handler body
raises before its first mutation. `FreshIds` and `FreshFrom` say generated ids are new; `Monotone` and `ClockRuns` say
the clock does not go back. Theorems name the ones they need.

**Results that differ from what one might expect.** A rejected order stays PENDING: `InventoryReservationFailed` has no
handler, is retried and dead-lettered, although README.md:159 of the repository draws an edge to CANCELLED; the model
follows the code (`Guarantees.RejectedStaysPending`). The per-line stock check oversells exactly when an order repeats a
SKU (`Overselling.OversellsIffRepeated`). Delivering the envelope of a row that was given up lets its effect happen
twice, unless the event ends its chain, and no other delivery does (`Repetition.RepeatsIffGivenUp`); such states are
reached from an empty system under every retry policy (`Repetition.EffectRepeatsFromNothing`). A response stored after
its reservation expired can be served to another request (`KeyedCreation.LateStoreMisleads`). A message the broker refuses is never sent again and
leaves no dead letter (`OutboxPublisher.LostIffRefused`).

## Model

Paths are relative to the repository; M is max(1, max_attempts).

| member | source | states |
|---|---|---|
| `Soundness.ReachableIsSound` | src/eventcart/workers/brokerless_dispatcher.py:103-149 | the main invariant survives every run of the state machine: creations, deliveries, redeliveries of rows not given up, failures, replays and crashes in any order |
| `Boundaries.SoundThroughoutIff` | src/eventcart/modules/idempotency/inbox.py:28-40 | over all runs the code accepts, redeliveries of given-up rows included: the invariant holds after every step if and only if no call was for a FAILED row |
| `RetryLedger.ReachableFromInitial` | src/eventcart/modules/events/repository.py:49-119 | from an empty system every run keeps both invariants |
| `Guarantees.HandledOnce` | src/eventcart/modules/idempotency/inbox.py:23-40 | exactly-once effects in runs of the state machine: of all handler calls a run makes for one logical event (row, redeliveries, replays), every one after the first that returned changes nothing |
| `Repetition.TwoEffectsNeedGivenUp` | src/eventcart/modules/idempotency/inbox.py:28-40 | over every run the code accepts, calls on FAILED rows included, from any sound database: if two calls return for one event and the later one does more than mark the inbox, one of the two is on a row FAILED at that moment, and some call of the run so far is on a FAILED row whose event does not end the chain |
| `Lineages.TwoCallsNeedGivenUp` | src/eventcart/modules/events/repository.py:160-168 | the same from the weak invariant alone, which every accepted step keeps: after a call that returned, a handler body never runs again for that event unless one of the two calls is on a FAILED row |
| `Lineages.RunTraced` | src/eventcart/modules/idempotency/inbox.py:28-40 | every run the code accepts keeps the weak invariant: markers belong to routed rows, causes are handled, letters belong to FAILED rows, and each event has at most one live representative |
| `Repetition.RepeatsIffGivenUp` | src/eventcart/modules/events/repository.py:160-168 | for every handler call that returns, forced or not, on any database reached without an earlier call on a FAILED row before the end of its chain: the effect of its event (a business table written or an event emitted) can happen twice, before it or in an accepted continuation without another such call, if and only if the row is FAILED and its event does not end the chain |
| `Repetition.CarefulRunsStayShadowed` | src/eventcart/workers/order_projection_worker.py:42-61 | those databases: every accepted run whose calls on FAILED rows all end their chains is shadowed by a sound database that differs in order statuses and markers of such rows only |
| `Repetition.EffectWritten` | src/eventcart/workers/payment_worker.py:30-81 | what each such effect is: the order's next event emitted with the row as its cause, and a new payment, invoice or notification, all lines of the order taken or put back, or a rejection with InventoryReservationFailed and the stock untouched |
| `Repetition.EffectCanRepeat` | src/eventcart/workers/brokerless_dispatcher.py:123-147 | from every reachable state with such an event under way, a run leads to a state where its effect can happen twice |
| `Repetition.EffectRepeatsFromNothing` | src/eventcart/workers/brokerless_dispatcher.py:133-140 | such a state is reached from an empty system with one order, under every retry policy |
| `Guarantees.EffectOnce` | src/eventcart/modules/events/repository.py:151-172 | of the rows carrying one event of an order at most one has had its effect |
| `Guarantees.RecordsOnce` | src/eventcart/workers/payment_worker.py:30-81 | an order has at most one payment, one invoice and one notification |
| `Guarantees.LineageConserved` | src/eventcart/modules/events/repository.py:126-172 | each event ever written has exactly one live representative; every other row of it is FAILED with exactly one letter, which is the representative or replayed |
| `Replays.EveryReplayIsStamped` | src/eventcart/modules/events/repository.py:151-172 | in every run each replayed letter has its replay: another row with the same event, written at the time the letter is stamped with |
| `Progress.NothingLost` | src/eventcart/modules/orders/service.py:48-68 | in every state of every run each committed order has its OrderCreated event, and is PENDING if and only if exactly one pending row or unreplayed letter of it is still to be handled |
| `Progress.PendingIffOneToHandle` | src/eventcart/workers/order_projection_worker.py:42-61 | the same equivalence for every sound database whose orders have their event |
| `Guarantees.TerminalStatesExclude` | src/eventcart/workers/payment_worker.py:34-81 | no order has both a NotificationSent and an InventoryReleased event |
| `Guarantees.TerminalStep` | src/eventcart/workers/order_projection_worker.py:42-61 | no step changes a COMPLETED or CANCELLED order although the projection writes unconditionally |
| `Guarantees.TerminalForever` | src/eventcart/workers/order_projection_worker.py:42-61 | over whole runs a terminal order stays exactly what it is |
| `Guarantees.RejectedStaysPending` | src/eventcart/workers/brokerless_dispatcher.py:56-86 | an order with a rejection event is PENDING, whatever is redelivered or replayed |
| `Guarantees.AmountsCarried` | src/eventcart/workers/invoice_worker.py:30-57 | payment, invoice and notification amounts equal the sum of quantity times unit price over the stored order lines, and an invoice cites an authorized payment of that amount |
| `Requests.ChargedAsRequested` | src/eventcart/modules/orders/service.py:18-74 | in every run from an empty system, each payment, invoice and notification is over the sum of item quantity times inventory price of the request that placed the order |
| `Requests.LinesAsRequested` | src/eventcart/modules/orders/service.py:23-47 | at any time after its placement, line k of an order has the SKU and quantity of request item k and the unit price the inventory still has for that SKU |
| `Requests.CorrelationOfRequest` | src/eventcart/modules/orders/service.py:48-62 | every event of an order, replays included, carries the correlation id its request was given |
| `Records.PaperTrail` | src/eventcart/workers/notification_worker.py:30-63 | every notification is for the invoice that its order's InvoiceCreated event cites, and NotificationSent cites the same; that invoice is of the order, over the notified amount, and for the order's authorized payment, which PaymentAuthorized and InvoiceCreated cite |
| `Records.MarkersAreEffects` | src/eventcart/workers/brokerless_dispatcher.py:56-86 | the inbox names the worker: an order has a marker of the inventory, payment, invoice, notification, compensation or projection worker exactly when it was reserved or rejected, paid, invoiced, notified, released, or completed or cancelled |
| `Branches.PaymentDecides` | src/eventcart/workers/payment_worker.py:30-81 | the first call for a reserved order writes one payment of the order's total, authorized unless the envelope was forced, and emits PaymentFailed if and only if it was |
| `Branches.BranchIffForced` | src/eventcart/workers/payment_worker.py:34-81 | in every run from an empty system an order has a PaymentFailed event if and only if its paying call was forced, and a PaymentAuthorized event if and only if it was not |
| `Lifecycles.BothEndsAreReached` | src/eventcart/workers/inventory_worker.py:88-111 | from any empty system with enough stock, any valid request can be taken to either end: forced, the order is CANCELLED and every unit of stock is back; not forced, it is COMPLETED and exactly its units are gone |
| `Lifecycles.DriveToEnd` | src/eventcart/workers/order_projection_worker.py:42-61 | from any reachable state with a settled payment waiting to be handled, the order can be taken to the end of its branch, with its lines put back exactly when the payment failed |
| `Guarantees.FailureIsAtomic` | src/eventcart/workers/brokerless_dispatcher.py:123-149 | in a reachable database a raising delivery commits its bookkeeping and nothing else, with no rollback |
| `Guarantees.Ancestor` | src/eventcart/workers/inventory_worker.py:167-182 | every row has an ancestor at every earlier stage, of its order and correlation, already processed |
| `Causation.CauseIsOneStageBack` | src/eventcart/workers/inventory_worker.py:167-182 | causation is acyclic: the cause is a processed row one stage back with the same order and correlation, and only OrderCreated has none |
| `Causation.OnePathPerOrder` | src/eventcart/workers/brokerless_dispatcher.py:56-86 | an order's event types are exactly a prefix of one of the three saga paths |
| `Conservation.StockConserved` | src/eventcart/workers/inventory_worker.py:69-111 | over every run and for every SKU, available plus held by orders (reserved and not released) is constant, repeated SKUs and replays included |
| `Conservation.NothingHeldInitially` | src/eventcart/workers/inventory_worker.py:69-72 | at the start nothing is held, so that constant is the initial stock |
| `Conservation.HoldingAtFront` | src/eventcart/workers/inventory_worker.py:88-111 | a release runs only for an order that holds a reservation, a reservation only for one that holds none |
| `Overselling.OversellsIffRepeated` | src/eventcart/workers/inventory_worker.py:143-155 | accepting an order leaves no stock negative, whatever the stock, if and only if its SKUs are distinct |
| `Overselling.RepeatedOversells` | src/eventcart/workers/inventory_worker.py:143-155 | for every order that repeats a SKU, a concrete non-negative stock that passes the check and ends negative |
| `Overselling.NoOverselling` | src/eventcart/workers/inventory_worker.py:51-85 | if no order placed in a run repeats a SKU, no stock is ever negative |
| `RetryLedger.LedgerOfRow` | src/eventcart/modules/events/repository.py:49-119 | attempts of a row are numbered 1..n without gaps, n is failure_count and what count_failures counts; FAILED exactly at n = M, with exactly one dead letter, numbered M |
| `Retries.BackoffBound` | src/eventcart/workers/brokerless_dispatcher.py:142-147 | a dead letter is written no earlier than backoff * M * (M - 1) / 2 seconds after the first failure |
| `Retries.LetterOnTimeIff` | src/eventcart/workers/brokerless_dispatcher.py:142-147 | the bound is met exactly when every retry was made the moment it was due |
| `Retries.DueRetriesMeetBound` | src/eventcart/modules/events/repository.py:26-40 | and it can be met: from any reachable state, a row that keeps failing is accepted for delivery at each due time, t plus backoff * k * (k + 1) / 2, and its letter is written exactly backoff * M * (M - 1) / 2 after t |
| `Retries.DefaultBackoff` | src/eventcart/workers/brokerless_dispatcher.py:44-49 | with the default policy: three attempts over at least fifteen seconds, and exactly fifteen if and only if the retries came five and then ten seconds after the failure before |
| `Deliveries.BatchIsRun` | src/eventcart/workers/brokerless_dispatcher.py:103-152 | a batch is a run of the state machine, and so is the way to every copy it commits, hence to whatever a crash leaves |
| `Deliveries.DeliveryIsRun` | src/eventcart/workers/brokerless_dispatcher.py:103-149 | one delivery is exactly these steps: a failed step, a handler step and a mark, or a mark alone; they are a valid run to its end, and each copy it commits is what the next of them leads to |
| `Deliveries.DeliveryConfined` | src/eventcart/workers/brokerless_dispatcher.py:103-149 | a delivery touches its own row, adds at most one row stamped now and one record |
| `Termination.DeliveryLowers` | src/eventcart/workers/brokerless_dispatcher.py:128-147 | every completed delivery lowers the measure: sum over pending rows of weight * M - failures |
| `Termination.UntilIdleReturns` | src/eventcart/workers/brokerless_dispatcher.py:163-175 | with more batches than the measure, dispatch_until_idle returns idle, having dispatched no more events than the measure |
| `AllocatorRuns.IdleRefinesGreedy` | src/eventcart/workers/brokerless_dispatcher.py:155-175 | a call from any settled database that ends idle, for any limit and interleaving, leaves the stock of one fold over the waiting orders and compensations by (occurred_at, event_id): an order subtracts all its lines if each fits, a compensation adds all of its own; accepted orders are COMPLETED, rejected ones PENDING, compensated ones CANCELLED, and every order found ready and under way is at the end of its path |
| `AllocatorRuns.RefinesGreedy` | src/eventcart/workers/brokerless_dispatcher.py:155-175 | with a budget above the measure it does end so |
| `DispatchCalls.EmptyMappingIsGreedy` | src/eventcart/workers/brokerless_dispatcher.py:155-180 | the same with an empty handler mapping, as the dispatcher is run |
| `DispatchCalls.EmptyMappingAfterRequests` | src/eventcart/workers/brokerless_dispatcher.py:155-180 | and after any run of requests in an empty system |
| `Lines.UnitsMoved` | src/eventcart/workers/inventory_worker.py:69-111 | what that fold subtracts and adds is, SKU by SKU, the units the order's lines order, repeated SKUs summed; prices stay |
| `DispatchCalls.EveryShiftIsGreedy` | src/eventcart/workers/brokerless_dispatcher.py:155-175 | from an empty system, calls and arbitrary runs in turn, the calls ending idle, out of batches or in a crash at any commit: each call that starts settled has served a first part of its queue as the fold does, all of it when it ends idle, and leaves a database that is settled at any later time |
| `DispatchCalls.PlacedThenDispatched` | src/eventcart/workers/brokerless_dispatcher.py:155-175 | the first shift: after any run of requests in an empty system, a call with a budget above the measure ends idle with the greedy outcome |
| `DispatchCalls.ShiftIsGreedy` | src/eventcart/workers/brokerless_dispatcher.py:155-175 | the same for one call after any run from any reachable database |
| `DispatchCalls.CallIsCalm` | src/eventcart/workers/brokerless_dispatcher.py:103-175 | every copy an undisturbed call commits, also between a handler's commit and the dispatcher's, and its end, idle or not, are reached by runs that fail no delivery of a stock-moving row |
| `DispatchCalls.CallLeavesSettled` | src/eventcart/workers/brokerless_dispatcher.py:121-175 | hence all of that keeps both invariants and is settled, then and later |
| `DispatchCalls.RestartIsGreedy` | src/eventcart/workers/brokerless_dispatcher.py:155-175 | a call restarted from a crash at any commit, or after one that ran out of batches, has the greedy outcome over what it finds |
| `DispatchCalls.LeftBehindIsPartlyGreedy` | src/eventcart/workers/brokerless_dispatcher.py:121-175 | wherever a call stops, the stock is the fold over a first part of the queue it started with |
| `DispatchCalls.NextCallMayStart` | src/eventcart/modules/events/repository.py:151-172 | after a shift, any run without a failed delivery of a stock-moving row leads to where the next call may start |
| `DispatchCalls.StepKeepsSettled` | src/eventcart/modules/events/repository.py:151-172 | every step but a failed delivery of an OrderCreated or PaymentFailed row keeps a database settled: requests, deliveries, forced payment failures, redeliveries, replays, marks |
| `Deliveries.QuietEnvironment` | src/eventcart/workers/brokerless_dispatcher.py:155-162 | the environment these theorems assume (fresh ids, running clock, no raising bodies) exists for every database |
| `AllocatorRuns.NextIsHead` | src/eventcart/modules/events/repository.py:26-40 | the next order event of any batch is the head of the order queue |
| `ExactCount.ExactlyWhatIsOwed` | src/eventcart/workers/brokerless_dispatcher.py:163-173 | a call in which every waiting order finds stock, nothing is backing off and no rejection is pending dispatches exactly 5 events for each waiting order plus what the rows under way, compensations included, still owe, given more batches than that |
| `ExactCount.FiveDeliveriesEach` | src/eventcart/workers/brokerless_dispatcher.py:163-173 | with nothing else under way: exactly 5N for N waiting orders, whatever was dispatched before |
| `ExactCount.LoadDrops` | src/eventcart/workers/brokerless_dispatcher.py:103-122 | each delivery of such a run is exactly one of those owed |
| `Fairness.BoundedBypass` | src/eventcart/modules/events/repository.py:20-40 | a ready row with k pending rows ahead is delivered after at most k * M deliveries of other rows, whatever requests, redeliveries and replays run between the batches, from any reachable first database |
| `Fairness.DeliveredWithin` | src/eventcart/workers/brokerless_dispatcher.py:97-147 | hence within floor(k * M / limit) + 1 batches |
| `Fairness.OthersAreInterlude` | src/eventcart/modules/events/repository.py:151-172 | any run of creations, redeliveries and replays past a row's time changes no row, adds none ahead of it, and keeps both invariants |
| `Fairness.OtherStepsAreInterludes` | src/eventcart/modules/events/repository.py:151-172 | the same of a single step |
| `Duplicates.DuplicatesChangeNothing` | src/eventcart/modules/idempotency/inbox.py:23-40 | any delivery sequence of any envelopes leaves the database its first successful deliveries per (consumer, event id) leave |
| `Duplicates.KeptOnce` | src/eventcart/modules/idempotency/inbox.py:23-40 | those deliveries are in the sequence, returned, and are pairwise different events of a consumer |
| `Duplicates.EveryReturnIsKept` | src/eventcart/modules/idempotency/inbox.py:28-40 | no handled event is missing among them |
| `Duplicates.RedeliveryIsNoOp` | src/eventcart/modules/idempotency/inbox.py:28-29 | inserting a redelivery anywhere after a return changes nothing |
| `Duplicates.InboxRemembers` | src/eventcart/modules/idempotency/inbox.py:20-21 | the inbox holds exactly the pairs of calls that have returned |
| `Duplicates.HandleDelivery` | src/eventcart/workers/inventory_worker.py:22-44 | a handler in a session of its own commits effect and marker together or leaves no trace |
| `KeyedCreation.OncePerWindow` | src/eventcart/modules/idempotency/service.py:46-60 | two orders created under one key are a whole validity period apart in every run |
| `KeyedCreation.KeysTellCreations` | src/eventcart/modules/orders/service.py:48-68 | a committed key row is the one written with an order, in the same transaction, by the last creation under the key |
| `KeyedCreation.RetryInWindow` | src/eventcart/modules/idempotency/service.py:62-77 | a retry before expiry never creates: another body conflicts, the same body waits until a response is stored and gets a stored one from then on |
| `KeyedCreation.FreeIffWindowOver` | src/eventcart/modules/idempotency/service.py:46-60 | a request may create under a key if and only if the last creation under it, if any, is at least 86400 seconds old |
| `KeyedCreation.TimelyResponses` | src/eventcart/modules/orders/routes.py:59-70 | if responses are stored before their reservations expire, a stored response is that of the order whose creation holds the key |
| `KeyedCreation.StoreHitsOwnRow` | src/eventcart/modules/idempotency/service.py:79-93 | a store answers for the creation holding the key if and only if no other request created under the key since |
| `KeyedCreation.LateStoreMisleads` | src/eventcart/modules/idempotency/service.py:79-93 | a concrete run in which a late store makes a retry return another request's order |
| `KeyedCreation.EndpointTakesSteps` | src/eventcart/modules/orders/routes.py:31-70 | the endpoint commits exactly when the creation step is enabled; its commits are that step and the response step |
| `OutboxPublisher.AtLeastOnce` | src/eventcart/workers/outbox_publisher.py:27-44 | over every run with crashes anywhere in a batch: published rows are in the log, the log carries committed rows, no row more than crashes + 1 times |
| `OutboxPublisher.DeduplicatedLog` | src/eventcart/workers/outbox_publisher.py:27-44 | deduplicated by event id the log is a set of committed rows containing all published ones |
| `OutboxPublisher.LostIffRefused` | src/eventcart/workers/outbox_publisher.py:37-41 | a row of a completed batch is missing from the log for ever if and only if the broker refused it and no crashed batch had sent it |
| `OutboxPublisher.MarkedIsFinal` | src/eventcart/modules/events/repository.py:62-67 | a row the publisher marked PUBLISHED or FAILED is never sent again |
| `OutboxPublisher.BatchSendsInOrder` | src/eventcart/workers/outbox_publisher.py:27-44 | a batch, completed or crashed after any number of calls, adds to the log oldest row first |
| `OutboxPublisher.NoLetterWritten` | src/eventcart/workers/outbox_publisher.py:40-41 | broker mode writes no dead letter |
| `OutboxPublisher.PublishPendingBatch` | src/eventcart/workers/outbox_publisher.py:27-44 | publishes and marks the oldest ready rows one by one and commits once |
| `Boundaries.FailureAtomicIff` | src/eventcart/workers/inventory_worker.py:93-96 | for arbitrary rows: a failed delivery changes stock if and only if it is a release stopped by a bad quantity after lines whose quantities do not cancel out; other business tables never change |
| `Boundaries.PositiveLinesChangeStock` | src/eventcart/workers/inventory_worker.py:93-96 | with positive quantities one line before the bad one is enough |
| `Boundaries.RefusedIff` | src/eventcart/workers/payment_worker.py:30-32 | for arbitrary envelopes: which payloads make which handler raise, field by field, and that no handler but the release has touched anything then |
| `Boundaries.ReserveOutcome` | src/eventcart/workers/inventory_worker.py:47-85 | for arbitrary payloads that do not raise: every dictionary element names a known SKU and an integer quantity that fits, and all are taken, or nothing is and the rejection is emitted |
| `Boundaries.ReleaseOutcome` | src/eventcart/workers/inventory_worker.py:88-111 | for arbitrary payloads: raises exactly on a missing or unknown SKU or a bad quantity, else puts back all that is asked for and forwards payment and items |
| `Boundaries.PaymentOutcome` | src/eventcart/workers/payment_worker.py:30-97 | for arbitrary payloads: the amount is that of the elements with integer quantity and price, 0 without a list; the flag decides record and event; a missing item list is forwarded as an empty one |
| `Boundaries.HandlingSoundIff` | src/eventcart/modules/idempotency/inbox.py:28-40 | one call: handling a row's envelope keeps the invariant if and only if the row is not FAILED |
| `Boundaries.GivenUpThenReplayedChargesTwice` | src/eventcart/modules/events/repository.py:160-168 | an instance spelled out: for every reachable database with an unreplayed InventoryReserved letter, handling the given-up envelope, replaying the letter and handling the replay leaves two payments of the order |
| `Dispatcher.DispatchPendingBatch` | src/eventcart/workers/brokerless_dispatcher.py:89-152 | delivers the fetched rows in order and commits exactly the copies the specification lists, the handler's commits included |
| `Configurations.EmptyMeansDefault` | src/eventcart/workers/brokerless_dispatcher.py:100 | with an empty mapping a batch and a whole call, down to each committed copy, are those of the same policy with the seven handled types listed one by one |
| `Configurations.MappingIsTaken` | src/eventcart/workers/brokerless_dispatcher.py:103-149 | with a mapping given, a body runs exactly for the types in it; any other row gets one failed attempt, booked on the dispatcher itself, and nothing else |
| `Configurations.DefaultHandlesAllButRejections` | src/eventcart/workers/brokerless_dispatcher.py:56-86 | the default mapping runs the handler of every type but InventoryReservationFailed, which raises |
| `Configurations.RunOnce` | src/eventcart/workers/brokerless_dispatcher.py:178-180 | one batch with those seven types, three attempts and five-second delays |
| `Dispatcher.DispatchOne` | src/eventcart/workers/brokerless_dispatcher.py:104-149 | one delivery: handler, mark or failure bookkeeping on top of whatever the handler left, then the commit |
| `Dispatcher.RecordFailedDelivery` | src/eventcart/workers/brokerless_dispatcher.py:123-147 | attempt recorded, then dead letter and FAILED at max_attempts or later, retry with growing delay before |
| `Dispatcher.DispatchUntilIdle` | src/eventcart/workers/brokerless_dispatcher.py:155-175 | total over batches until an empty one, raising when max_batches pass without one; commits exactly the copies the specification lists, in order |
| `EventsRepository.FetchIsOldestReady` | src/eventcart/modules/events/repository.py:26-40 | column by column: fetched rows are PENDING with no next attempt set or one that has come, by occurred_at and then event_id; such a row left out means a full batch of earlier ones |
| `EventsRepository.OldestReadyIsUnique` | src/eventcart/modules/events/repository.py:26-40 | that promise determines the list |
| `EventsRepository.OutboxRepository.FetchPending` | src/eventcart/modules/events/repository.py:20-40 | returns that list, so a row that is due is returned or `limit` earlier ones are |
| `EventsRepository.OutboxRepository.MarkPublished` | src/eventcart/modules/events/repository.py:42-47 | PUBLISHED, no next attempt; missing id reported |
| `EventsRepository.OutboxRepository.MarkRetryableFailure` | src/eventcart/modules/events/repository.py:49-60 | PENDING, one more failure, next attempt set |
| `EventsRepository.OutboxRepository.MarkFailed` | src/eventcart/modules/events/repository.py:62-67 | FAILED, one more failure, no next attempt |
| `EventsRepository.EventProcessingAttemptRepository.RecordFailure` | src/eventcart/modules/events/repository.py:80-108 | numbers the attempt one above the largest of this event and consumer |
| `EventsRepository.EventProcessingAttemptRepository.CountFailures` | src/eventcart/modules/events/repository.py:110-119 | counts the places of the attempts table that hold a failure of this event and consumer |
| `EventsRepository.CountIsOwn` | src/eventcart/modules/events/repository.py:101-119 | that count is the length of the list whose largest number numbers the next attempt |
| `EventsRepository.DeadLetterEventRepository.MoveToDeadLetter` | src/eventcart/modules/events/repository.py:126-149 | the letter copies the row's event with consumer and attempt number |
| `EventsRepository.DeadLetterEventRepository.Replay` | src/eventcart/modules/events/repository.py:151-172 | a new pending row with the old event under a new id, once per letter |
| `RetryLedger.LatestOfNumbered` | src/eventcart/modules/events/repository.py:101-108 | with gapless numbers the next attempt number is the count plus one |
| `InventoryWorker.ReserveInventory` | src/eventcart/workers/inventory_worker.py:47-85 | malformed payloads raise with nothing touched; otherwise all lines are taken and InventoryReserved emitted, or none and InventoryReservationFailed |
| `InventoryWorker.EnsureInventoryAvailable` | src/eventcart/workers/inventory_worker.py:143-155 | accepts exactly when each line alone has an integer quantity that fits |
| `InventoryWorker.ReleaseInventory` | src/eventcart/workers/inventory_worker.py:88-111 | puts lines back up to the first bad quantity; raises there, else emits InventoryReleased |
| `Business.ReserveDecides` | src/eventcart/workers/inventory_worker.py:51-85 | for an order's own lines the outcome depends on the stock alone: all lines subtracted or none |
| `Business.RaiseIsClean` | src/eventcart/workers/inventory_worker.py:88-96 | a handler on a row of a reachable database never raises of its own accord after a mutation; release is safe because reserve validated the items |
| `Lines.AmountIsOrderTotal` | src/eventcart/workers/payment_worker.py:84-97 | the payload sum is the sum over the order lines |
| `Lines.FilteringKeepsMeaning` | src/eventcart/workers/inventory_worker.py:114-119 | dropping elements that are not dictionaries changes neither amount nor demand |
| `Lines.OnlyCountableDemands` | src/eventcart/workers/inventory_worker.py:114-119 | for any list, the demand for a SKU is that of its elements with a SKU and an integer quantity |
| `Lines.OnlyPayableCosts` | src/eventcart/workers/payment_worker.py:84-97 | for any list, the amount is that of its elements with an integer quantity and an integer price |
| `PaymentWorker.SumAmount` | src/eventcart/workers/payment_worker.py:84-97 | the accumulator loop computes the amount of the well-formed entries, 0 without a list |
| `PaymentWorker.AuthorizePayment` | src/eventcart/workers/payment_worker.py:30-81 | payment row and PaymentAuthorized, or failed payment and PaymentFailed with the items forwarded when the flag is set |
| `InvoiceWorker.CreateInvoice` | src/eventcart/workers/invoice_worker.py:30-64 | invoice row and InvoiceCreated carrying payment id and amount; raises on a missing key or non-integer amount |
| `NotificationWorker.SendInvoiceNotification` | src/eventcart/workers/notification_worker.py:30-63 | notification row with the forwarded amount and NotificationSent |
| `OrderProjectionWorker.MarkOrder` | src/eventcart/workers/order_projection_worker.py:42-61 | writes the status whatever it was; raises when the order is missing |
| `Inbox.ConsumerInbox.ProcessOnce` | src/eventcart/modules/idempotency/inbox.py:23-40 | skips a processed event, else runs the body and commits effect and marker in one copy; a raise commits nothing |
| `Inbox.BodyLeaves` | src/eventcart/modules/idempotency/inbox.py:31-39 | all a handler body may write, raising or not: stock, order statuses, one record and one pending outbox row under fresh ids, the row citing the delivered event; never inbox, keys, attempts or dead letters |
| `Orders.CreateOrder` | src/eventcart/modules/orders/service.py:18-74 | builds order lines and event lines in lock-step, commits order and event together; an unknown SKU commits nothing |
| `Orders.CreateOrderEndpoint` | src/eventcart/modules/orders/routes.py:25-70 | reserve, create, store: which response for which key state, and exactly which copies are committed |
| `Idempotency.IdempotencyService.StartRequest` | src/eventcart/modules/idempotency/service.py:40-77 | reserves a free or expired key, conflicts on another hash, reports in progress, returns the stored response |
| `Idempotency.IdempotencyService.StoreResponse` | src/eventcart/modules/idempotency/service.py:79-93 | writes the response into whatever row the key has; missing key reported |
| `Sessions.Session.Commit` | src/eventcart/modules/orders/service.py:68 | the working copy becomes the committed one |

## Left out

- FastAPI wiring, middleware, metrics, tracing, logging, configuration and migrations: no state property of their own.
- The NATS client and `pg_notify`: the broker is an append-only log whose publish calls the environment answers; a notification is a no-op.
- SQL isolation, row locking and concurrent dispatchers: stock is read and written without locks, so one dispatcher at a time is assumed; database errors count as crashes.
- SHA-256 and `json.dumps`: a request hash is an integer, and properties are about its equality.
- Request validation beyond non-empty items and positive quantities; inventory endpoints beyond adding a new SKU.
- Texts and stamps nothing branches on: error and reason texts, product names, customer and recipient e-mail, `published_at`, `updated_at`, event version, aggregate type.
- Identifiers are natural numbers instead of UUID strings: only equality and order are used. One clock reading is shared by the reads of one delivery.
- A run keeps its handler table and retry policy, and handlers other than the default ones are not modelled (a table is the set of event types it routes): changing the table between calls moves failures to another consumer's numbering.
- `Soundness.ReachableIsSound`: handling the envelope of a FAILED row is no step of the state machine, because it is exactly what breaks the invariant (`Boundaries.SoundThroughoutIff`).
- `Guarantees.HandledOnce`: speaks of the same runs; over all accepted runs `Repetition.TwoEffectsNeedGivenUp` and `Repetition.RepeatsIffGivenUp` say when it fails.
- Mixing the publisher and the dispatcher on one outbox: the publisher marks FAILED without a dead letter, so the two modes are separate runs.
- `AllocatorRuns.IdleRefinesGreedy`: for calls with the default handlers and no raising bodies, from a database where no unhandled OrderCreated or PaymentFailed row is backing off: a back-off that runs out in the middle of the call changes the order of the queue by the clock.
- `ExactCount.ExactlyWhatIsOwed`: excludes rejections and running back-offs, whose retries depend on the clock.
- `RetryLedger.LedgerOfRow`: the count is per row; a replay is a new row with a ledger of its own, as in the repository.
