# Order-event delivery, verified

A Dafny model of a delivery backend: an order service that writes orders together with outbox events, a Kafka consumer, a
notification service with an idempotent inbox, and the shared `platform` packages both rely on. Each module follows one
component. Code that changes state step by step is modelled by classes, arrays and loops proved against specification
functions; the properties are then proved about those functions, about step systems, or about whole runs of calls.

## The delivery protocol

`Delivery` is a step system whose state holds the order database, the partitioned log, the committed offsets, any number of
consumers of one group, the notification database and the history of handled records. Its steps are: a `CreateOrder` call
with arbitrary failures, publication of an outbox row (any number of times), any other message, partition assignment, a
poll, one handler call, a commit of which an arbitrary part lands, the rewind, a crash, and an operator moving the committed
offset back. A consumer's `process` is split into its handler calls, its commit and its rewind, so a crash or another
consumer's step may fall between any two of them; `Delivery.DrainIsProcess` proves that the split adds up to `process`, and
`LoopSteps` that every run of the loop of `Run` is a run of these steps. `CatchUp` draws the conclusions: what a consumer
that keeps polling reaches from any reachable state, and exactly which records can still be handled.

The library contracts taken as given:

- a poll returns, partition by partition, consecutive records from the fetch position and moves the position past them;
- a commit sets the offset to one past the highest committed record of each partition for which it takes effect;
- `SetOffsets` moves the fetch position; a restarted or reassigned consumer starts at the committed offset, or at the start;
- a Postgres transaction is atomic, a failing statement poisons it, and an error on COMMIT may hide a success;
- offsets of a partition increase, with gaps allowed;
- the outbox connector copies a row as `deploy/debezium/order-outbox.json` says: topic from the aggregate type, the `event-type`
  header from the type, the document from the payload;
- generated ids are canonical UUID texts and times are valid text; two calls may draw the same id, which the keys refuse.

Two hypotheses on polls are explicit (`Delivery.Tame`), because `Run` and `process` depend on them: a poll that reports a
fetch error carries no records, and no two chunks of a poll hold records of one partition. "No loss" and "exactly once"
need both; "at most once" needs neither. `PollHypotheses` proves that each is the exact condition under which one poll is
harmless, and that dropping either one makes both claims fail: any run that has left an event unrecorded can go on so that
a record carrying the event lies below the committed offset while the event is recorded nowhere.

## What the proofs found

- **A fetch error hides records.** `Run` skips a poll with a fetch error without handling or rewinding anything. If such a
  poll also carries records, of the same partition or of another one, they are passed over, and the next successful poll
  commits past them (`PollHypotheses.RecordsBesideErrorsAreLost`, `PollHypotheses.EventsBesideErrorsAreMissed`,
  `PollHypotheses.SkippedPollIsHarmlessIff`).
- **A partition twice in one poll is lost the same way.** The `return` in the `EachPartition` closure leaves only the current
  chunk; a later chunk of the same partition is still handled and committed (`PollHypotheses.DoubledPartitionIsLost`,
  `PollHypotheses.EventsInDoubledPartitionsAreMissed`, `PollHypotheses.PollCommitsNoGapIff`).
- **A record that always fails blocks its own partition only.** Whatever its handler calls do, any other partition gets to
  its log end within (records left + failing calls on its own records) turns that serve it
  (`PartitionProgress.PoisonBlocksOnlyItsPartition`).
- **An inner `WithinTx` is not a unit of its own.** If a caller swallows its error, the statements it ran before failing are
  committed with the outer transaction (`Postgres.FailedInnerIsCommitted`). A failed inner call leaves nothing behind on
  every run exactly when its closure, with every statement succeeding, returns nil or runs no statement
  (`Postgres.FailedInnerLeavesNothingIff`). No code in the repository swallows such an error.
- **A string that is not valid UTF-8 empties an application error.** `WithDetails` refuses it, the interceptor ignores that,
  and only the gRPC code survives the hop; a code that is the empty string arrives as `INTERNAL`. `AppErr.HopKeepsIff` is the
  exact condition. The HTTP status survives in every case.
- **Only a refused record blocks for good.** From any reachable state, after any crashes and failures, a record can still be
  handled exactly when the handler refuses no record of its partition up to it (`CatchUp.CanBeHandledIff`).
- **An order row and its event may spell an id differently.** A UUID column keeps the UUID, the document keeps the caller's
  spelling; they agree once both are read as UUIDs (`OrderConsistency.RunKeepsConsistent`).
- **The order total wraps.** It is the int64 remainder of the sum. Four pieces at a price of 2^62, with ids and texts
  every schema accepts, are stored as an order of total 0 (`OrderConsistency.OverflowingOrderIsStored`); a stored total is
  the price times quantity sum of its item rows exactly when that sum is at most 2^63 - 1
  (`OrderConsistency.StoredTotalExactIff`).
- **A warning written at the zero time does not throttle the next one** (`Throttle.NextWarningSpacedIff`).

## Modules

| module | component |
|---|---|
| Prelude | optional values, results, Go strings as bytes |
| Postgres | nested transactions of `platform/postgres/tx.go` |
| Consumer, ConsumerLoop, Progress, PartitionProgress, LoopCommits | the Kafka consumer: specification, objects, progress of all partitions and of each, what it commits and reports |
| Utf8, Hex, Json, Uuid | text formats: RFC 3629 section 4, RFC 8259 section 7, RFC 9562 section 4 |
| OrderDomain, OrderEvent, OrderService, OrderConsistency, OrderRequests | the order service |
| Notification, Transport | the notification service |
| Delivery, NoLoss, ExactlyOnce, PollHypotheses | the protocol end to end |
| LoopSteps, CatchUp | the consumer loop inside the protocol, and what can still be reached |
| Logger | the two slog handlers |
| AppErr, Flatten | application errors across gRPC, validation errors as lists |
| LoadPlan, LoadVerdict | the k6 stress plan and its verdict |
| Throttle | the throttled telemetry error handler |

## Model

| member | source | states |
|---|---|---|
| ExactlyOnce.ExactlyOnceBelowCommitted | services/notification/internal/service/notification.go:47-59 | In every reachable state, an event that some record below its partition's committed offset carries has exactly one inbox row and exactly one notification, whose payload reads as the event's document |
| ExactlyOnce.AtMostOnce | services/notification/internal/repository/pg/notification.go:23-51 | In every reachable state, with no hypothesis on polls, an id is either recorded nowhere or recorded exactly once, with the payload of the outbox row that has this id: no duplicates, no phantom events |
| ExactlyOnce.OrderIsNotifiedOnce | services/order/internal/service/order.go:113-123 | End to end: orders and outbox rows are paired, and once a record carrying an order's event lies below the committed offset, its single notification names the stored order, its item rows in order and its total, user and product ids compared as UUIDs |
| ExactlyOnce.HandledIsRecordedOnce | platform/kafka/kafkaconsumer/kafkaconsumer.go:126-140 | A record whose handler returned nil has its event recorded exactly once, in every reachable state |
| ExactlyOnce.CarrierIsStored | services/notification/internal/transport/kafka/order/created.go:18-63 | A record that carries an outbox row is stored under exactly that row's event id and aggregate id, with the record's own bytes as payload |
| ExactlyOnce.PublishedIsStored | deploy/debezium/order-outbox.json:17-20 | In every reachable state, a record published for an outbox row, with topic and event type header copied from the row, is one the notification service stores under the row's ids and type |
| ExactlyOnce.PerformTells | services/notification/internal/transport/kafka/order/handler.go:38-73 | One handler call, under any faults, keeps the notification database truthful, forgets no claimed id, and on success holds the record's event |
| ExactlyOnce.CreateAppends | services/order/internal/service/order.go:78-123 | A CreateOrder call only ever extends the outbox, with a row that names its own canonical ids |
| NoLoss.NothingIsLost | platform/kafka/kafkaconsumer/kafkaconsumer.go:78-153 | In every reachable state each log record below its partition's committed offset was handled with a nil result, after any crashes, failed commits, reassignments and seeks |
| NoLoss.HandledIsAPrefix | platform/kafka/kafkaconsumer/kafkaconsumer.go:126-150 | In every reachable state the handled records of a partition are a prefix of its log |
| NoLoss.UnhandledRecordBlocks | platform/kafka/kafkaconsumer/kafkaconsumer.go:128-136 | While a record is unhandled, no later record of its partition has been handled and no offset beyond it is committed |
| NoLoss.RunKeepsInv | platform/kafka/kafkaconsumer/kafkaconsumer.go:78-104 | Every tame run keeps: fetch positions, rewind targets, waiting chunks and committed offsets all lie right after handled records |
| NoLoss.PollKeepsWorker | platform/kafka/kafkaconsumer/kafkaconsumer.go:82-95 | A poll with at most one non-empty chunk of each partition leaves each chunk right after handled records |
| NoLoss.CommitKeeps | platform/kafka/kafkaconsumer/kafkaconsumer.go:142-146 | Committing the processed records, of which any part may land, commits only offsets below which everything is handled |
| LoopSteps.RunIsSteps | platform/kafka/kafkaconsumer/kafkaconsumer.go:78-104 | Every run of the loop, with any answers the service's handler can give, any commits that land and any record-less fetch errors, is a tame run of the step system that ends with the same fetch positions, committed offsets and handled records |
| LoopSteps.TurnIsSteps | platform/kafka/kafkaconsumer/kafkaconsumer.go:82-102 | One turn of the loop is a poll, handler steps, a commit and a rewind of the step system, with the same result |
| CatchUp.CanBeHandledIff | platform/kafka/kafkaconsumer/kafkaconsumer.go:126-150 | From any reachable state some tame continuation handles a given record of the log if and only if the handler refuses no record of its partition up to and including it |
| CatchUp.EventCanBeRecorded | services/notification/internal/service/notification.go:47-59 | From any reachable state, if no record up to a carrier of an event is refused, some tame continuation leaves the event recorded exactly once |
| CatchUp.PartitionCatchesUp | platform/kafka/kafkaconsumer/kafkaconsumer.go:78-104 | From any reachable state an idle consumer whose turns serve a partition at least (records left + failing calls on them) times handles every record of the partition, as a run of the whole system |
| Delivery.DrainIsProcess | platform/kafka/kafkaconsumer/kafkaconsumer.go:120-153 | The step system refines process: its handler steps between a poll and its commit end with exactly the processed records and rewind offsets of process |
| PollHypotheses.SkippedPollIsHarmlessIff | platform/kafka/kafkaconsumer/kafkaconsumer.go:87-95 | Skipping a poll because of a fetch error keeps "everything below a fetch position is handled", for every history, if and only if the poll carries no records |
| PollHypotheses.PollCommitsNoGapIff | platform/kafka/kafkaconsumer/kafkaconsumer.go:126-146 | One process call commits no offset beyond an unhandled record of the poll, however the handler calls end, if and only if no partition has two chunks with records |
| PollHypotheses.RecordsBesideErrorsAreLost | platform/kafka/kafkaconsumer/kafkaconsumer.go:87-95 | A run in which no partition is ever polled twice at once loses a record, because a poll carried records beside an error |
| PollHypotheses.DoubledPartitionIsLost | platform/kafka/kafkaconsumer/kafkaconsumer.go:126-146 | A run in which no poll carries records beside an error loses a record, because a poll held a partition twice |
| PollHypotheses.EventsBesideErrorsAreMissed | platform/kafka/kafkaconsumer/kafkaconsumer.go:87-95 | Any run that has left an event unrecorded can go on, without ever polling a partition twice at once, to a state where a record carrying the event lies below the committed offset and the event is recorded nowhere |
| PollHypotheses.EventsInDoubledPartitionsAreMissed | platform/kafka/kafkaconsumer/kafkaconsumer.go:126-146 | The same without ever polling records beside an error |
| PollHypotheses.ExactlyOnceNeedsBothHypotheses | platform/kafka/kafkaconsumer/kafkaconsumer.go:78-153 | Dropping either hypothesis makes "exactly once below the committed offset" false from the empty system |
| Consumer.ProcessPartition | platform/kafka/kafkaconsumer/kafkaconsumer.go:126-140 | The only chunk of a poll with records of its partition has its longest successful prefix handled, at most one more record attempted, and the next record as rewind target, present exactly when the prefix is proper |
| Consumer.ProcessCommits | platform/kafka/kafkaconsumer/kafkaconsumer.go:138-146 | The commit target of a partition is the last handled offset + 1, and there is none when nothing was handled |
| Consumer.ProcessTouchesOnlyPolled | platform/kafka/kafkaconsumer/kafkaconsumer.go:126-140 | A partition without records in the poll is neither called for, handled nor rewound |
| Consumer.ProcessRewindsIffProperPrefix | platform/kafka/kafkaconsumer/kafkaconsumer.go:148-152 | The rewind map is not empty exactly when some chunk was not handled to its end |
| Consumer.PartitionsAreIndependent | platform/kafka/kafkaconsumer/kafkaconsumer.go:126-140 | In any two polls, a chunk whose own calls end alike is attempted, handled, committed and rewound alike, whatever the other chunks and calls do |
| Consumer.ToMessage | platform/kafka/kafkaconsumer/message.go:14-29 | The message of a record; its headers are a map in which the first header of each key wins |
| Consumer.HeaderMapLookup | platform/kafka/kafkaconsumer/message.go:15-20 | Looking up a key gives the first header with that key, and nothing when there is none |
| ConsumerLoop.KafkaConsumer.Run | platform/kafka/kafkaconsumer/kafkaconsumer.go:78-104 | For every script of polls, commits and cancellations the loop ends in the state the fold of the script describes: positions, committed offsets, handler calls, reported errors |
| ConsumerLoop.KafkaConsumer.PlayTurn | platform/kafka/kafkaconsumer/kafkaconsumer.go:82-102 | One iteration: closed client, fetch error, or process, and whether the loop goes on |
| ConsumerLoop.KafkaConsumer.Process | platform/kafka/kafkaconsumer/kafkaconsumer.go:120-153 | The loops that fill processed and the nested rewind map do what the specification of process says, and the result is true exactly when something was rewound |
| ConsumerLoop.KafkaConsumer.EachPartition | platform/kafka/kafkaconsumer/kafkaconsumer.go:126-140 | Running the closure on every chunk collects the specified records and rewind offsets |
| ConsumerLoop.KafkaConsumer.HandlePartition | platform/kafka/kafkaconsumer/kafkaconsumer.go:127-139 | One chunk: the handler is called up to the first failure, successes are appended, a failure is remembered |
| ConsumerLoop.KafkaConsumer.Remember | platform/kafka/kafkaconsumer/kafkaconsumer.go:129-135 | Writing the nested map overwrites the entry of that topic and partition and nothing else |
| ConsumerLoop.KafkaConsumer.Commit | platform/kafka/kafkaconsumer/kafkaconsumer.go:142-146 | Commits only when something was processed, and reports a failed commit |
| ConsumerLoop.KafkaConsumer.Rewind | platform/kafka/kafkaconsumer/kafkaconsumer.go:148-152 | Moves the fetch positions of the rewound partitions and tells whether there were any |
| LoopCommits.TurnCommits | platform/kafka/kafkaconsumer/kafkaconsumer.go:126-146 | A processed turn commits, for a partition with one chunk of records whose commit lands, one past the last record it handled, and leaves the entry alone when it handled none or the commit does not land |
| LoopCommits.TurnCommitsNothingElse | platform/kafka/kafkaconsumer/kafkaconsumer.go:87-95 | No other entry of the committed offsets moves, and none does in a turn with a fetch error |
| LoopCommits.RunCommits | platform/kafka/kafkaconsumer/kafkaconsumer.go:78-153 | After any run whose commits for a partition land, the committed offset is one past the last handled record of the partition, at the same place in the log as its fetch position |
| LoopCommits.CommittedIsPositionIff | platform/kafka/kafkaconsumer/kafkaconsumer.go:142-152 | After a turn the committed offset equals the fetch position iff the chunk was handled whole or the next record's offset has no gap before it |
| LoopCommits.RunReports | platform/kafka/kafkaconsumer/kafkaconsumer.go:87-146 | onError is called once for every turn with a fetch error and once for every failed commit of handled records, and never else |
| LoopCommits.LoopEnds | platform/kafka/kafkaconsumer/kafkaconsumer.go:82-102 | The loop ends exactly at a closed client or at a cancelled wait after a fetch error or a rewind; any other turn is followed by the next |
| Progress.ReachesLogEnd | platform/kafka/kafkaconsumer/kafkaconsumer.go:78-104 | With at most `budget` failing calls and non-empty polls while records remain, every fetch position is at the log end after (records remaining + budget) processed turns, with any number of record-less fetch errors between them and whatever happens to commits |
| Progress.MeasureFalls | platform/kafka/kafkaconsumer/kafkaconsumer.go:97-102 | Each processed non-empty turn, while records remain, strictly lowers records past the positions + failures still to come |
| Progress.TurnMovesPosition | platform/kafka/kafkaconsumer/kafkaconsumer.go:120-153 | A processed turn moves each fetch position over exactly the records it handled |
| PartitionProgress.PartitionRun | platform/kafka/kafkaconsumer/kafkaconsumer.go:78-153 | Over any run with record-less fetch errors, whatever other partitions and commits do: the handled records of a partition are exactly those its fetch position moved over, once each and in order; the calls the handler has recorded for the partition are these plus the failing ones, and are at least the turns that serve it |
| PartitionProgress.PartitionReachesEnd | platform/kafka/kafkaconsumer/kafkaconsumer.go:78-153 | A partition gets to its log end with every remaining record handled once the turns that serve it reach its remaining records + the failing calls on its own records |
| PartitionProgress.PoisonBlocksOnlyItsPartition | platform/kafka/kafkaconsumer/kafkaconsumer.go:126-150 | A record that never succeeds keeps its partition before it, and any other partition still gets all its records handled under its own condition alone |
| PartitionProgress.EverythingIsHandled | platform/kafka/kafkaconsumer/kafkaconsumer.go:78-104 | When the log end is reached, every record that remained at the start has been handled, once and in order |
| Notification.RepeatChangesNothing | services/notification/internal/service/notification.go:47-59 | Once an event id is in the inbox, any further call for it, with any partition, offset, payload and faults, leaves the database as it is |
| Notification.InboxIffNotified | services/notification/internal/service/notification.go:47-59 | After any run of calls with any faults, an id is in the inbox iff it has a notification on each of its channels |
| Notification.RunAgrees | services/notification/internal/service/notification.go:47-59 | Every run keeps inbox and notifications in agreement and their keys unique |
| Notification.CreateAllOrNothing | services/notification/internal/service/notification.go:48-58 | A call has its whole effect or none; success means the effect |
| Notification.FirstWriteAppends | services/notification/internal/repository/pg/inbox.go:22-33 | The first success appends the inbox row as given (first partition and offset win) and a notification with the given payload on each channel |
| Notification.CreateForChannels | services/notification/internal/repository/pg/notification.go:23-51 | The queued batch is one insert per channel, in order, and no statement for no channels |
| Notification.Service.CreateNotification | services/notification/internal/service/notification.go:47-59 | Claim and inserts run as one transaction over the committed store |
| Transport.InboxKeyIsTheUuid | services/notification/internal/transport/kafka/order/created.go:45-63 | Two event ids get the same inbox key iff they spell the same UUID, and the key parses to that UUID |
| Transport.IdsAcceptedIffUuids | services/notification/internal/transport/kafka/order/created.go:52-63 | The ids are accepted exactly when both spell a UUID |
| Transport.RouteIs | services/notification/internal/transport/kafka/order/handler.go:38-73 | A record is ignored iff its topic has no handler or its first event-type header is not order.created, refused iff its document or its ids cannot be read, and else stored with its own topic, partition, offset and bytes |
| Transport.OrderHandler.Handle | services/notification/internal/transport/kafka/order/handler.go:38-73 | An unknown event type succeeds without effect, an undecodable or ill-identified event fails without effect, any other is stored in one transaction |
| Transport.Router.Handle | services/notification/internal/transport/kafka/router.go:26-37 | Dispatch by topic; a topic without a handler succeeds and touches nothing |
| Postgres.OutermostIsAtomic | platform/postgres/tx.go:43-64 | For any tree of nested calls the outermost WithinTx applies the whole journal of successful statements in order or nothing, commits at most once, and an error with effect means an ambiguous COMMIT |
| Postgres.InTxReplaysWrites | platform/postgres/tx.go:43-46 | Inside a transaction the pending store is the journal replayed on the store it started from |
| Postgres.InnerJoinsOuter | platform/postgres/tx.go:43-46 | Nested WithinTx calls have no effect of their own: the tree behaves as its flattened form |
| Postgres.AbortIsSticky | platform/postgres/tx.go:56-62 | After a failed statement nothing in the transaction changes the store, whatever errors are swallowed |
| Postgres.UnabortedIsDryRun | platform/postgres/tx.go:43-46 | A run that leaves the transaction usable has exactly the result and statements the closure has when every statement succeeds |
| Postgres.FailedInnerLeavesNothingIff | platform/postgres/tx.go:43-46 | A failed inner WithinTx leaves no statement in the outer transaction, on every run, if and only if its closure, with every statement succeeding, returns nil or runs none |
| Postgres.FailedInnerIsCommitted | platform/postgres/tx.go:43-64 | For any closure: when its inner call fails and the error is swallowed, a fault-free outer call commits exactly the statements it ran |
| Postgres.UnfaultedTxIsDryRun | platform/postgres/tx.go:43-64 | A fault-free outermost WithinTx commits all statements its closure runs when the closure returns nil, and otherwise none |
| Postgres.PlainIsNeverUndone | platform/postgres/tx.go:28-33 | Without a transaction every statement that ran stays, also before an error |
| Postgres.ExecAutocommits | platform/postgres/tx.go:28-33 | A single statement outside a transaction takes effect iff it is accepted and not broken, and an error after effect means a lost answer |
| Postgres.TxManager.WithinTx | platform/postgres/tx.go:43-64 | With a plain context: begin, run, commit or roll back; with a transaction in the context: only run, the committed store and commit count unchanged |
| Postgres.TxManager.ExecOn | platform/postgres/tx.go:28-33 | A statement goes to the transaction of the context if there is one, otherwise to the pool |
| OrderConsistency.OrderIffOneEvent | services/order/internal/service/order.go:78-123 | After any run of calls with any failures: an order row exists iff exactly one outbox row has its id as aggregate id, otherwise none does, and no item row is without its order |
| OrderConsistency.RunKeepsConsistent | services/order/internal/service/order.go:78-123 | Every run keeps order rows, item rows and outbox rows paired, keys distinct, and each event readable back to its order, items and total, ids compared as UUIDs |
| OrderConsistency.WriteOrderAllOrNothing | services/order/internal/service/order.go:113-120 | Order, items and outbox row are stored together or not at all, and only if types and constraints accept them |
| OrderRequests.StoredIsRequested | services/order/internal/service/order.go:78-123 | A call that changes the database adds one order row with the generated id, the user, the answered address and the time; one item row per line in order with the line's product and quantity and the name and price of the last catalog entry with that id; and one event that says the same |
| OrderRequests.CallFails | services/order/internal/service/order.go:78-127 | A call fails before it writes with the dependency that failed first, else with a missing product, else because it has no lines, else because a text of the event is not valid UTF-8, and in no other case |
| OrderRequests.UnfaultedCallStoresIff | services/order/migrations/pg/000001_create_orders_tables.up.sql:1-33 | Without faults a planned order is stored iff its rows meet the types and constraints of the tables |
| OrderConsistency.PlannedAgrees | services/order/internal/event/order.go:93-133 | The event built for an order reads back as exactly that order's payload, its items belong to it and its total is the wrapped sum |
| OrderConsistency.StoredTotalExactIff | services/order/internal/domain/order.go:53-58 | For every order stored by any run, the stored total is the price x quantity sum of its item rows iff that sum is at most 2^63 - 1 |
| OrderConsistency.OverflowingOrderIsStored | services/order/internal/service/order.go:78-123 | For any canonical UUIDs and any valid texts without U+0000, a call for four pieces at 2^62 stores an order of total 0, its item row summing to 2^64, and its event |
| OrderService.Service.CreateOrder | services/order/internal/service/order.go:78-123 | Before the transaction nothing is written and the error is the planned one; then order and event go through one transaction |
| OrderService.Resolve | services/order/internal/service/order.go:129-164 | The first failing dependency decides the error; without a failure the address and catalog are those answered |
| OrderService.BuildItems | services/order/internal/service/order.go:84-101 | The map-based join equals the specification: one item per line in order, from the last catalog entry with that id; an error iff a product is missing |
| OrderService.Join | services/order/internal/service/order.go:89-101 | Each item joins its own line with the product of that id; it fails exactly when some line's product is missing |
| OrderService.OrderCreated | services/order/internal/event/order.go:93-133 | An event exactly when every string is valid UTF-8, carrying the encoded payload of the order |
| OrderEvent.SurvivesIffValid | services/order/internal/event/order.go:16-18 | What the consumer reads equals the payload exactly for payloads whose strings are all valid UTF-8, for any number of items |
| OrderEvent.DecodeEncode | services/order/internal/event/order.go:120-123 | Decoding an encoded payload gives the payload with each ill-formed byte replaced by U+FFFD |
| OrderEvent.Validate | services/order/internal/event/order.go:52-71 | Accepts exactly the payloads with valid strings and otherwise names the first invalid field, top-level fields before items |
| OrderEvent.InvalidUtf8Field | services/order/internal/event/order.go:74-85 | The empty name exactly when all three strings of the item are valid |
| Utf8.SanitizeFixedIffValid | services/order/internal/event/order.go:16-18 | Replacing ill-formed bytes changes nothing exactly on valid strings |
| Utf8.SanitizeReplaces | services/order/internal/event/order.go:16-18 | Encoded code points are kept, and each byte at which no encoded code point starts becomes U+FFFD |
| Utf8.ValidIffEncoded | services/order/internal/event/order.go:59 | The validity check accepts exactly the encodings of sequences of Unicode scalar values |
| Json.ParsePrinted | services/order/internal/event/order.go:120 | Parsing a printed document gives the document with sanitised strings, for strings with any bytes and documents of any depth |
| Uuid.ParseIffSpells | services/notification/internal/transport/kafka/order/created.go:45-48 | The parser accepts exactly the canonical, urn, braced and bare spellings in either case and returns the UUID they spell |
| Uuid.ParseFormat | services/notification/internal/transport/kafka/order/created.go:62 | The canonical text parses to the UUID it was made from |
| Uuid.FormatIsCanonical | services/notification/internal/transport/kafka/order/created.go:62 | The canonical text is 36 characters of lower-case digits in groups of 8, 4, 4, 4 and 12 |
| Uuid.NormalIsCanonical | services/order/migrations/pg/000001_create_orders_tables.up.sql:3 | A UUID column keeps the canonical form of every spelling |
| Uuid.SameKeyIffSameUuid | services/notification/internal/transport/kafka/order/created.go:45-63 | Two accepted texts have the same canonical form iff they spell the same UUID |
| OrderDomain.NewOrder | services/order/internal/domain/order.go:46-70 | In-place ids: every item keeps its other fields and its place; no items is an error that changes nothing |
| OrderDomain.TotalIsWrappedSum | services/order/internal/domain/order.go:53-58 | The int64 accumulator is the mathematical sum wrapped once, for any number of items |
| OrderDomain.TotalExactIffFits | services/order/internal/domain/order.go:53-58 | The total is exact iff the sum fits an int64 |
| OrderDomain.TotalExactWithinBounds | services/order/internal/domain/order.go:31-33 | Prices in [0, P], positive int32 quantities and n * P * (2^31 - 1) <= 2^63 - 1 keep it exact and non-negative |
| Logger.HandlersAgree | platform/logger/handler.go:35-93 | For every sequence of WithAttrs and WithGroup and every record, flattening what CtxHandler nests equals what otelHandler writes for the same calls, followed by the unprefixed request_id |
| Logger.FlattenIsLeaves | platform/logger/otel.go:64-81 | Flattening writes every plain attribute exactly once, in the order of the record, with its value and under the dotted keys that lead to it |
| Logger.FlattenAttr | platform/logger/otel.go:64-81 | The recursive loop yields the specified pairs |
| Logger.OtelHandler.Handle | platform/logger/otel.go:35-44 | The pairs written before, then the record's flattened under the prefix |
| Logger.OtelHandler.WithAttrs | platform/logger/otel.go:46-53 | The derived handler has the flattened pairs added and the same prefix |
| Logger.OtelHandler.WithGroup | platform/logger/otel.go:55-61 | The derived handler has the group appended to its prefix; an empty name changes nothing |
| Logger.CtxHandler.WithAttrs | platform/logger/handler.go:68-82 | The derived handler has the attributes in its last group; no existing handler or array is modified |
| Logger.CtxHandler.WithGroup | platform/logger/handler.go:84-93 | The derived handler has one more group; no existing handler or array is modified |
| Logger.CtxHandler.NestRecord | platform/logger/handler.go:49-66 | The backward loop builds the nested attributes, leaving out empty groups |
| Logger.CtxHandler.Handle | platform/logger/handler.go:35-45 | What the inner handler writes: nested attributes and then request_id outside every group |
| Logger.Append | platform/logger/handler.go:79 | append yields old content + new, writing in place when the backing array has room |
| Logger.DeriveBeside | platform/logger/handler.go:68-93 | Whatever is derived from a parent, what an older handler writes stays the same |
| AppErr.HopKeepsIff | platform/apperr/grpcerr/grpcerr.go:13-54 | One hop keeps code, public message, reason and violations in order if and only if the code is not empty and every string is valid UTF-8 |
| AppErr.HopsAreOneHop | platform/apperr/grpcerr/grpcerr.go:13-54 | Any number of hops, with any wrapping in between, delivers what one hop delivers, for every error |
| AppErr.GatewayStatus | platform/apperr/code.go:93-119 | The HTTP status after any chain of hops is that of the original error, whatever the error is |
| AppErr.HopIsSendable | platform/grpc/interceptors/error.go:27-55 | What a hop delivers satisfies the condition of the next hop |
| AppErr.ErrorInterceptor | platform/grpc/interceptors/error.go:20-56 | The appended details and the status are those of the encoder; no error stays no error |
| AppErr.Map | platform/apperr/grpcerr/grpcerr.go:13-54 | The loop over details computes the specified code, message, reason and violations; a foreign error becomes INTERNAL |
| AppErr.WrappedStatusMapsAlike | platform/apperr/grpcerr/grpcerr.go:17-53 | A status wrapped inside other errors is mapped to the code, reason and violations of the bare status |
| AppErr.GrpcRoundTrip | platform/apperr/code.go:55-204 | The code tables undo each other on named codes, any other code reads back as INTERNAL, and the HTTP status is unchanged |
| AppErr.FoundIsFirst | platform/apperr/error.go:86-107 | The application error of a chain is the first in pre-order, through any wrapping and joining |
| AppErr.FirstAppIsDelivered | platform/apperr/error.go:86-107 | An error with application errors in its tree is answered with the first of them in pre-order: its gRPC code, and with valid strings and a code all its visible fields |
| AppErr.ForeignErrorIsCoded | platform/apperr/error.go:100-106 | Without one the code is CANCELED iff a cancelled context is in the tree, DEADLINE_EXCEEDED iff an expired one and no cancelled one is, INTERNAL iff neither; nothing else is told |
| AppErr.DecodedIs | platform/apperr/grpcerr/grpcerr.go:17-53 | Decoding reads the first status of the tree: the code of the last own detail that names one, the reason of the last own detail, all violations in order, and the whole error's text when the status is wrapped |
| AppErr.WithoutStatusIsInternal | platform/apperr/grpcerr/grpcerr.go:13-22 | An error without a status in its tree is decoded as INTERNAL |
| AppErr.CodesOnTheWire | platform/apperr/code.go:55-119 | The name, gRPC code and HTTP status of every code |
| AppErr.DefaultMessages | platform/apperr/code.go:131-163 | The message of every code for an error without a text of its own |
| Flatten.Flatten | platform/apperr/ozzoerr/ozzoerr.go:12-39 | Whatever order maps are iterated in, the result is the listing of the tree with dotted paths; it terminates |
| Flatten.ListingIsLeaves | platform/apperr/ozzoerr/ozzoerr.go:12-39 | The listing holds exactly the leaves of the tree, each under the keys that lead to it |
| Flatten.EachLeafOnce | platform/apperr/ozzoerr/ozzoerr.go:12-39 | A path is listed iff a leaf lies there, and at one place only |
| Flatten.ListingInOrder | platform/apperr/ozzoerr/ozzoerr.go:24-38 | The listing is strictly ordered by key path, level by level |
| Flatten.OrderDoesNotMatter | platform/apperr/ozzoerr/ozzoerr.go:24-28 | Sorting any enumeration of a map's keys gives the same list |
| LoadPlan.TargetMatchesProfile | load/k6/lib/config.js:92-135 | At every moment the target of stageAt equals the rate the executor generates from the stages of stressProfile |
| LoadPlan.TargetBetweenRates | load/k6/lib/config.js:253-264 | The target lies between neighbouring rates, approaches the stage's rate in proportion to the rest of the ramp, and is that rate on the plateau |
| LoadPlan.StageAtNamesStage | load/k6/lib/config.js:253-264 | stageAt answers exactly from the scenario start on and names the stage that has started and not been followed |
| LoadPlan.ThresholdsWaitForPlateau | load/k6/lib/config.js:99-111 | A stage threshold names a stage of the plan and can abort the run only from a moment at which stageAt, setup subtracted, names the plateau of that stage |
| LoadPlan.EveryStageIsWatched | load/k6/lib/config.js:99-111 | Every stage has both aborting thresholds, from 30 seconds into its plateau on, setup included |
| LoadPlan.StagesMeet | load/k6/lib/config.js:77-90 | Stages follow each other without a gap, 30 seconds of ramp and 90 of plateau each |
| LoadPlan.StressRates | load/k6/lib/config.js:60-74 | A listed plan is accepted iff every entry is a positive integer and kept as given; the default is the ladder 25, 50, ..., 1000 |
| LoadPlan.Planner.StressPlan | load/k6/lib/config.js:77-90 | With and without the cache the plan is the one of the rates |
| LoadPlan.StressProfile | load/k6/lib/config.js:92-135 | The loop yields two segments and two aborting thresholds per stage, and the dropped-iterations threshold |
| LoadVerdict.LimitReachedHasLimit | load/k6/lib/summary.js:230-248 | limit_reached implies a first degraded stage with none degraded before it, and limit_rps of the last stage reached before it |
| LoadVerdict.VerdictMeans | load/k6/lib/summary.js:230-245 | A run is failed iff some crossed threshold is not a limit threshold, an iteration was not checked, none was, or no stage has data; otherwise limit_reached iff some threshold was crossed |
| LoadVerdict.LimitMeans | load/k6/lib/summary.js:109-120 | There is a limit exactly when some stage is degraded, and it is the one just described |
| LoadVerdict.StoppedIsStageAt | load/k6/lib/summary.js:91-94 | For any plan and any elapsed time the stopped stage is the stage of stageAt at max(0, elapsed - slack) |
| LoadVerdict.MarkDegradation | load/k6/lib/summary.js:65-87 | Each stage gets exactly the reasons of the limit criterion, measured against the first reached stage, and is degraded iff it has one |
| LoadVerdict.MarkThresholdStages | load/k6/lib/summary.js:98-107 | Each stage gets a reason for each crossed threshold that names it, keeping its earlier ones |
| LoadVerdict.DegradedIff | load/k6/lib/summary.js:38-107 | A stage is degraded iff its plateau has requests and an error rate above 1 %, a p95 of at least 3.005 times the first stage's, or after 85 seconds fewer than 94.95 % of the requests asked for; or iterations were dropped and the run stopped in it; or one of its thresholds was crossed |
| LoadVerdict.BuildSummary | load/k6/lib/summary.js:223-248 | Verdict and limit of the marked stages are those of the specification functions |
| Throttle.WarningRate | platform/telemetry/errorhandler.go:29-44 | Over any run with non-zero clock readings, monotone or not, n warnings span at least n - 1 intervals |
| Throttle.EveryCallCounted | platform/telemetry/errorhandler.go:33-39 | Calls = warnings + suppressed counts reported + the pending counter, for every run |
| Throttle.WarningsAreSpaced | platform/telemetry/errorhandler.go:32 | Each warning is at least an interval after the one before unless that one was written at the zero time |
| Throttle.NextWarningSpacedIff | platform/telemetry/errorhandler.go:32 | After a warning the next one is an interval later on every continuation iff the reading was not the zero time |
| Throttle.WarnsIffDue | platform/telemetry/errorhandler.go:29-44 | After any run of errors, the next one is warned about, with the number of errors left unreported, iff nothing was written yet, the last warning was written at the zero time, or it is at least an interval old; otherwise it is only counted |
| Throttle.ErrorHandler.Handle | platform/telemetry/errorhandler.go:29-44 | One call either counts the error or warns with the count and starts again |

## Left out

- Closures passed to `WithinTx`: represented as data (sequencing, swallowed errors, statements, nested calls), so that every tree of calls can be quantified over; closures that branch on query results are not covered.
- Postgres.Pool: connections, isolation between concurrent transactions and deadlocks; each transaction runs on the committed store alone.
- Json.ParsePrinted: the parser knows the documents the encoder writes; insignificant whitespace, `true`, `false`, `null`, fractions and exponents are refused.
- OrderEvent.DecodeEncode: camelCase field names and int64 values written as strings, which protojson also accepts, are not modelled; the creation time is kept as its text.
- Uuid.Parse: the `uuid` package is not part of this model; its accepted forms are taken from the comment in `created.go`, with the urn prefix in lower case.
- UUID columns: user and product ids are read by `Uuid.Parse` and kept in canonical form; spellings on which Postgres differs from it (other hyphenations, the urn prefix) are refused by the request schema. Generated ids are kept as they are, being canonical.
- JSONB: Postgres re-renders the stored document; a record carries an event when it decodes to the same payload, not when it has the same bytes.
- Debezium and the broker: an at-least-once publish step over committed outbox rows; log retention, compaction and the choice of partition are not modelled, nor is group fencing (a consumer that lost a partition may still commit, which is more permissive).
- Real time in the consumer: the backoff only adds a point at which the loop may stop.
- Tracing, metrics, log texts, traceparent columns, order status and update time, notification and outbox timestamps.
- Flatten.Flatten: nil entries of a validation map, on which the source panics; `sort.Strings` is modelled by an insertion sort.
- Logger: `LogValuer` resolution, levels, and the text and JSON handlers on standard output; the exporter is taken to emit attributes in the order it is given them.
- Throttle.ErrorHandler.Handle: the mutex (one call at a time) and the saturation of `Time.Sub`.
- LoadPlan: the k6 executor is not part of this model; it is taken to move linearly to each target of its stages.
- LoadPlan and LoadVerdict: floating-point rounding (numbers are exact), the parsing of numbers and threshold names from text, the profiles other than stress, and statistics that do not enter the verdict.
- User, product and gateway services, configuration, wiring, middleware, health checks and `pgerr`: pass-through code settled by reading one branch.
