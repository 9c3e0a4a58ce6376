# A verified model of the syrius-orbit daemon core

The daemon sits between a local MQTT broker, where robots speak, and a cloud broker, where a
fleet manager speaks. It forwards VDA 5050 messages between the two, records every message as
rows of an append-only event log, and keeps three read tables (robots, orders, instant
actions) up to date by projecting, once per cycle, only the latest row of each item.

The project models these parts and proves what the design promises about them.

- **Event log and query** (`EventLog`). The table is a growing sequence with strictly
  increasing ids. The latest-per-item query has no ORDER BY, so its row order is a parameter:
  theorems say which orders they allow.
- **Read model** (`ReadModel`, `Folds`, `Repositories`). Three maps of records and six
  partial-column upserts. `ApplyAllLaw` says what any sequence of upserts leaves behind without
  running it: the last write of a column group wins, the first write of a row fixes its
  insert-only columns.
- **Projection** (`Projection`, `Projectors`, `Engine`). The six projectors and one cycle, as
  methods over mutable repositories proved equal to a fold of upserts.
- **What a cycle means** (`Refinement`, `CycleProperties`, `Guarantees`, `RowTimes`, `Witnesses`).
  Projecting the latest rows shows what replaying the whole log shows, and exactly when it does;
  the two times of a row follow from the order of the projectors.
- **Every interleaving** (`Interleaving`, `Freshness`, `Undisturbed`, `Throughout`,
  `Abandonment`). The recorder takes no database lock and a cycle is no transaction. Runs are
  sequences of single moves: an insert, a query, one upsert, one skipped event, a cycle that ends
  or is abandoned anywhere.
- **Recorder** (`Recorder`, `RecorderRuns`, `EventRecorders`, `PlainCodec`). Messages become one
  row per item; an insert that throws, or the end of the process, cuts a message short between two
  rows, and a history keeps what was cut. `RecordedLogs` says what holds of the log at every moment
  of every interleaving of the recording threads, cuts included: topics with one item per message
  are always settled. For the others `SettledIffLossCovered` says exactly which recordings are.
  Theorems about recorded logs ask of the JSON codec that parsing a dumped message returns it;
  `PlainTextRoundTrips` gives such a codec and `NewRecorder` a recorder over it.
- **The pipeline** (`Pipeline`). Recorder and loop composed. The theorems about the robots and
  orders tables hold of everything the recorder produces. Those about the instant actions table ask
  that it be *safe*: what cut messages lost is covered. `ReplayIffSafe` shows that this is exact.
- **Topics and bridge** (`Topics`, `EndPoints`, `Forwarding`, `Proxy`, `DispatchRuns`). One
  printer, one filter and two parsers; MQTT clients that outlive the endpoints subscribed through
  them; forwarding as a network in which any message may be delivered at any time; the proxy's
  lifecycle as a class invariant; dispatch, registration and stop on different threads.
- **Migrations and codec** (`Migrations`, `Pruning`). The resumable migrator over any sequence
  of failing calls, what decoding by default makes of any text, and what in-place pruning does to
  the meaning of a message.

Words used below: a *plan* is one answer to each of the six queries of a cycle. A row *names* the
keys that its payload writes. A topic of a log is *settled* when, for each key, the last of the
latest rows that name it agrees with the last of all rows that name it; a log is *coherent* when
ids ascend and every topic is settled. A key is *lost* when a message that names it was cut short
before it was filed under it. The loss is *covered* when some row of the cut message is still the
latest of its item, or when the latest rows from before the message say the same of the key. A
latest row is *stale* when it says of some key something other than the log says last. A
*single-item* topic files each message under the one key it names: connection, state, factsheet
and order.

## Where the code and its documentation differ

The model follows the code.

- The recorder files instant actions under `instantActions`
  (src/Vda5050EventRecorder.cpp:92), and the projector asks for `instant_actions`
  (include/syrius_orbit/projection/InstantActionsProjector.hpp:16), the name in
  docs/CQRS_DESIGN.md:105 and 141. `ActionsProjectedIffTopicsAgree` proves that recorded actions
  reach the read model if and only if the two names are the same, so in the code they never do.
  The recorder's name is a parameter of the run model, and theorems hold for both.
- docs/CQRS_DESIGN.md:146-157 promises idempotence and restart safety without condition. The
  former holds as promised (`CycleIdempotent`). Restart safety holds as promised of the robots and
  orders tables (`RobotsAndOrdersShowReplay`). For the instant actions table it rests on two
  conditions, each exact. With answers in id order, projecting the latest rows shows in a table
  what replay shows, from every start, if and only if the table's topics are settled
  (`RefinesReplayIffSettled`), and they are if and only if each key that a cut message lost, and
  that no later row names, is covered (`SettledIffLossCovered`). An uncovered loss always shows
  (`UncoveredLossShows`), `CutShortMatters` is a recording with one, and recording the key again
  repairs it (`RecordedAgainSettles`). Since the query has no ORDER BY, every order it may return
  is right if and only if moreover no latest row is stale (`AnyOrderIffNoStale`);
  `ReturnOrderMatters` is a recording on which another order shows an outdated status.
- docs/CQRS_DESIGN.md:154-157 says that the read model retains its last state. While a cycle
  runs, an older answer can come back, in any order of rows. Seen between two events, from newest
  columns a cycle shows them throughout if and only if no latest row is stale
  (`ThroughoutIffNoStale`); seen between any two upserts, if and only if no single upsert of a
  latest row is outdated (`ThroughoutIffNoStaleWrite`). A cycle abandoned there leaves it behind,
  under the same conditions (`OutdatedIffStale`, `OutdatedIffStaleWrite`), until the group is
  projected again (`KeptUntilProjected`, `NextCycleRepairs`). Single-item topics are never stale
  (`SingleItemNeverStale`).
- include/syrius_orbit/Vda5050EventRecorder.hpp:26-28 suggests attaching the cloud endpoint
  later. The endpoint is fixed at construction, so without one `attachCloud` never registers
  (`EventRecorder.AttachCloud`).
- docs/CQRS_DESIGN.md:107 calls the zone-set topic `zone_set`, the recorder `zoneSet`. Nothing
  projects it.
- Two embedded migrations with one version would not both run: the later one is refused once as
  a duplicate key, and may be taken as applied by the next call. `AppliedIffDistinct` makes this
  exact.
- A subscriber that has been stopped can still gain a callback, because the stopped flag is read
  before the lock is taken (`LateRegistration`): its list stays empty if and only if no
  registration was between the two when it was stopped (`StaysEmptyIffNoneRegistering`). Such a
  callback never runs (`NothingNewAfterStop`).
- `stop` and `start` look symmetric, but `MqttSubscriber::subscriptions_`
  (include/syrius_orbit/mqtt/MqttSubscriber.hpp:42,106) belongs to the clients, which outlive the
  endpoints, and is never cleared. After a restart, or a start that failed after subscribing, each
  message also reaches handlers of endpoints that are gone (`Restart`). Every handler a message
  reaches is live if and only if no earlier endpoint subscribed through the client
  (`OnlyLiveIffFirst`). What a stray handler does is undefined, so `Deliver` promises nothing when
  one is reached.
- A configured prefix may contain a level `+`, which the filter takes for a wildcard and the parser
  for itself; filter and parser agree exactly otherwise (`AgreeIffNoWildcard`).
- Robot ids join manufacturer and serial number with a dot; `RobotKeyCollision` says exactly
  which pairs of robots share an id.

## Model

| member | source | states |
|---|---|---|
| EventLog.EventsRepository.Insert | src/db/Vda5050EventsRepository.cpp:8-38 | Appends one row, unchanged but for its id and receive time; the id exceeds every earlier one and all earlier rows stay. An insert that throws leaves the table as it was. |
| EventLog.EventsRepository.FindLatestByTopic | src/db/Vda5050EventsRepository.cpp:40-59 | Returns exactly the newest row of every item of the topic, once each, for whatever order the query plan visits rows; in id order if it visits them in id order. |
| EventLog.QueryEqualsIndex | src/db/Vda5050EventsRepository.cpp:40-59 | The query is exact and incremental: its rows are, item for item, an index updated on each insert, and each carries the largest id of its item. |
| EventLog.ScanResultIsBatch | src/db/Vda5050EventsRepository.cpp:40-59 | Any scan that visits each table row once yields an answer the query may give. |
| ReadModel.ApplyLaw | src/db/RobotsRepository.cpp:98-183 | One upsert sets its own column group and the update time of one row and keeps every other column and row; only when it inserts the row does it set the rest. |
| Folds.ApplyAllLaw | src/db/InstantActionsRepository.cpp:88-149 | After any sequence of upserts, each column group holds the last write to it, else its old value, else what the inserting write gave; insert-only columns hold the first write of the row. |
| Folds.ApplyAllIdempotent | src/db/InstantActionsRepository.cpp:88-149 | Running any sequence of upserts twice equals running it once, creation and update times included. |
| Repositories.RobotsRepository.UpsertConnection | src/db/RobotsRepository.cpp:98-121 | The table changes by exactly the connection upsert, whose law is `ApplyLaw`. |
| Repositories.RobotsRepository.UpsertState | src/db/RobotsRepository.cpp:123-158 | The table changes by exactly the state upsert. |
| Repositories.RobotsRepository.UpsertFactsheet | src/db/RobotsRepository.cpp:160-183 | The table changes by exactly the factsheet upsert. |
| Repositories.OrdersRepository.UpsertFromOrder | src/db/OrdersRepository.cpp:74-110 | The table changes by exactly the order upsert: an empty description is stored as NULL, an existing row keeps status, site and creation time. |
| Repositories.InstantActionsRepository.UpsertFromAction | src/db/InstantActionsRepository.cpp:88-125 | The table changes by exactly the action upsert; the status another writer owns is kept. |
| Repositories.InstantActionsRepository.UpsertFromResponse | src/db/InstantActionsRepository.cpp:127-149 | The table changes by exactly the response upsert; on an existing row only status and update time change. |
| Projectors.ConnectionProjector.Project | src/projection/ConnectionProjector.cpp:12-20 | Writes the decoded connection state of the event, or fails and changes nothing if the payload does not parse. |
| Projectors.StateProjector.Project | src/projection/StateProjector.cpp:12-21 | Writes the decoded state columns, an absent pause flag as false, or fails and changes nothing. |
| Projectors.FactsheetProjector.Project | src/projection/FactsheetProjector.cpp:10-14 | Stores the payload unparsed; never fails. |
| Projectors.OrderProjector.Project | src/projection/OrderProjector.cpp:12-21 | Writes the row of the order id in the payload, or fails and changes nothing. |
| Projectors.InstantActionsProjector.Project | src/projection/InstantActionsProjector.cpp:13-30 | The loop writes every action of the message, in order; nothing if the payload does not parse. |
| Projectors.ResponsesProjector.Project | src/projection/ResponsesProjector.cpp:13-24 | The loop rewrites every response of the message, in order, whichever item the event stands for. |
| Engine.ProjectionEngine.Project | src/projection/ProjectionEngine.cpp:54-69 | Running the projector of a topic on an event changes the three tables by exactly that event's upserts. |
| Engine.ProjectionEngine.ProjectBatch | src/projection/ProjectionEngine.cpp:81-89 | Projecting one answer applies its events in order; one that fails to parse contributes nothing and does not stop the rest; the failures counted are exactly the events that do not parse. |
| Engine.ProjectionEngine.RunCycle | src/projection/ProjectionEngine.cpp:71-94 | A cycle queries the six topics and leaves the tables equal to the fold of all upserts of its plan, whose times `RobotTimes`, `OrderTimes` and `ActionTimes` state; the count of failures is that of the events that do not parse. |
| RowTimes.RobotTimes | src/projection/ProjectionEngine.cpp:54-89 | After a cycle, a robot row was last updated when the last event of the factsheet answer that writes it was received, else of the state answer, else of the connection answer; a row that the cycle inserts was created in the opposite order; an existing row keeps its creation time. |
| RowTimes.ActionTimes | src/projection/ProjectionEngine.cpp:54-89 | The same for an action row, with responses after actions. |
| RowTimes.OrderTimes | src/projection/ProjectionEngine.cpp:54-89 | The same for an order row, which only the order answer writes. |
| RowTimes.RobotTimesFromLog | src/db/RobotsRepository.cpp:98-183 | Over logs of single-item topics these times follow from the log alone, for any return order: the newest factsheet dates the row, although a newer state may have been projected. |
| Refinement.NewestRow | src/db/Vda5050EventsRepository.cpp:40-59 | When every key a row names is filed in a row of the same message, the newest row filed under an item says about it what the whole log says. |
| Refinement.BatchNewest | src/projection/ProjectionEngine.cpp:80-89 | On a settled topic, projecting one answer shows each key what replaying the log shows: in id order for any topic, in any order for single-item topics. |
| Refinement.InOrderIffSettled | src/projection/ProjectionEngine.cpp:80-89 | The projected id-ordered answer shows what the whole log says, for every key, if and only if the topic is settled. |
| Refinement.UpheldIffSaid | src/db/Vda5050EventsRepository.cpp:42-50 | The last row that names a key is upheld if and only if the last of the latest rows that speak about the key says the same. |
| Refinement.InOrderShowsLatest | src/projection/ProjectionEngine.cpp:80-89 | On any log, settled or not, the projected id-ordered answer shows of each key what the last latest row that speaks about it says. |
| Refinement.SingleItemSettled | src/Vda5050EventRecorder.cpp:37-86 | Where rows parse and name only the item they are filed under, the topic is settled. |
| Refinement.PlanNewest | src/projection/ProjectionEngine.cpp:80-89 | The same over all six topics of a cycle. |
| Refinement.CycleShows | src/projection/ProjectionEngine.cpp:71-94 | From any tables that partial projections of the log can have left, one undisturbed cycle shows in a table the meaning of the log, if the table's own topics are settled and their multi-item answers in id order. |
| Refinement.ReplayShows | docs/CQRS_DESIGN.md:47-55 | Replaying every event in id order shows that same meaning in every table, for every log and start. |
| Refinement.TableRefinesReplay | src/projection/ProjectionEngine.cpp:79-89 | Latest-only projection refines full replay table by table: from any starting tables, same rows and same event-owned columns in a table whose own topics are settled, whatever the others are. |
| Refinement.LatestOnlyRefinesReplay | src/projection/ProjectionEngine.cpp:79-89 | The same for all tables of a coherent log at once. |
| Refinement.RefinesReplayIffSettled | docs/CQRS_DESIGN.md:47-55 | With answers in id order, latest-only projection refines full replay in a table, from every start, if and only if each topic of that table is settled. |
| CycleProperties.CycleIdempotent | docs/CQRS_DESIGN.md:150-151 | A second cycle over the same answers leaves the whole read model as it is, times included. |
| CycleProperties.RowOrderDecides | src/db/RobotsRepository.cpp:98-183 | Two sequences of upserts with the same order on each single row give the same tables. |
| CycleProperties.BatchOrderFree | src/db/Vda5050EventsRepository.cpp:42-50 | For a single-item topic every return order of the query gives the same tables, every column included. |
| CycleProperties.CycleOrderFree | src/db/Vda5050EventsRepository.cpp:42-50 | The same for a whole cycle. |
| CycleProperties.SingleItemNeverStale | src/Vda5050EventRecorder.cpp:37-86 | Where rows name only the item they are filed under, no latest row is stale. |
| CycleProperties.NoStaleAnyOrder | src/projection/ResponsesProjector.cpp:13-24 | If the topic is settled and no latest row is stale, every return order shows the newest columns. |
| CycleProperties.AnyOrderIffNoStale | src/db/Vda5050EventsRepository.cpp:42-50 | Every order that the query may return shows the newest columns if and only if the topic is settled and no latest row is stale. |
| CycleProperties.UpsertsCommute | src/db/RobotsRepository.cpp:98-183 | Upserts of different column groups, or of different keys, commute on every event-owned column; on rows that only one of them touches also on times and insert-only columns. |
| CycleProperties.FailedEventsDropped | src/projection/ProjectionEngine.cpp:82-88 | Whatever subset of events fails to parse, the upserts are those of the batch with these events removed. |
| CycleProperties.FailureIsolated | src/projection/ProjectionEngine.cpp:82-88 | A column group whose own events parse shows the same whether or not other events fail. |
| CycleProperties.FailureRetains | docs/CQRS_DESIGN.md:154-157 | A column group all of whose events fail keeps the state it had. |
| Witnesses.ReturnOrderMatters | src/db/Vda5050EventsRepository.cpp:42-50 | For any codec that round-trips, a run of the recorder whose coherent log has two legal answers: in id order the newest status is shown, swapped an outdated one; and re-applying the older row brings it back. |
| Witnesses.CutShortMatters | src/Vda5050EventRecorder.cpp:97-106 | A run of the recorder in which a message is cut short after its first row and the loss is not covered: even the id-ordered answer shows an outdated status where replay shows the newest. |
| Interleaving.RunExplained | src/projection/ProjectionEngine.cpp:71-94 | In every run of inserts, upserts, skips and abandoned cycles, each row and column is the start's, or comes from an event of the log, or is an insert default. |
| Interleaving.RestartSafe | docs/CQRS_DESIGN.md:146-157 | `TableRestartSafe` for all tables of a coherent log at once. |
| Interleaving.TableRestartSafe | docs/CQRS_DESIGN.md:146-157 | After any such run, one undisturbed cycle shows in a table what a single cycle over the final log from the start would show, and what full replay would show, if the table's own topics are settled and their multi-item answers in id order. |
| Interleaving.InsertOnlyFrozen | src/db/RobotsRepository.cpp:98-183 | Over any run, an existing row never disappears and never changes its identity, management and creation columns. |
| Interleaving.NoRegression | src/projection/ProjectionEngine.cpp:77-93 | Over any run, the event behind the connection, state, factsheet or order columns of a row never gets older, and the columns are what that event says. |
| Freshness.CleanCycleCatchesUp | src/projection/ProjectionEngine.cpp:77-93 | A cycle in which nothing fails, however many inserts overtake it, leaves these columns at least as new as every matching event in the log when it began. |
| Undisturbed.QuietCycle | src/projection/ProjectionEngine.cpp:71-94 | Move by move, a cycle without insert, skip or abandonment is exactly one application of its plan. |
| Throughout.CleanCycleShows | src/projection/ProjectionEngine.cpp:77-93 | A cycle that skips no event of a column group, although inserts overtake it and other groups fail, ends with the group, multi-item or not, showing all that was in the log when its own projector asked. |
| Throughout.ThroughoutIffNoStale | src/projection/ResponsesProjector.cpp:13-24 | From newest columns, a cycle shows them at every event boundary if and only if no latest row of the topic is stale, whatever the order of the answer and whichever other groups fail. |
| Throughout.ThroughoutIffNoStaleWrite | src/projection/ResponsesProjector.cpp:13-24 | From newest columns, a cycle shows them at every move, between two upserts of one message too, if and only if every single upsert of every latest row says what the log says last. |
| Abandonment.OutdatedIffStale | src/projection/ProjectionEngine.cpp:77-93 | From newest columns, a cycle abandoned between two events can leave outdated ones if and only if some latest row of the topic is stale. |
| Abandonment.OutdatedIffStaleWrite | src/projection/ProjectionEngine.cpp:77-93 | From newest columns, a cycle abandoned anywhere, between two upserts of one message too, can leave outdated ones if and only if some single upsert of a latest row is outdated. |
| Abandonment.KeptUntilProjected | src/projection/ProjectionEngine.cpp:80-93 | Over any run, a column group stays as it is until its own projector writes again. |
| Abandonment.NextCycleRepairs | docs/CQRS_DESIGN.md:35-43 | Whatever a column group shows, the next cycle over a settled topic that skips no event of the group shows its newest columns. |
| Pipeline.PipelineShowsReplay | src/projection/ProjectionEngine.cpp:71-94 | For a log produced by any recorder interleaving, messages half recorded and cut short included, and any earlier projection history, a quiet cycle shows in a table what full replay shows, if the table is safe and its multi-item answers come in id order. |
| Pipeline.RobotsAndOrdersShowReplay | src/projection/ProjectionEngine.cpp:71-94 | For the robots and orders tables it does so for every recording, cut messages included, and every order of the answers. |
| Pipeline.ReplayIffSafe | docs/CQRS_DESIGN.md:146-157 | At every moment, with answers in id order, one cycle shows in a table, from every start, what full replay shows, if and only if the table's topics are safe: single-item, not projected, or with every loss covered. |
| Pipeline.PipelineTimes | src/projection/ProjectionEngine.cpp:54-89 | After a quiet cycle over any recorded log, a robot row has the receive time of its newest factsheet, else of its newest state, else of its newest connection, and one that the cycle inserted was created in the opposite order; an order row has the time of its newest order. |
| Pipeline.SafeIffSettled | src/Vda5050EventRecorder.cpp:87-106 | At every moment of every recording, a topic is settled if and only if it is safe. |
| Pipeline.FedKeyed | src/Vda5050EventRecorder.cpp:9-114 | While the recorder feeds the loop, whatever it cuts short, the log ascends at every moment, its robot ids are composed and its single-item topics are single-item and settled. |
| Pipeline.PipelineCatchesUp | src/projection/ProjectionEngine.cpp:77-93 | A cycle that skips no event of a column group, overtaken by the recorder as it may be, ends with the group showing at least all that was recorded when it began: always for single-item groups, for the others where they are safe. |
| Pipeline.PipelineNeverRegresses | src/projection/ProjectionEngine.cpp:77-93 | `NoRegression` for every log that the recorder produces, cut messages included. |
| Pipeline.PipelineIdentifiesRobots | src/Vda5050EventRecorder.cpp:18-29 | `RobotRowsIdentified` for every log that the recorder produces, cut messages included. |
| Guarantees.NewestMessageShown | src/projection/StateProjector.cpp:12-21 | After a cycle, the row of an item shows field by field the newest message that names it, for each kind of message that is projected. |
| Guarantees.NewestFiledShown | src/projection/ProjectionEngine.cpp:80-89 | After a cycle over a log in which every named key is filed, a row shows what the newest event filed under its key says. |
| Guarantees.NewestAnswerShown | src/projection/ResponsesProjector.cpp:13-24 | A request's status is its last occurrence in the newest message naming it, although older payloads are applied again in the same cycle. |
| Guarantees.RowTimesFromLog | src/db/RobotsRepository.cpp:98-183 | The creation and update times of a row that a run inserted are receive times of events that mention the row. |
| Guarantees.InsertedOrder | src/db/OrdersRepository.cpp:74-110 | Over any run, an order it inserted is queued, without site and not archived. |
| Guarantees.InsertedAction | src/db/InstantActionsRepository.cpp:88-149 | Over any run, an action it inserted has the default management columns and the robot of an event that mentions it; unanswered it waits, and one that only answers name is a zone request. |
| Guarantees.InsertedRobot | src/db/RobotsRepository.cpp:98-183 | Over any run, a robot it inserted is offline until a connection message names it, and shows no state or factsheet before its first. |
| Guarantees.RobotRowsIdentified | src/Vda5050EventRecorder.cpp:18-29 | Over any run, a robot row's key is its manufacturer, a dot and its serial number, and a row the run inserted keeps the default management columns. |
| Guarantees.RobotKeyCollision | src/Vda5050EventRecorder.cpp:23 | Two robots share an id exactly when they are the same or one manufacturer extends the other by a dot and more; never when manufacturers contain no dot. |
| Recorder.FiledNames | src/Vda5050EventRecorder.cpp:37-114 | A filed row parses, and the keys it writes are exactly the items of its message. |
| RecorderRuns.InvClose | src/Vda5050EventRecorder.cpp:97-106 | Whether a message ends or is cut short anywhere, every key that a row names stays accounted for: filed with its message, about to be, or recorded as lost. |
| RecorderRuns.RunInv | src/Vda5050EventRecorder.cpp:37-114 | Over any interleaving of the topics' messages, any of them cut short, every key a row names is filed with its message, about to be, or lost by a cut. |
| RecorderRuns.RecordedLogs | src/Vda5050EventRecorder.cpp:37-114 | At every moment of every recording, the log ascends, its rows parse and name their item, and single-item topics are single-item and settled; so is the actions topic under the name in the code; the log is completely filed when no message is open or was cut short. |
| RecorderRuns.SettledIffLossCovered | src/Vda5050EventRecorder.cpp:87-106 | At every moment of every recording, whatever was cut short, a topic is settled if and only if every lost key that has not been named again is covered. |
| RecorderRuns.UncoveredLossShows | src/Vda5050EventRecorder.cpp:87-106 | An uncovered loss always shows: in id order, the cycle shows of the lost key what was said before the cut message, and not what the log says last. |
| RecorderRuns.RecordedAgainSettles | src/Vda5050EventRecorder.cpp:87-106 | Recovery: a topic is settled once every key it lost is an item of a message of which some later row has been filed. |
| RecorderRuns.UncutIsCoherent | src/Vda5050EventRecorder.cpp:37-114 | Without a cut message the log is coherent at every moment, half-recorded messages included. |
| RecorderRuns.ActionsProjectedIffTopicsAgree | src/Vda5050EventRecorder.cpp:87-96 | In every recording, recorded actions give the read model columns exactly when recorder and projector use one topic name. |
| EventRecorders.NewRecorder | src/Vda5050EventRecorder.cpp:32-35 | A recorder over an empty log, with a codec that round-trips, satisfies the recorder's invariant. |
| EventRecorders.EventRecorder.Attach | src/Vda5050EventRecorder.cpp:37-73 | The recorder's callback joins the four kinds of the local endpoint, once each, and those of the cloud endpoint if there is one that was not joined before. |
| EventRecorders.EventRecorder.AttachCloud | src/Vda5050EventRecorder.cpp:75-113 | However often it is called, the callback joins the cloud endpoint's four kinds once; without a cloud endpoint at construction never. |
| EventRecorders.EventRecorder.Record | src/Vda5050EventRecorder.cpp:37-114 | Whatever kind of message the callback is called for, it appends one row per item, in order, with consecutive ids, up to the first insert that throws; it succeeds exactly if none does, the cut is remembered otherwise, and the invariant is kept either way. |
| EventRecorders.EventRecorder.OnCalls | docs/CQRS_DESIGN.md:115-119 | Among the calls that one accepted message causes, exactly one records; and the rows it files spell the topic that the message came under: the prefix, their manufacturer and serial number, and their topic as its last level. |
| EventRecorders.EventRecorder.InsertEvent | src/Vda5050EventRecorder.cpp:9-30 | Appends exactly one row, with the robot id composed from the topic context; nothing if the insert throws. |
| EventRecorders.EventRecorder.OnState | src/Vda5050EventRecorder.cpp:38-45 | Appends one row, or none if the insert throws: topic `state`, item the robot's id, the message's own header id, version and timestamp, and the whole message as payload; keeps the invariant. |
| EventRecorders.EventRecorder.OnVisualization | src/Vda5050EventRecorder.cpp:46-53 | Appends one row, or none if the insert throws: topic `visualization`, item the robot's id, the message's own header id, version and timestamp, and the whole message as payload; keeps the invariant. |
| EventRecorders.EventRecorder.OnConnection | src/Vda5050EventRecorder.cpp:54-61 | Appends one row, or none if the insert throws: topic `connection`, item the robot's id, the message's own header id, version and timestamp, and the whole message as payload; keeps the invariant. |
| EventRecorders.EventRecorder.OnFactSheet | src/Vda5050EventRecorder.cpp:62-69 | Appends one row, or none if the insert throws: topic `factsheet`, item the robot's id, the message's own header id, version and timestamp, and the whole message as payload; keeps the invariant. |
| EventRecorders.EventRecorder.OnOrder | src/Vda5050EventRecorder.cpp:80-86 | Appends one row, or none if the insert throws: topic `order`, item the order id, the message's own header id, version and timestamp, and the whole message as payload; keeps the invariant. |
| EventRecorders.EventRecorder.OnInstantActions | src/Vda5050EventRecorder.cpp:87-96 | Appends one row per action, in order, up to the first insert that throws, none for an empty message: topic `instantActions`, item the action id, the message's own header, and the whole message as payload. |
| EventRecorders.EventRecorder.OnResponses | src/Vda5050EventRecorder.cpp:97-106 | Appends one row per response, in order, up to the first insert that throws: topic `responses`, item the request id, the message's own header, and the whole message as payload. |
| EventRecorders.EventRecorder.OnZoneSet | src/Vda5050EventRecorder.cpp:107-113 | Appends one row, or none if the insert throws: topic `zoneSet`, item the zone set's id, the message's own header id, version and timestamp, and the whole message as payload; keeps the invariant. |
| Topics.SingleLevelRule | include/syrius_orbit/mqtt/MqttSubscriber.hpp:85-91 | Without multi-level wildcard a filter matches level by level, as section 4.7.1.3 of MQTT 5.0 says. |
| Topics.MultiLevelRule | include/syrius_orbit/mqtt/MqttSubscriber.hpp:85-91 | With a multi-level wildcard at its end a filter matches everything at and below what its other levels match, as section 4.7.1.2 of MQTT 5.0 says. |
| Topics.FilterAndParserAgree | include/syrius_orbit/mqtt/VDA5050Subscriber.hpp:216-244 | For every prefix of two levels: what the parser accepts the filter delivers, with both wildcard levels non-empty and returned as the names; the converse holds unless a prefix level is a wildcard. |
| Topics.AgreeIffNoWildcard | include/syrius_orbit/mqtt/VDA5050Subscriber.hpp:216-244 | Filter and parser agree on all topics with two names if and only if the filter is not a valid one with a wildcard in its prefix. |
| Topics.PrintThenParse | include/syrius_orbit/mqtt/VDA5050Publisher.hpp:70-81 | A built topic parses back to its context exactly when the two names contain no slash. |
| Topics.ParseThenPrint | include/syrius_orbit/mqtt/VDA5050Publisher.hpp:70-81 | Every accepted topic rebuilds to itself. |
| EndPoints.OneHandler | include/syrius_orbit/mqtt/MqttSubscriber.hpp:81-102 | A message reaches the callbacks of exactly one kind, each once and in order, or none at all. |
| EndPoints.OwnCalls | include/syrius_orbit/mqtt/VDA5050Subscriber.hpp:216-283 | An endpoint's own subscriptions cause, for any topic, exactly the calls that its parser allows. |
| EndPoints.OnlyLiveIffNoOthers | include/syrius_orbit/mqtt/MqttSubscriber.hpp:81-106 | Every handler that any message can reach belongs to the live endpoint if and only if all entries of the client's list do. |
| EndPoints.MqttClient.Subscribe | include/syrius_orbit/mqtt/MqttSubscriber.hpp:32-45 | A subscription that the library takes is appended to the client's list; one that it refuses leaves the list as it was. |
| EndPoints.MqttClient.HandleMessage | include/syrius_orbit/mqtt/MqttSubscriber.hpp:62-103 | Reports a stray exactly when the message reaches a handler of an endpoint that is gone; otherwise makes exactly the calls of the matching entries, in order. |
| EndPoints.MqttClient.CallHandlers | include/syrius_orbit/mqtt/TypedSubscriber.hpp:37-85 | For each matching entry, a payload that decodes is handled and one that does not is dropped. |
| EndPoints.EndPoint.Init | include/syrius_orbit/mqtt/VDA5050EndPoint.hpp:35-49 | Subscribes to the kinds of its side in order, up to the first refusal; succeeds exactly if it is not stopped, its prefix has two names, and every kind is granted with a valid filter, and then the broker has got the side's four filters, spelled out; what was subscribed stays with the client. |
| EndPoints.EndPoint.On | include/syrius_orbit/mqtt/VDA5050EndPoint.hpp:56-102 | Registers a callback, last in its list, exactly for a kind of its side and before stop; else nothing changes. |
| EndPoints.EndPoint.Publish | include/syrius_orbit/mqtt/VDA5050EndPoint.hpp:104-150 | Publishes on the topic spelled from the five names exactly for a kind of the other side, before stop, with all names non-empty, when the client takes it; else nothing is sent. |
| EndPoints.EndPoint.Stop | include/syrius_orbit/mqtt/VDA5050EndPoint.hpp:51-54 | Stops both directions and drops every callback. |
| EndPoints.EndPoint.Dispatch | include/syrius_orbit/mqtt/VDA5050Subscriber.hpp:262-283 | Runs every callback of the snapshot once, in order, whichever of them throw; none if stopped or the topic does not parse. |
| EndPoints.EndPoint.Handle | include/syrius_orbit/mqtt/VDA5050Subscriber.hpp:285-292 | Dispatches to a snapshot of the callbacks of the one kind. |
| Forwarding.ForwardedOnce | src/VDA5050Proxy.cpp:207-268 | Whatever the prefixes of the two endpoints, an accepted message is published on the other broker under the same topic, decoded and encoded again, and the endpoint there does not accept it: no echo. |
| Forwarding.BridgeTable | src/VDA5050Proxy.cpp:207-268 | Topic by topic, for every robot: state, visualization, connection and factsheet are carried from the local to the cloud broker, order, instantActions, responses and zoneSet the other way, each under its own topic, and none back. |
| Forwarding.Conservation | src/VDA5050Proxy.cpp:207-268 | At any moment of any traffic, the forwarded messages, those refused by a client and those still due are together exactly the images of the injected ones. |
| Forwarding.QuiescentExactlyOnce | src/VDA5050Proxy.cpp:207-268 | When nothing is in flight, every accepted message has been forwarded (or refused) exactly once, and nothing else was published. |
| Forwarding.DeliveryDecreases | src/VDA5050Proxy.cpp:207-268 | Each delivery lowers the number of deliveries still possible. |
| Forwarding.ForwardingQuiesces | src/VDA5050Proxy.cpp:207-268 | Once injection stops, at most two deliveries follow per message in flight, in whatever order. |
| Proxy.VDA5050Proxy.Init | src/VDA5050Proxy.cpp:8-12 | Stores the configuration and keeps the class invariant. |
| Proxy.VDA5050Proxy.Start | src/VDA5050Proxy.cpp:14-125 | From not running, starts exactly when initialised, the prefix is two non-empty levels, the library, the clients' configuration, the local connection and loop succeed, and every local kind is granted with a valid filter. It subscribes exactly when the stages before do; a failure at any stage restores the stopped state with library inits and cleanups balanced, but leaves with the client what was subscribed; starting a running proxy changes nothing. |
| Proxy.VDA5050Proxy.Open | src/VDA5050Proxy.cpp:52-59 | A new endpoint appends its subscriptions to its client's list and is live exactly if none was refused. |
| Proxy.VDA5050Proxy.OnCloudConnect | src/VDA5050Proxy.cpp:70-103 | Bridges a new cloud endpoint exactly if there is none, the proxy runs and nothing is refused; reconnects and failures register no callback, and a failed setup leaves with the client what it subscribed to. |
| Proxy.VDA5050Proxy.Stop | src/VDA5050Proxy.cpp:127-145 | From any stage of start, restores the stopped state: endpoints stopped and gone, inits equal cleanups; the clients keep their subscriptions. |
| Proxy.VDA5050Proxy.OnlyLiveIffFirst | src/VDA5050Proxy.cpp:52-86 | Every handler that any message can reach belongs to the live endpoint if and only if no earlier endpoint ever subscribed through the same client. |
| Proxy.Restart | src/VDA5050Proxy.cpp:14-145 | After init, start, stop and start, for each subscription of the live endpoint the client still has the same one of the endpoint before it, so some message reaches a stray handler. |
| Proxy.VDA5050Proxy.SetupBridge | src/VDA5050Proxy.cpp:203-237 | With both endpoints present, each bridge callback is registered exactly once; with one missing, nothing changes. |
| Proxy.VDA5050Proxy.Register | src/VDA5050Proxy.cpp:207-268 | The bridge callback of every kind of a side goes from not registered to registered once. |
| Proxy.VDA5050Proxy.Deliver | src/VDA5050Proxy.cpp:207-268 | Whatever the two prefixes, a message that reaches no stray handler makes the other endpoint publish exactly what `Forward` says, once, although other callbacks are registered and any of them throw; a stray is reported exactly when one is reached. |
| DispatchRuns.EachOnceInOrder | include/syrius_orbit/mqtt/VDA5050Subscriber.hpp:262-292 | In every interleaving, a dispatch has run a prefix of the snapshot it copied, and all of it once it has left its loop. |
| DispatchRuns.CopiesRegistered | include/syrius_orbit/mqtt/VDA5050Subscriber.hpp:285-292 | The snapshot is what was registered when it was copied. |
| DispatchRuns.NothingNewAfterStop | include/syrius_orbit/mqtt/VDA5050Subscriber.hpp:202-213 | A dispatch that had not passed its check when stop set the flag runs no callback afterwards. |
| DispatchRuns.CheckAfterStop | include/syrius_orbit/mqtt/VDA5050Subscriber.hpp:268-269 | A dispatch that checks the flag after stop set it runs nothing at all. |
| DispatchRuns.StaysEmptyIffNoneRegistering | include/syrius_orbit/mqtt/VDA5050Subscriber.hpp:62-213 | In every run, the list stays empty after stop, whatever follows, if and only if no registration had passed its check without reaching the list. |
| Migrations.SchemaMigrator.Migrate | src/SchemaMigrator.cpp:19-58 | One call, with any transaction failing, leaves the outcome and database whose meaning `OneCall` states. |
| Migrations.OneCall | src/SchemaMigrator.cpp:27-57 | A call commits a prefix of the pending scripts in order; it returns normally, with their number, exactly when it committed all, and exactly when no pending script's transaction fails. |
| Migrations.PrefixAcrossRetries | src/SchemaMigrator.cpp:19-58 | Across any sequence of failing calls, what is committed is a prefix of the scripts pending at the start, each once and in order. |
| Migrations.NeverUndone | src/SchemaMigrator.cpp:32-49 | No call undoes what an earlier one committed. |
| Migrations.AfterSuccess | src/SchemaMigrator.cpp:19-58 | The first normal return leaves all scripts applied; every later call returns 0 and changes nothing. |
| Migrations.AppliedIffDistinct | src/SchemaMigrator.cpp:27-50 | Some sequence of calls applies every script exactly once and in order if and only if versions are distinct. |
| Pruning.Document.PruneTopLevelFields | include/syrius_orbit/mqtt/TypedPublisher.hpp:49-62 | The erase loop equals an order-preserving filter; a value that is no object is left alone. |
| Pruning.KeptMembers | include/syrius_orbit/mqtt/TypedPublisher.hpp:53-61 | The filter keeps exactly the members that are neither null nor an empty array. |
| Pruning.KeptConcat | include/syrius_orbit/mqtt/TypedPublisher.hpp:49-62 | What stays of a list is what stays of its parts in their order; of a single member, nothing if it is null or an empty array, else the member. |
| Pruning.PruneKeepsMeaning | include/syrius_orbit/mqtt/TypedPublisher.hpp:26-28 | Decoding a pruned encoding returns the message with empty optional arrays made absent; an unpruned one returns it unchanged. |
| Pruning.DecodeLaw | include/syrius_orbit/mqtt/TypedSubscriber.hpp:55-61 | On any members, decoding succeeds if and only if each one that is present fits its field; a missing field is absent if optional, an empty vector, or the declared default, and a present one is what it holds. |
| Pruning.MissingMemberDecodes | include/syrius_orbit/vda5050_schemas/Order.hpp:104-120 | Leaving a member out never makes decoding fail and changes no field but its own, which takes its default. |
| Pruning.DocumentLaw | include/syrius_orbit/mqtt/TypedSubscriber.hpp:55-61 | A text is decoded if and only if it is null, which is read as a message of defaults, or an object whose members fit. |
| Pruning.SurvivesUnchangedIff | include/syrius_orbit/mqtt/TypedPublisher.hpp:49-62 | A message survives publishing unchanged exactly when no optional array is present but empty. |
| Pruning.HopsStable | include/syrius_orbit/mqtt/TypedPublisher.hpp:49-62 | After the first hop, further hops change neither the text nor the message. |
| Pruning.LengthsRoundTrip | include/syrius_orbit/vda5050_schemas/FactSheet.hpp:159-212 | The nested array-lengths codec returns what was written, and writes null exactly when every length is absent. |

## Left out

- Refinement.LatestOnlyRefinesReplay: does not cover the update time, which comes from the topic processed last, nor insert-only columns, which depend on when the first cycle ran; `CycleIdempotent`, `PipelineTimes`, `ActionTimes` and `InsertOnlyFrozen` say what they are. The robot of an action row that only responses ever wrote is excluded for the same reason.
- Interleaving.RestartSafe: has the same exclusions. The document promises it for every log; for the robots and orders tables the code keeps it for every recorded log (`RobotsAndOrdersShowReplay`), for the instant actions table exactly under the conditions in `ReplayIffSafe` and `AnyOrderIffNoStale`.
- Engine.ProjectionEngine.RunCycle: runs over an unchanging log; inserts between its queries are covered move by move in `Interleaving`, `Freshness` and `Throughout`.
- Proxy.VDA5050Proxy.Deliver: promises nothing when a handler of an endpoint that is gone is reached, because what it does is undefined.
- Proxy.VDA5050Proxy.OnCloudConnect: takes each callback as one step; a stop that races with it is not modelled.
- EndPoints.EndPoint.On: stands for the eight registration methods, with the kind as a parameter; so do `Publish`, `Handle` and `Dispatch` for their overloads, `EndPoint.Init` for the chain of subscriptions of a side and `Proxy.VDA5050Proxy.Register` for its chain of registrations.
- EndPoints.MqttClient.Subscribe: the broker's own list of subscriptions is not modelled; a message arrives at a client whatever was subscribed.
- Topics.FilterAndParserAgree: topics that begin with a dollar sign, for which MQTT has a further rule, are not singled out.
- DispatchRuns.NothingNewAfterStop: the stopped flag is sequentially consistent in the model; the code uses relaxed atomics and reads the flag outside the lock, so a thread may see it later than the model says.
- Forwarding.Conservation: takes both endpoints as live and free of strays, and their prefixes as fixed while the traffic lasts.
- Pruning.DecodeLaw: which values a scalar, a struct or an element of a vector can be read from is given with each field, and a value that is read stands for itself.
- Pruning.LengthsRoundTrip: the nineteen key names enter as any distinct keys.
- JSON text: parsing and printing are arbitrary functions; parsing may fail on any text, and theorems about recorded logs assume that parsing a dumped message returns it.
- Message types keep the fields that recorder and projectors read; integers are unbounded and battery levels are the decimal texts that stand for them.
- RecorderRuns.RunInv: a recording begins with an empty table. The end of a process cuts its open messages short; the next process goes on in the same recording.
- The clock is a function from row id to receive time; nothing is assumed about it.
- Mosquitto, SQLite, the HTTP library and logging: each call that may fail takes its answer as a parameter; a failure inside a projection cycle is a skipped event or an abandoned cycle.
- Threads, sleeping, and the running flag of the projection engine: a run may stop and restart anywhere instead.
- The public members that read or replace whole rows (find, list, full upsert) and the maps table, which no projector writes.
- The daemon's main program, fleet gateway, spatial service, configuration overrides and web interface.
- Retention of old events is described in the design but not implemented, so rows are never deleted.
- Guards against a null topic or a negative payload length, which the MQTT library does not produce.
