# A verified model of the dispatcher pipeline

The dispatcher takes dashboard requests from a Redis stream (or a Kafka topic), screens and
enriches them, runs a page strategy that puts a widget message on a bounded queue, and has a
worker goroutine send that message to one sink: an output stream or topic, the live service, or
the buffer hash of the backend Redis. Requests with `stream_tech` API also put a completion
marker behind their widget. Workers count the markers in the buffer hash and write the status
BUFFERED once the count reaches the total the publisher left in `__meta__`.

This project models that pipeline in Dafny and proves what holds over all of its runs.

## How the model is built

* **The code, one goroutine at a time.** `Messages`, `Events`, `Admission`, `Controller`,
  `Strategies`, `RedisBackend`, `RedisBroker`, `Dispatcher`, `Consumer` and the class of `Kafka`
  follow the source files; `Rounds` says what it means that a loop takes one item a round. What the program updates in place (event data, registry, group and
  streams, buffer hash and status, queue, reader position) are fields of classes. How a command
  ends, which case a select takes and what the clock says are parameters. A command ends in one of
  three ways: `Ok`, `Error` (not applied) and `Lost` (applied, but the caller sees an error).
* **The cluster.** `Cluster` is a machine over atomic steps: any number of processes share one
  consumer group and one backend Redis, each with its own consumer goroutine, worker goroutine and
  queue of 1000 places. Every Redis command, channel operation and local decision is one step. The
  environment appends requests, writes `__meta__`, expires buffers and statuses at any moment,
  fires per-message timeouts, shuts processes down, crashes and starts them.
  `ClusterInvariant`, `OpHistory` and `Effects` hold the invariants.
* **Results over all runs.** `Completion`, `CompletionReached`, `Publisher`, `Contents`, `LastWrite`,
  `Markers` and `Regression` treat the completion protocol; `Delivery`, `Stranding`, `Accounting` and
  `SinkOrder` treat what happens to entries and items; `Progress` treats termination. `Kafka` has its own machine for one
  partition; `KafkaCompletion` and `KafkaReplay` take the completion protocol behind it, the two
  machines running side by side.
* **The link.** `Refinement` and `LoopRefinement` show that the sequential code is a run of the machine:
  ProcessMessage, the handling of one item, the completion check, the handling of one delivered
  entry, each round of the read loop and the whole of it, each turn of the worker's loop, and rounds
  and turns of a process in any order, all while every other process rests. What is proved of every
  run holds of these.

The model keeps what the code does where that differs from its comments or its likely intent, and says
precisely what follows:

* `RegisterStubStrategies` is documented to give every event a handler. Two pages of the
  engagements table, `EngagementsProfileDataPage` and `EngagementsSlasPage`, have none, whatever
  product and alert name come with them (`Strategies.RoutingIsTotal`), and alerts are registered under `Alerts|a` but looked up under
  `Alerts|a|a` (`Strategies.AlertsRouting`).
* With the output override on, API data goes to the hash of the override key while the marker is
  counted under the original key; the placeholder for a missing strategy carries no `stream_tech`
  and never reaches a buffer (`CompletionReached.SameHashIff`).
* PROCESSING can be written after BUFFERED when more requests than the total arrive
  (`Regression.RegressionIff` gives the exact bound).
* Nothing claims pending entries although a minimum idle time is configured
  (internal/config/config.go:135), so an entry whose delivery is lost or whose process dies is lost
  (`Stranding.StrandedRun`); every other delivered entry can still be finished
  (`Stranding.FinishableIff`).
* A name with `|` in it can be taken for a product and a page (`Controller.KeyIsSharedIff`,
  `Controller.RegistryRefinesIff`).
* Two requests under one routing key that ask for the same page write the same field, and the second
  destroys the first one's data unless nothing tells them apart (`Contents.DataSurvivesIff`).
* Behind Kafka a replayed request is announced and counted again. With n requests in the log and at
  most c crashes PROCESSING can follow BUFFERED if and only if n * (c + 1) exceeds max(total, 1)
  (`KafkaReplay.ReplayRegressionIff`); one request, one crash and total 1 are enough
  (`KafkaReplay.ReplayRegresses`).

## Model

| member | source | states |
|---|---|---|
| Completion.NoStatusRegression | internal/consumer/consumer.go:183-205 | over every run, with any processes, crashes, expiries and lost replies: once BUFFERED was written for a routing key against a total, no step writes PROCESSING for it while at most max(total, 1) requests for it are deliverable |
| Completion.BufferedStays | internal/consumer/consumer.go:183-205 | under the same bound the status cell, from the write of BUFFERED on, reads BUFFERED or is gone |
| Completion.StatusWrites | internal/redis/backend.go:82 | a step that writes BUFFERED leaves the text BUFFERED_EVENT_IN_GO_DISPATCHER_TO_REDIS in the status cell, one that writes PROCESSING leaves PROCESSING_EVENT_IN_PUBLISHER_CONTROLLER |
| Completion.NeverProcessingAgain | internal/consumer/consumer.go:183-205 | under the same bound no later state of the run shows the second text in the status cell |
| Completion.OnlyAnnouncementsShowProcessing | internal/consumer/consumer.go:184-187 | the status cell comes to show the second text only by the announcement of a request |
| RedisBackend.StatusTexts | internal/redis/backend.go:82 | the two texts, and that they differ |
| Regression.RegressionIff | internal/consumer/consumer.go:183-205 | the exact condition: a run with n requests in which PROCESSING follows BUFFERED exists if and only if n > max(total, 1) |
| Regression.RegressionBeyondBound | internal/consumer/consumer.go:117-208 | builds such a run for every total and every larger n, with one process and no fault |
| Completion.DrawsAreExact | internal/redis/backend.go:61-66 | in every reachable state the counter cell is the number of increments since the hash was created, and the numbers drawn in that time are exactly 1 to the counter, each once |
| Completion.NoPrematureCompletion | internal/redis/backend.go:61-87 | when BUFFERED is written, at least max(total, 1) different requests of that key had been counted, the writer's own among them |
| Completion.EveryNumberIsDrawn | internal/redis/backend.go:61-66 | every number up to the current count was drawn by some increment in the current life of the hash |
| Completion.LaterDrawsAreLarger | internal/redis/backend.go:61-66 | within one life of the hash a later draw is strictly larger |
| Completion.CountIsBacked | internal/redis/backend.go:61-66 | the count never exceeds the number of different requests counted, and equals it without expiry |
| CompletionReached.NoMissedCompletion | internal/redis/backend.go:67-86 | the worker that drew the total and finished its check writes BUFFERED if `__meta__` said the total when it looked, whatever other workers did in between |
| CompletionReached.CompletionIfSeen | internal/dispatcher/worker.go:46-72 | when all queues are drained without a Redis error, the hash never expired, at least `total` requests got their markers sent and the drawer of `total` saw it in `__meta__`, BUFFERED has been written |
| Publisher.CompletionIsReached | internal/redis/backend.go:61-87 | that the total is seen follows from the publisher: if it writes `total` before anything is counted under the key, and never another value, then under the other conditions BUFFERED has been written by the worker that drew `total` |
| Publisher.GuardAlways | internal/redis/backend.go:67-79 | from the publisher's write on, `__meta__` is there and holds the total, and whoever looked saw it |
| CompletionReached.DataBeforeCompletion | internal/dispatcher/worker.go:60-96 | every counted request had its own widget handled, by the worker of its own process, directly before its marker |
| CompletionReached.SameHashIff | internal/dispatcher/worker.go:66-96 | the widget goes to the hash its marker is counted in if and only if a strategy answered and no override changes the key |
| Contents.CountedDataIsStored | internal/redis/backend.go:43-58 | while the hash never expired, a counted request whose write was applied has its field in that hash; the field holds the payload of a handled widget written to it, and the request's own unless another widget was written to it |
| Contents.ContentsAlways | internal/redis/backend.go:43-66 | at every point of every run each data field of every hash holds the payload of a handled widget that was written to it |
| Contents.DataSurvivesIff | internal/strategies/stub.go:14-33 | of two stored widgets the second leaves the first one's data in place if and only if their effective keys or their pages differ, or they agree in routing key and queue name |
| LastWrite.FieldsHoldTheLastWrite | internal/redis/backend.go:43-58 | at every point of every run each data field holds exactly the payload of the last widget stored in it since its hash was created, and a field in which nothing was stored since is absent |
| LastWrite.OwnDataUntilOverwritten | internal/redis/backend.go:43-58 | the applied write of a request is in the backend's history, and its own payload is in the field as long as nothing was stored over it and the hash was not dropped |
| OpHistory.StoredFieldsAreSafe | internal/strategies/stub.go:14-33 | no page name makes a strategy or the placeholder write to `__processed_count__` or `__meta__` |
| OpHistory.InvStep | internal/consumer/consumer.go:61-208 | every step of any process or of the environment keeps the invariant: FIFO and item rules of each process, the group and its owners, fates, counter, draws and BUFFERED history |
| OpHistory.InvAlways | cmd/consumer/main.go:58-83 | the invariant holds at every point of every run |
| ClusterInvariant.SendKeeps | internal/consumer/consumer.go:188-205 | sending the widget, or the marker behind it, keeps the history of a process well-formed: one widget per request, the marker right behind its own widget |
| ClusterInvariant.LastSrcIsLargest | internal/consumer/consumer.go:72-114 | requests appear in the history of a process in stream order, a repeated one only as widget and marker |
| OpHistory.HandMarkerIsUncounted | internal/dispatcher/worker.go:66-72 | no request is counted a second time: a marker still in the hand belongs to a request nobody counted |
| Delivery.AtMostOnce | internal/redis/broker.go:38-78 | no stream entry is processed twice, by whatever processes, in any run with crashes, restarts and failed acknowledgements |
| Delivery.StrandedForever | internal/redis/broker.go:49-78 | an entry whose delivery was lost or whose process died before acknowledging is never run to an end |
| Stranding.StrandedRun | internal/consumer/consumer.go:76-114 | such an entry exists: a run of five steps, for every entry, ends with it stranded |
| Stranding.FinishableIff | internal/redis/broker.go:49-78 | after any run a delivered entry can still be brought to its end, by some continuation, if and only if it is not stranded |
| Stranding.Finish | internal/consumer/consumer.go:90-114 | a living holder, by its own steps alone, brings its entry to its end and acknowledges it |
| Stranding.UnackedForever | internal/redis/broker.go:75-78 | an entry that reached its end but whose XACK did not take effect stays pending for good |
| Stranding.AckableIff | internal/redis/broker.go:49-78 | a pending entry can still be acknowledged, by some continuation, if and only if a living process holds it, that is, if it is neither stranded nor left by a failed XACK |
| Delivery.BoundedFifo | internal/dispatcher/worker.go:46-58 | at every moment what was sent is what was handled, what is in the worker's hand and what waits, in this order, and at most 1000 items wait |
| Delivery.ItemConservation | internal/consumer/consumer.go:188-207 | a skipped, forwarded or dead-lettered entry leaves no item anywhere; a processed one leaves exactly one widget in its own process, and exactly one marker or none, as its fate says; a marker is the one of its own routing key, and only a request with stream_tech API and a routing key has one |
| Markers.UnmarkedGaveUp | internal/consumer/consumer.go:195-205 | over every run: if an entry is through without a marker although its request has stream_tech API and a routing key, some earlier step was the select on its marker giving up because its context was done |
| Accounting.FateConservation | internal/consumer/consumer.go:76-114 | appended since the group's creation = undelivered + unseen + in flight + orphaned + skipped + forwarded + processed + dead-lettered |
| Accounting.PendingOrAcked | internal/redis/broker.go:49-78 | a delivered entry is pending or acknowledged, never both; the pending ones without a fate are exactly the in-flight, orphaned and unseen ones |
| Accounting.CleanPending | internal/consumer/consumer.go:76-114 | without faults or shutdown exactly the in-flight entries are pending, at most one per process |
| Progress.SomeStepIsEnabled | internal/consumer/consumer.go:195-207 | while a living process holds an entry its own consumer or worker can move, full queue or not |
| Progress.OwnStepsArePaid | internal/dispatcher/worker.go:46-58 | every own step of a process that holds an entry lowers a measure that no other step raises |
| Progress.EntryIsFinished | internal/consumer/consumer.go:76-114 | a process that holds an entry and takes 4029 steps of its own, in any interleaving, has brought it to its end |
| Effects.PerSinkOrder | internal/dispatcher/worker.go:60-111 | what one process has in an output stream, topic or at the live service is exactly the order-preserving selection of its handled items by effective sink |
| SinkOrder.LogsByFields | internal/dispatcher/worker.go:60-119 | the same by the fields of the messages alone: what a process has in a log is the ordered selection of what it sent and was applied. The live service gets the SSE widgets if it is configured, a topic key the widgets that are neither SSE nor API if Kafka is on for output, a stream the rest, each by the overridden routing key |
| SinkOrder.SendingsAreHandled | internal/dispatcher/worker.go:46-72 | what a process sent are the items it handled, markers left out, in the same order |
| SinkOrder.SinkTable | internal/dispatcher/worker.go:60-111 | the place of every item by the fields of its message and the settings, in both directions |
| Effects.EffectsAlways | internal/dispatcher/worker.go:60-111 | at every point of every run: output logs match the handled histories, stored fields are still there unless the hash expired, and a completed check left its draw, its look and its BUFFERED |
| Dispatcher.OverrideIsIdempotent | internal/redis/broker.go:90-95 | overriding in the worker and again in the stream name is overriding once |
| Dispatcher.RoutedAppend | internal/dispatcher/worker.go:60-111 | handling one more item extends the log of its own sink and no other |
| Dispatcher.Worker.HandleItem | internal/dispatcher/worker.go:60-119 | logs, buffer hash and status after one item, by the fields of its message: an SSE widget extends the live-service log if there is a service, an API widget sets one hash field, any other extends the topic or stream of its overridden routing key, each if the write was applied; a marker adds one to the count and writes BUFFERED when it reaches the total; nothing else changes |
| Dispatcher.Worker.Run | internal/dispatcher/worker.go:46-58 | over any turns, with items arriving between them, item n is taken from the front in turn `given[n]` and meets the commands of that turn; a turn that finds an item takes one; the store and every log end as the handled items, in order, make them |
| Dispatcher.BeltConserves | internal/dispatcher/worker.go:46-58 | handled items and queue are, in order, what was there and what arrived; each item meets the commands of its own turn; while enough items wait turn n takes item n |
| Rounds.EveryRoundTakes | internal/dispatcher/worker.go:46-58 | of the loops that take what they find: with an item for every round and every round open, each round takes exactly one |
| RedisBackend.KeysNeverCollide | internal/redis/backend.go:43-46 | buffer and status keys of different routing keys, and of the two kinds, are different |
| RedisBackend.CheckAloneFacts | internal/redis/backend.go:60-87 | undisturbed, the check adds one to the counter, sets BUFFERED exactly when the total is reached, and keeps every other field, key and status |
| RedisBackend.BackendRedis.IncrementAndCheckCompletion | internal/redis/backend.go:61-87 | for every way each command can end: the field `__processed_count__` goes up by one, the status reads BUFFERED_EVENT_IN_GO_DISPATCHER_TO_REDIS if and only if the new count reaches the total in `__meta__` and the commands got that far, and every other key, field and status is kept; it reports success exactly when none of the commands needed failed |
| RedisBackend.BackendRedis.StoreDataInRedis | internal/redis/backend.go:44-58 | writes the one field of the message, named `payload` if the message has no name, and keeps the rest |
| RedisBackend.BackendRedis.UpdateEventStatus | internal/redis/backend.go:90-93 | sets the one status and keeps the rest |
| RedisBroker.Broker.EnsureConsumerGroup | internal/redis/broker.go:38-47 | creates the group at the asked position, by default the end of the stream; an existing group keeps its cursor and its pending entries |
| RedisBroker.Broker.ReadGroup | internal/redis/broker.go:50-73 | returns at most one entry, never delivered before, pending from now on |
| RedisBroker.Broker.Ack | internal/redis/broker.go:76-78 | moves a pending entry to the acknowledged ones and does nothing else |
| RedisBroker.Broker.AddToStream | internal/redis/broker.go:81-87 | appends to the end of one stream and to no other |
| Consumer.Consumer.Screen | internal/consumer/consumer.go:119-177 | the checks, with the merge and the enrichment in place, give the verdict of `Judge` and leave the event data it names |
| Consumer.Consumer.ProcessMessage | internal/consumer/consumer.go:119-208 | for every clock, command end and select case: verdict, reason, event data, items sent and backend; a message that runs is announced, if the command is applied, and marked, if the select fires, exactly when its enriched data have stream_tech API and a routing key |
| Consumer.Consumer.RunAdmitted | internal/consumer/consumer.go:179-207 | status, items and reason by the fields of the event data: the PROCESSING text for API requests with a routing key, one widget unless the context ends first, then the marker under the same condition |
| Consumer.Consumer.DeadLetterEntry | internal/consumer/consumer.go:210-223 | the record goes to the dead-letter stream with the message as mutated so far, and the entry is acknowledged whatever came of it |
| Consumer.Consumer.HandleEntry | internal/consumer/consumer.go:90-113 | one delivered entry, from decoding to acknowledgement |
| Consumer.Consumer.Run | internal/consumer/consumer.go:63-115 | over any rounds, with requests appended between them: entry `first + n` is delivered in round `given[n]`, in stream order, as soon as a read is applied; it ends acknowledged if it was read and that round's XACK was applied, else pending, and no other entry moves; with all replies well, exactly the entries from the first to the cursor are acknowledged; what was sent, buried and announced is what handling the entries read, in order, does |
| Consumer.Consumer.RunRound | internal/consumer/consumer.go:76-114 | one round: the entry at the cursor, if there is one and the read is applied, is delivered, handled and acknowledged as the commands end |
| Consumer.SentOrBuried | internal/consumer/consumer.go:108-113 | an entry is sent or buried, never both, and which one is decided by its verdict and selects; items, status text and dead-letter record of each case |
| Consumer.HandledNext | internal/consumer/consumer.go:72-114 | one more round keeps all that is known of the rounds before: which entries were delivered when, what became of each, and what was sent |
| Consumer.SettledNext | internal/consumer/consumer.go:102-114 | a delivered entry joins the acknowledged ones if its round read it and the XACK was applied, else the pending ones |
| Consumer.AllAcknowledged | internal/consumer/consumer.go:102-114 | when every read and XACK ends well the delivered entries are exactly acknowledged and none stays pending |
| Rounds.GreedyNext | internal/consumer/consumer.go:72-80 | one more round of a loop takes the next item if it is there and the round is open, and only then |
| Refinement.ProcessMessageIsARun | internal/consumer/consumer.go:119-208 | every call of ProcessMessage is a sequence of machine steps with the same pushes, status write and verdict; the queue needs room for what the call sends and no more; other processes, stream, group and histories stay as they were |
| Refinement.HandleItemIsARun | internal/dispatcher/worker.go:60-111 | handling one item without interruption is a sequence of machine steps with the same effect on the backend and on every log, while every other process rests |
| Refinement.CheckIsARun | internal/redis/backend.go:61-87 | so is one completion check |
| LoopRefinement.HandleEntryIsARun | internal/consumer/consumer.go:90-113 | so is one delivered entry, from decoding over the dead letter to the acknowledgement, with the fate recorded for it; every other process rests |
| LoopRefinement.RoundIsARun | internal/consumer/consumer.go:76-114 | so is each round of the read loop, from any reachable state: same stream, group, dead letters, statuses and items; the entry it read is owned by its process and has its fate, and every other process rests |
| LoopRefinement.RunIsARun | internal/consumer/consumer.go:63-115 | so is Consumer.Run, from the creation of the group to the last round |
| LoopRefinement.TurnIsARun | internal/dispatcher/worker.go:51-55 | so is each turn of the worker's loop |
| LoopRefinement.WorksAreARun | cmd/consumer/main.go:77-82 | so are rounds and turns of one process in any order, each round needing room only for what it sends then: same stream, group, statuses, buffers, dead letters, items and logs, while every other process rests |
| LoopRefinement.DrainIsARun | internal/dispatcher/worker.go:46-58 | so is any number of turns, with the code's store and logs |
| Kafka.AtLeastOnce | internal/kafka/client.go:138-167 | every offset below the committed one was no JSON or was handed to `process`, which returned; the committed offset never passes the fetch position and never goes back |
| Kafka.CommittedIsNotReplayed | internal/kafka/client.go:138-167 | no offset below a once committed one is ever processed again |
| Kafka.OwnerIsInOrder | internal/kafka/client.go:138-167 | one owner processes offsets in increasing order, and everything between two of them was dealt with |
| Kafka.DuplicatesNeedACrash | internal/kafka/client.go:159-165 | an offset is processed twice only if its owner crashed in between, before the commit took effect |
| KafkaReplay.ReplayRegressionIff | internal/kafka/client.go:138-167 | the exact condition behind Kafka: an execution with n requests for the key in the log and at most c crashes, in which PROCESSING follows BUFFERED, exists if and only if n * (c + 1) > max(total, 1); in an execution the cluster's stream is at every moment what has been delivered until then, and crashes come together |
| KafkaReplay.RegressionByReplay | internal/kafka/client.go:159-165 | builds such an execution, owner after owner, whenever enough owners deliver more than max(total, 1) times |
| KafkaReplay.ReplayRegresses | internal/kafka/client.go:159-165 | the smallest one: one request, total 1; its owner dies between the return of `process` and the commit, only then it is delivered again, and PROCESSING is written after BUFFERED |
| KafkaCompletion.RegressionExceeds | internal/kafka/client.go:138-167 | no execution regresses unless the requests in the log, times the owners, exceed max(total, 1) |
| KafkaCompletion.RequestsAreInLog | internal/kafka/client.go:138-167 | every owner hands an offset to `process` at most once, so there are at most n * (c + 1) deliverable requests |
| KafkaCompletion.NoRegressionWithoutCrash | internal/kafka/client.go:138-167 | the case without crashes: PROCESSING does not follow BUFFERED if at most max(total, 1) requests for the key are in the log |
| KafkaCompletion.DeliveriesInOrder | internal/kafka/client.go:138-167 | deliveries increase strictly, first by owner and then by offset, and those of the current owner lie before its position |
| Kafka.ReplayableIff | internal/kafka/client.go:138-167 | after any run, an offset on which `process` returned can be handed to it again, by some continuation, if and only if it is not yet committed |
| Kafka.DuplicateRun | internal/kafka/client.go:159-165 | such a duplicate does happen, for every message |
| Kafka.Client.RunConsumer | internal/kafka/client.go:138-167 | over any rounds, with values produced between them: offset `first + n` is fetched in round `given[n]`, whenever a fetch succeeds and there is one; the committed offset is one past the last of them whose commit was applied, whatever `process` returned, and the fetch position if all were; the DLQ gets exactly the messages that `process` did not take and whose record was applied, by offset and with the reason |
| Kafka.FollowedNext | internal/kafka/client.go:138-167 | one more round keeps what is known of log, position, committed offset and DLQ |
| Kafka.AllCommitted | internal/kafka/client.go:159-165 | when the commit of every fetched value is applied the committed offset is the fetch position |
| Kafka.LoopLeads | internal/kafka/client.go:138-167 | whatever the loop does is a run of the partition machine |
| Controller.StrategyKeyIsInjective | internal/controller/controller.go:51-59 | on names without `\|` the three-shaped flat key tells all triples apart |
| Controller.KeysWithBarsCollide | internal/controller/controller.go:51-59 | two families of colliding triples: a bar in a name read as a separator |
| Controller.KeyIsSharedIff | internal/controller/controller.go:51-59 | exactly when: another triple has the same key if and only if a bar stands behind the first character of the key |
| Controller.RegistryRefinesIff | internal/controller/controller.go:27-49 | for any registrations and any lookup, bars included: the answer is that of the map on triples if the key the lookup ends at was last registered by its own triple or by none, and only then when different triples have different strategies |
| Controller.LookupIsOfLast | internal/controller/controller.go:34-49 | for any names: the answer is the strategy of the triple last registered under the exact key, else under the bare page, else none |
| Controller.RegistryRefinesTripleMap | internal/controller/controller.go:27-49 | unless another registered triple shares one of the two keys looked up, a lookup is answered as a map on triples with fallback to the bare page would |
| Controller.BarFreeKeysAreOwn | internal/controller/controller.go:51-59 | among names without `\|` no key is shared |
| Controller.Registry.Register | internal/controller/controller.go:27-32 | records the registration; the key map stays the one all calls so far define |
| Controller.Registry.Get | internal/controller/controller.go:35-49 | the strategy under the flat key of the three names, else under the bare page, else none; the answer of the map on triples wherever the lookup resolves to its own keys |
| Controller.CallPageData | internal/strategies/stub.go:14-40 | sends exactly the stub item, or nothing if the context ends first |
| Controller.Run | internal/controller/controller.go:73-106 | exactly one item is sent, unless there is no event data or the context ends first: the stub's if the names looked up, alert and default page put in, have a strategy, else the placeholder, with all their fields |
| Strategies.RegisterStubStrategies | internal/strategies/stub.go:43-88 | an empty registry ends with exactly the listed registrations |
| Strategies.StubKeyShapes | internal/strategies/stub.go:43-88 | a key is registered if and only if it is a listed page or a product, a bar and a name listed for it |
| Strategies.RoutingIsTotal | internal/models/events.go:71-137 | whenever the event name or a table decides the page, the enriched request finds a strategy, for every product and alert name without the alert rewrite, if and only if the page is not one of two orphans |
| Strategies.AlertsRouting | internal/controller/controller.go:80-86 | a request of the Alerts product with alert name a finds a strategy if and only if a is itself listed, as a page or as a product and a name; none of the eight alerts is |
| Strategies.ProductRouting | internal/strategies/stub.go:60-87 | a request without alert name, of one of the products Dashboards, Alerts and PUBLIC_API, finds a strategy if and only if its page is one of the 8, 8 or 10 names under the product or is listed by itself |
| Strategies.PagesWithoutProduct | internal/strategies/stub.go:43-59 | every dashboard page has a strategy under any product, and so has a request that asks for no page |
| Strategies.DecidedPages | internal/models/events.go:43-68 | every page that an event name or table decides is registered, except exactly the two orphans |
| Strategies.OrphanHasNoKey | internal/models/events.go:46-47 | no product and no alert name, bars included, makes an orphan page part of a registered key |
| Strategies.TwoBarsAreMissing | internal/strategies/stub.go:60-87 | no registered key has two bars |
| Events.EventToPageEnrichment | internal/models/events.go:71-137 | rewrites the event data in place to its enriched value, for every event name |
| Events.PageByName | internal/models/events.go:71-137 | the page of a request by its event name, for every name but the two that translate |
| Events.EngagementsTranslation | internal/models/events.go:71-137 | the page of an engagements request by the page it asks for, the default when it asks for none |
| Events.UnifiedTranslation | internal/models/events.go:71-137 | the page of a unified request by the page it asks for; an empty or unknown one stays |
| Events.ProductAndSource | internal/models/events.go:71-137 | product and data source change for two event names each, to one value each |
| Events.EnrichIsIdempotent | internal/models/events.go:71-137 | enriching twice is enriching once, for every event name and event data |
| Events.EnrichFrame | internal/models/events.go:71-137 | nothing but page, product and data source changes |
| Events.EveryRuleIsStable | internal/models/events.go:43-68 | no value of a mapping table is one of its keys, nor is the default page |
| Admission.WorkIsRunUnlessTooOld | internal/consumer/consumer.go:123-177 | a message is run if and only if it is work and young enough, and then with its merged and enriched data |
| Admission.JudgeTable | internal/consumer/consumer.go:123-177 | the verdict by the fields of the message, in the order of the checks, with reasons and limits |
| Admission.AcceptedIff | internal/models/events.go:4-41 | an event name is accepted if and only if the enrichment gives it a page or a product, it is an export or timeout name, or it is one of ten that pass as they are |
| Admission.RejectionIsForever | internal/consumer/consumer.go:160-174 | with a clock that does not go back, what was dead-lettered for its age is so again, what was skipped is skipped again, and what is admitted now was admitted before |
| Admission.ExportTimeoutNeedsClockJump | internal/consumer/consumer.go:160-174 | the export timeout with event timeout E needs the clock to advance at least 7201 - E seconds between its two readings |

## Left out

- Retries inside the Redis client: a command is applied at most once here. A retry after a lost reply could apply HINCRBY twice.
- Network timeouts, connection pools, TLS and pings: each command is one atomic step that ends in one of three ways.
- JSON encoding and decoding: decoding is a function to nothing, malformed or a message; encoding of payloads and of the dead-letter record does not fail.
- Expiry clocks: the buffer hash and the status may vanish at any moment instead of after 120 or 20 seconds. The EXPIRE that follows HSET in its pipeline is not a step of its own.
- 64-bit overflow of counters, timestamps and totals: integers are unbounded.
- The body of the SSE request and the handling of its response: the live service is one log.
- PrepareDataToFrontend: plain copying, called by nothing shown.
- Approximate trimming of streams by MAXLEN: streams keep all they are given.
- Destroying the group or the input stream, resetting its cursor, and output streams named like the input or the dead-letter stream.
- Writers of the buffer hash other than the workers and a publisher that sets `__meta__`.
- Consumer-group rebalancing and batching in Kafka: one partition with one owner at a time.
- KafkaCompletion.NoRegressionWithoutCrash: the cluster's entries stand for deliveries of one partition; the acknowledgement to a Redis group that goes with an entry there has no counterpart in Kafka mode and nothing rests on it.
- The read-write lock of the registry: Register and Get are atomic.
- Configuration loading, logging, telemetry, health server, MinIO and MongoDB wrappers: plumbing with only easy claims.
- Consumer.Consumer.Run: runs over given rounds, with whatever was appended before each, instead of forever.
- Dispatcher.Worker.Run: runs over given turns, with whatever was sent before each, instead of forever.
- Kafka.Client.RunConsumer: runs over given rounds, with whatever was produced before each, instead of forever.
- Controller.Run: which case of a select fires is a parameter; that the queue has room, or the context is done, is a condition of the machine's steps.
- LoopRefinement.RunIsARun: asks for room in the queue for what the rounds send together, as no worker turn comes between them; WorksAreARun has the turns between.
- Consumer.Consumer.HandleEntry: its contract refers to the sequential outcome only; the interleaving of its commands with other processes is what the machine is for.
- Progress.EntryIsFinished: counts the steps a process takes; that the scheduler lets it take them, and that commands return, is assumed.
