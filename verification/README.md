# Verification of the telemetry path

A Dafny model of the path a measurement takes from a simulated vehicle to an aggregate, with
proofs about whole runs of it. `dafny verify dfyconfig.toml` checks everything.

The path, and the files that model it:

- **Persistent queue** (`QueueTable`). The SQLite table behind `pq.go` in both tracky and the
  backend: rows that are ready (0), claimed (1) or acked (5). Class `Store` is the process's map of
  open queues over the files that outlive it.
- **Sender loops** (`SenderProtocol`, `SenderRuns`, `SenderLoop`, `SenderFuture`,
  `SenderKill`, `SenderWatch`). Producers, any
  number of senders, the cleaner, the watchdog and crashes over one queue, as a state machine whose
  events are the locked transactions and the steps of a sender. Classes `Agent` and `TdmClient` are
  the loops themselves; a turn of either is proved to be a run of the state machine.
- **Topic path** (`GoStrings`, `TopicPath`). Device, tag and payload through queue row, MQTT topic
  and brokeroo's parser.
- **brokeroo** (`FirstWrite`, `Brokeroo`, `AckProtocol`, `AckFacts`). The handler with its stores, and
  concurrent handlers against a broker that keeps each QoS 1 message until it is acknowledged
  (sections 4.3.2 and 4.4 of MQTT Version 3.1.1). A handler run alone is proved to be a run of the
  protocol.
- **Vehicle** (`Driving`, `DriveFacts`, `DriveExactly`, `StatVar`, `Firmware`,
  `FirmwareFacts`, `FirmwareExactly`). The drive
  simulator, the running statistics and the loop that publishes from them.
- **Flink window** (`Window`, `WindowFacts`) and **pirate detection** from the simulator's random
  draw to the window's flag (`Pirate`).
- **Connectivity store** (`Decimal`, `Connectivity`). One history, kept as Redis hashes of strings
  or as structs.
- **Watchdog** (`Words`, `Watchdog`) and **MAC addresses** (`MacAddresses`).

## Where the code does less than it seems to

The model follows the code. These are the places where that matters, with the member that says so.

- The retry loop around `Publish` never evaluates its error again: one failure stops the sender for
  good (`DormantForever`, `OneFailureStopsTheQueue`) and loses the payload it holds, as a crash
  between claim and publish does (`LosingRuns`); no restart gives it back, while every other payload
  can still be published (`PublishableExactly`). The watchdog does not notice
  (`StuckSenderEvadesWatchdog`).
- `Shutdown` sets a flag of the manager that its loop does not read (`OnlyTasksStopTheManager`).
- brokeroo's `data["ts"].(int64)` never succeeds, because JSON numbers decode to `float64`: rows are
  keyed by the second of receipt (`KeyedByReceiveSecond`). A second message of a device within that
  second is acked and its payload stored nowhere (`SecondMessageIsLost`, `AckedStoredExactly`), and
  one message delivered again in another second leaves two rows (`OneMessageTwice`,
  `RowsPerMessage`).
- A message that a store refuses for good, such as a payload with the escape for character zero or a
  tag with a space, is never acked, and so is owed and delivered again forever (`OwedCanBeAcked`,
  `NullEscapeNeverAcked`, `SpaceInTagNeverAcked`).
- `StatVar`'s average leaves out the first sample (`AverageIsMeanExactly`).
- Every sample of a coordinate pair carries the whole pair's distance, so a route's distance is
  counted at least twice (`DriveDistance`).
- Window averages divide by all elements, including those without a reading (`AverageExactly`).
- The fallback branch of the batch status read has its nil test inverted and returns zero statuses
  only (`GetDevicesStatus`, `ReadsAgreeExactly`).
- A tag or device id that contains a slash does not survive the path (`BackendRoundTrip`,
  `SlashInTagMovesIntoPayload`).

## Model

| member | source | states |
|---|---|---|
| QueueTable.Store.InitQueue | tracky/src/trackeroo/pq.go:20-43 | Opening a queue again changes no row of an existing table, whatever its status, so a restart gives nothing back. |
| QueueTable.Store.EnqueueData | tracky/src/trackeroo/pq.go:45-84 | Adds one ready row under an id that no row has, and touches nothing else; an unopened queue is left alone. |
| QueueTable.Store.DequeueData | tracky/src/trackeroo/pq.go:86-145 | Returns the least ready id with its data and changes only that row's status; -1 and nil exactly when nothing is ready, with no change. |
| QueueTable.Store.UpdateStatus | tracky/src/trackeroo/pq.go:147-179 | Re-statuses the one row, and an id without a row changes nothing. |
| QueueTable.Store.Size | tracky/src/trackeroo/pq.go:181-203 | The number of ready rows; -1 for an unopened queue. |
| QueueTable.Store.Ack | tracky/src/trackeroo/pq.go:205-207 | Marks the row acked. |
| QueueTable.Store.CleanUpPass | trackeroo-backend/src/internal/service/pq.go:206-237 | One cleanup pass deletes exactly the acked rows of every open queue, keeps the others unchanged and never lowers the id counter. |
| SenderProtocol.TakeIsNext | tracky/src/trackeroo/pq.go:86-145 | In every state that keeps the invariant, DequeueData hands out the next id in sequence with the payload that was enqueued under it, or nothing when all have been handed out. |
| SenderProtocol.StepKeepsInv | tracky/src/trackeroo/agent.go:21-56 | Every event of every interleaving keeps the invariant: ids handed out in order without gap, rows keep their payloads, claimed rows are exactly what one sender each holds, one Publish call per id, and acked or deleted rows were published. |
| SenderRuns.EveryRun | tracky/src/trackeroo/agent.go:30-47 | Over every run with any producers, senders, cleanups, kills, crashes and restarts: ids are handed out as 1, 2, 3, ..., none is given to Publish twice, each Publish carries the payload enqueued under its id, a row is acked or deleted only after its Publish succeeded, and every payload is in exactly one of three places: waiting, with one sender, or published. |
| SenderRuns.ClaimedRowsBounded | tracky/src/trackeroo/pq.go:86-145 | Claimed rows are exactly what senders hold, so never more of them than senders ever started. |
| SenderRuns.OnlyAckedVanish | tracky/src/trackeroo/pq.go:213-244 | Only acked rows disappear, only a fresh id appears, and no event returns a row to ready. |
| SenderRuns.AckOfNothing | tracky/src/trackeroo/agent.go:44-47 | Acking the -1 of an empty dequeue changes no row. |
| SenderRuns.GoneForGood | tracky/src/trackeroo/pq.go:40-40 | An id that is acked or deleted stays so and is never handed out again. |
| SenderRuns.DormantForever | tracky/src/trackeroo/agent.go:33-40 | Once its Publish failed or its process died, in every continuation a sender publishes and acks nothing more, and its row stays claimed through every cleanup, kill and restart. |
| SenderRuns.FailedIsNeverPublished | tracky/src/trackeroo/agent.go:35-39 | A payload held by a stuck or dead sender that has not published it is published in no continuation. PublishableExactly has the converse. |
| SenderRuns.FirstInFirstOut | trackeroo-backend/src/internal/service/mqtt.go:43-74 | With one consumer and no crash, what was enqueued is always what was published, then at most one claimed payload, then the ready rows by id, whose number is Size; enqueues and cleanups may fall anywhere. |
| SenderRuns.OneFailureStopsTheQueue | trackeroo-backend/src/internal/service/mqtt.go:60-63 | After the only sender's Publish fails, no continuation without a new sender hands out or publishes anything, and every waiting payload goes on waiting. |
| SenderFuture.PublishableExactly | tracky/src/trackeroo/agent.go:30-47 | After every run, some continuation has an enqueued payload published if and only if no stuck or dead sender holds it unpublished. |
| SenderFuture.WaitingIsReached | tracky/src/trackeroo/agent.go:30-40 | From every reachable state a running sender whose calls succeed gets to every waiting row. |
| SenderFuture.LosingRuns | tracky/src/trackeroo/agent.go:32-40 | Two runs that lose a payload for good: claimed, and then Publish fails or the process crashes. |
| SenderKill.KillEnds | tracky/src/trackeroo/agent.go:23-23 | In every continuation after a Kill: a sender killed at its loop test claims no row, appears in no later attempt and has exited once it polls; one killed in mid-turn makes at most that turn's one claim and one attempt. |
| SenderKill.KilledAtTestIsDone | tracky/src/trackeroo/agent.go:23-55 | With its flag cleared and at the loop test, a sender holds nothing and does nothing more, and has exited if and only if it has polled. |
| SenderKill.KilledMakesOneMore | tracky/src/trackeroo/agent.go:23-55 | With its flag cleared anywhere, its claims and attempts to come are at most those its current turn has left. |
| SenderKill.CrashEndsAll | tracky/src/trackeroo/pq.go:20-43 | After a crash no sender of before claims or publishes in any continuation. |
| SenderKill.KickedExactly | tracky/src/trackeroo/agent.go:12-37 | A sender is kicked by its start, by a poll unless killed, and by its retry loop, with that moment's time; by nothing else. |
| SenderKill.TableAfter | tracky/src/trackeroo/pq.go:213-244 | A cleanup deletes exactly the rows with status 5 and keeps the others; a crash and a start leave the table as it is. |
| SenderLoop.ServeRuns | tracky/src/trackeroo/agent.go:32-47 | From DequeueData on, whatever other senders did since Size, the loop is a run of the state machine: one Publish of the least ready row and its ack, or a stuck sender with the row claimed; on an empty queue the ack of -1, which changes nothing. |
| SenderLoop.TurnRuns | tracky/src/trackeroo/agent.go:23-55 | A whole turn without interference is a run too: the sender exits when its flag is cleared, and nothing changes when unconnected or empty. |
| SenderLoop.Agent.Turn | tracky/src/trackeroo/agent.go:21-56 | The agent's code, loop test included, makes exactly the state machine's changes to table, kick time and retry state, and sends the payload to its own client's topic. |
| SenderLoop.Agent.Serve | tracky/src/trackeroo/agent.go:32-47 | The agent's code from DequeueData on makes exactly those changes, both branches included. |
| SenderLoop.Agent.Retry | tracky/src/trackeroo/agent.go:35-39 | A turn of the retry loop only kicks. |
| SenderLoop.TdmClient.Turn | trackeroo-backend/src/internal/service/mqtt.go:43-74 | The same for the backend's loop, which takes device and tag from the row. |
| SenderLoop.TdmClient.Serve | trackeroo-backend/src/internal/service/mqtt.go:56-69 | So does the backend's. |
| SenderLoop.PublishedAsEnqueued | trackeroo-backend/src/internal/service/pq.go:46-52 | Over every run whose rows come from the backend's EnqueueData calls: each Publish is for one of those calls, no two for the same, and it and brokeroo read that call's device, tag and payload if and only if neither name has a slash. |
| GoStrings.SplitOfJoin | brokeroo/cmd/brokeroo/main.go:200-200 | Splitting joined parts that do not contain the separator gives the parts back. |
| GoStrings.JoinOfSplit | brokeroo/cmd/brokeroo/main.go:200-200 | Joining what Split returns gives the string back. |
| GoStrings.ReplaceInJoin | brokeroo/cmd/brokeroo/main.go:343-345 | Replacing the separator in a joined string is joining by the new one. |
| TopicPath.NamesInPlace | trackeroo-backend/src/internal/service/pq.go:52-52 | Rows and topics letter by letter: DEVID/TAG/PAYLOAD, TAG/PAYLOAD and j/data/DEVID/TAG. |
| TopicPath.ParseInvertsTopic | brokeroo/cmd/brokeroo/main.go:199-208 | brokeroo reads a topic as (device, tag) if and only if neither has a slash and the topic is the one the senders build from them. |
| TopicPath.BackendRoundTrip | trackeroo-backend/src/internal/service/mqtt.go:56-60 | Encode, cut twice, build the topic, split in brokeroo: the same device, tag and payload come out if and only if device and tag have no slash; the payload may have any. |
| TopicPath.SlashInTagMovesIntoPayload | trackeroo-backend/src/internal/service/mqtt.go:58-59 | What a slash in the tag does: the message is filed under the tag's first part and the rest of the tag becomes the beginning of the payload. |
| TopicPath.AgentRoundTrip | tracky/src/trackeroo/agent.go:34-35 | The vehicle's path gives client id, tag and payload back if and only if client id and tag have no slash. |
| TopicPath.SanitizedForm | brokeroo/cmd/brokeroo/main.go:343-345 | The Kafka topic of a well-formed MQTT topic is j-data-DEVICE-TAG. |
| TopicPath.SanitizedCollision | brokeroo/cmd/brokeroo/main.go:343-345 | Two topics share a Kafka topic if and only if DEVICE-TAG reads the same; with device ids of one length only if they are equal. |
| FirstWrite.FirstPayloadWins | brokeroo/cmd/brokeroo/main.go:275-284 | After any insertions the table has one row per distinct (second, device), holding the first payload sent under it. |
| FirstWrite.ReplayIsNoOp | brokeroo/cmd/brokeroo/main.go:276-278 | Replaying applied insertions, in any order and number, changes nothing. |
| FirstWrite.CommuteExactly | brokeroo/cmd/brokeroo/main.go:276-278 | Two insertions commute if and only if their keys differ, or their entries agree, or the key was taken. |
| FirstWrite.StoredExactly | brokeroo/cmd/brokeroo/main.go:275-284 | A message's own payload is what is stored if and only if nothing else had its key first, or it was equal. |
| FirstWrite.KeysGrow | brokeroo/cmd/brokeroo/main.go:276-278 | Insertions add exactly their keys and change no existing row. |
| Brokeroo.KeyedByReceiveSecond | brokeroo/cmd/brokeroo/main.go:218-229 | For every JSON payload the key and the envelope carry the second of receipt, never the payload's own timestamp. |
| Brokeroo.WellFormedExactly | brokeroo/cmd/brokeroo/main.go:199-216 | A message is let through if and only if its topic reads j/data/DEVID/TAG with names free of slashes and its payload decodes to an object. |
| Brokeroo.FieldsInPlace | brokeroo/cmd/brokeroo/main.go:223-248 | The row inserted and the Kafka message, each field written from the sent topic, the sent payload and the second of receipt. |
| Brokeroo.HandledInPlace | brokeroo/cmd/brokeroo/main.go:226-272 | A handler's effects on the table and the writer, written the same way. |
| Brokeroo.Service.InsertData | brokeroo/cmd/brokeroo/main.go:275-284 | Success means the key has a row; the table becomes the first-write-wins table, also when the call fails after taking effect. |
| Brokeroo.Service.EnsureTopicExists | brokeroo/cmd/brokeroo/main.go:100-136 | The cache of known topics stays within the topics that exist, grows exactly on success, and saves the call when it has the topic. |
| Brokeroo.Service.MessageHandler | brokeroo/cmd/brokeroo/main.go:193-273 | Malformed messages are acked with no effect; well-formed ones are acked if and only if insert, topic and writer all succeeded, each effect only after those before it; after an ack the row, the topic and the forwarded envelope are there. |
| AckProtocol.StepKeepsInv | brokeroo/cmd/brokeroo/main.go:193-284 | Every event of concurrent handlers, failures, crashes and redeliveries keeps the invariant linking each handler's phase to the stores. |
| AckProtocol.EveryRun | brokeroo/cmd/brokeroo/main.go:193-284 | Over every run: each message sent is acked or still owed, never both; each acked well-formed message was itself inserted, and handed to the Kafka writer in an envelope with that second, and its key has a row; knownTopics is within the topics that exist; the table holds the first payload inserted under each key. |
| AckProtocol.MalformedHasNoEffect | brokeroo/cmd/brokeroo/main.go:199-216 | A handler of a malformed message changes no store, in any interleaving, and after parsing can only ack. |
| AckProtocol.OwedUntilAcked | brokeroo/cmd/brokeroo/main.go:144-150 | No step makes the broker forget a message but that message's own ack, which comes only once the message is forwarded and inserted. |
| AckProtocol.DeliverableExactly | brokeroo/cmd/brokeroo/main.go:144-150 | In every state of the invariant a message can be delivered if and only if it was sent and is not acked. |
| AckProtocol.OwedIsDeliverable | brokeroo/cmd/brokeroo/main.go:144-150 | After every step, a crash included, what is owed can be delivered again. |
| AckFacts.Finish | brokeroo/cmd/brokeroo/main.go:226-272 | In every reachable state a handler can still end in its own ack if and only if it has not ended and the stores take what it has left to hand them. |
| AckFacts.OwedCanBeAcked | brokeroo/cmd/brokeroo/main.go:193-273 | In every reachable state an owed message can still be acked if and only if it is malformed or the table, Kafka's topic names and the writer take it: no failure or crash puts one beyond delivery, and one that is refused stays owed. |
| AckFacts.RefusedIsOwed | brokeroo/cmd/brokeroo/main.go:226-238 | A message that a store refuses is owed after every run in which it was sent. |
| AckFacts.NullEscapeNeverAcked | tsdb/docker-entrypoint-initdb.d/02-schema.sql:3-11 | One such message: valid JSON with the escape for character zero, for every device and tag, where JSONB refuses it. |
| AckFacts.SpaceInTagNeverAcked | brokeroo/cmd/brokeroo/main.go:234-238 | Another: any payload under a tag with a space, where Kafka refuses the name made of it. |
| AckFacts.AckedStoredExactly | brokeroo/cmd/brokeroo/main.go:218-284 | Over every run an acked well-formed message is in the insertion log at its envelope's second, and its own payload is the stored one if and only if the first insertion of its device in that second carried the same. |
| AckFacts.AckedInPlace | brokeroo/cmd/brokeroo/main.go:199-273 | Over every run, an acked message on j/data/DEVID/TAG is logged with that device, tag and payload, and Kafka topic j-data-DEVID-TAG was handed an envelope with the same, under one second of receipt. |
| AckFacts.CrashEndsHandlers | brokeroo/cmd/brokeroo/main.go:53-58 | A crash forgets the known topics and keeps the stores and what is owed; no handler of before it makes another call. |
| AckFacts.RowsPerMessage | brokeroo/cmd/brokeroo/main.go:218-284 | Over every run a message leaves exactly one row for each second of receipt in which it was the first of its device, with its own tag and payload; every row was left so by one message. |
| AckFacts.SecondMessageIsLost | brokeroo/cmd/brokeroo/main.go:218-229 | For any two different messages of one device parsed in one second, a run in which both are acked and the table holds the first only. |
| AckFacts.OneMessageTwice | brokeroo/cmd/brokeroo/main.go:218-229 | For any message, a run in which it is delivered again in another second after its hand-over to Kafka failed, and leaves two rows. |
| AckProtocol.HandlerAlone | brokeroo/cmd/brokeroo/main.go:193-273 | A handler that no other interrupts is a run of the protocol with exactly MessageHandler's effects, for every outcome of its calls. |
| Driving.SimulateDrive | tracky/src/trackeroo/driving.go:262-385 | The nested loops send exactly the sequence Drive, about which the facts below are proved. |
| Driving.DriveSegment | tracky/src/trackeroo/driving.go:277-368 | One segment's loop, with the state it hands to the next segment. |
| Driving.DrivePair | tracky/src/trackeroo/driving.go:278-367 | One coordinate pair: the stop, the limit, the jittered speed, the status and the samples. |
| Driving.DrawSpeed | tracky/src/trackeroo/driving.go:309-323 | The limit of a pair is positive and at most the segment's speed, and the speed drawn is within 3% of it, times 1.4 for a pirate. |
| Driving.DriveSteps | tracky/src/trackeroo/driving.go:348-366 | The samples along one pair. |
| DriveExactly.PairExactly | tracky/src/trackeroo/driving.go:277-367 | Every coordinate pair of every drive, field by field and without the simulator's carried state: ACCELERATING, SLOWING or DRIVING by whether the speed is more than 5% faster or slower than the sample before (0 at the start and after a stop); consumption times 1.3, 0.5 or 1; the segment's own speed, or the average, as limit, cut to a third and a half after a stop; which random draw; the number of samples, their places, distance, start and end; and the STOPPED sample. |
| DriveExactly.DriveIsItsPairs | tracky/src/trackeroo/driving.go:370-381 | The pairs one after the other are the whole drive but the last sample: ARRIVED at the last coordinate, under the last limit. |
| DriveExactly.MotorExactly | tracky/src/trackeroo/driving.go:273-322 | lastSpeed and speedLimit are those of the latest sample, stopCompensation counts pairs since the last stop, and the draws made are one a pair and one a stop. |
| DriveFacts.EveryDrive | tracky/src/trackeroo/driving.go:277-381 | For every route, draw and distance: each STOPPED is immediately followed by two ACCELERATING samples, and ARRIVED occurs exactly once, last (never on a route of fewer than two segments). |
| DriveFacts.DriveBands | tracky/src/trackeroo/driving.go:309-323 | Every moving sample's speed is within 3% of its limit, times 1.4 for a pirate, and no limit exceeds the route's fastest segment. |
| Driving.PairSpeedBand | tracky/src/trackeroo/driving.go:319-323 | The drawn speed of a pair stays in its band for every draw in [0, 1). |
| DriveFacts.SegmentRamp | tracky/src/trackeroo/driving.go:286-346 | A stopping segment with at least three pairs starts with STOPPED and then only ACCELERATING samples at a third, a half and all of its speed, despite jitter and tolerance. |
| DriveFacts.DriveHasRamp | tracky/src/trackeroo/driving.go:277-381 | That ramp stands in the drive, uninterrupted, for each such segment of any route. |
| DriveFacts.SegmentInDrive | tracky/src/trackeroo/driving.go:277-368 | The samples of a segment's first pairs stand together in the drive, at the place given by the segments before. |
| DriveFacts.PairEndpoints | tracky/src/trackeroo/driving.go:348-351 | The samples of a pair begin exactly at its first coordinate and end exactly at its second. |
| DriveFacts.PairSpacing | tracky/src/trackeroo/driving.go:406-411 | They are equally spaced. |
| DriveFacts.StepsExactly | tracky/src/trackeroo/driving.go:326-330 | The step count is how often the interval fits the travel time in whole nanoseconds, but at least one. |
| DriveFacts.DriveDistance | tracky/src/trackeroo/driving.go:330-381 | A drive's distance is the sum over pairs of (steps + 1) times the pair's length: at least twice the path, and equal to it if and only if the path has length 0. |
| DriveFacts.RouteSum | tracky/src/trackeroo/driving.go:348-363 | The same sum after any number of segments. |
| DriveFacts.RouteOvercounts | tracky/src/trackeroo/driving.go:330-363 | After any number of segments it is at least twice the path so far. |
| StatVars.StatVar.Add | tracky/src/trackeroo/utils.go:25-40 | Adding keeps the fields equal to the statistics of all samples since the last Get. |
| StatVars.StatVar.Get | tracky/src/trackeroo/utils.go:42-54 | Returns the statistics of the samples since the last Get and forgets them. |
| StatVars.StatsExactly | tracky/src/trackeroo/utils.go:25-40 | For every nonempty sample sequence: count and extremes are the true ones, and count times average is the sum without the first sample. |
| StatVars.AverageIsMeanExactly | tracky/src/trackeroo/utils.go:26-31 | The average is the mean if and only if the first sample is 0. |
| Firmware.Loop.Consume | tracky/src/firmware.go:142-190 | One iteration publishes or accumulates as the log of windows says, and each payload enqueued stands for its whole window: last sample, statistics and distance. |
| Firmware.Loop.ConsumeRoute | tracky/src/firmware.go:142-192 | So does a whole channel, continuing from the routes before. |
| FirmwareExactly.PublishedExactly | tracky/src/firmware.go:142-190 | One payload for each sample that is due or changes the status, in order; its fields are that sample's, one by one, and its statistics and distance are those of the samples since the payload before. |
| FirmwareExactly.PublishedAtExactly | tracky/src/firmware.go:146-146 | Which samples those are. |
| FirmwareExactly.WindowsExactly | tracky/src/firmware.go:142-166 | Which samples each payload stands for, and which are pending. |
| FirmwareExactly.PayloadsFaithful | tracky/src/firmware.go:146-159 | The statuses in the payloads, with repeats removed, are the consumed ones with repeats removed, and end in lastStatus. |
| FirmwareExactly.RoutesPublished | tracky/src/firmware.go:127-192 | The same over any number of routes: every status simulated is enqueued, ARRIVED too. |
| FirmwareFacts.WindowsPartition | tracky/src/firmware.go:142-190 | For every publish timing, publications cut the sample stream into consecutive nonempty windows: nothing lost, repeated or reordered; lastStatus is the latest status. |
| FirmwareFacts.StatusesFaithful | tracky/src/firmware.go:146-147 | lastStatus is the latest consumed and latest published status, and with repeats removed the published statuses are the consumed ones. |
| FirmwareFacts.RoutesFaithful | tracky/src/firmware.go:127-192 | The same for what is simulated over any number of routes. |
| FirmwareFacts.Conserved | tracky/src/firmware.go:143-166 | Published distance plus the pending accumulator is always the distance consumed; and the sums of all speeds and of all consumptions are rebuilt from the published statistics, each window's first sample and the pending samples. |
| FirmwareFacts.NothingPendingAtRouteEnd | tracky/src/firmware.go:142-192 | The pending distance is 0 after every sequence of whole routes. |
| FirmwareFacts.RoutesConserved | tracky/src/firmware.go:127-192 | Over whole routes the published distance is the simulated distance. |
| Window.ProcessElements | flink_job/src/main/java/com/example/job/AggregationHandler.java:143-209 | The loop throws exactly on the windows that have a null it dereferences, sensors that do not fit, or at the end no payload or a statistic that is not a number; otherwise its state is the window's totals, the first payload's head and the last element's tail. |
| Window.ProcessableExactly | flink_job/src/main/java/com/example/job/AggregationHandler.java:147-204 | Which windows those are, element by element: no null is unboxed or called, sensors fit the device type they come with, the first payload has a start and an end, and the last element has a payload with numeric statistics. |
| Window.AggregationState.Process | flink_job/src/main/java/com/example/job/AggregationHandler.java:147-190 | One element: when it throws, what it adds, and that only the first payload sets the head. |
| Window.AggregationState.Accumulate | flink_job/src/main/java/com/example/job/AggregationHandler.java:160-188 | One payload adds exactly its share, and throws exactly when it is not readable. |
| Window.CountZero | flink_job/src/main/java/com/example/job/AggregationHandler.java:153-165 | The count is zero if and only if no element has a payload. |
| WindowFacts.TotalsOfConcat | flink_job/src/main/java/com/example/job/AggregationHandler.java:147-190 | The totals of two windows one after the other are the sum of theirs. |
| WindowFacts.TotalsIgnoreOrder | flink_job/src/main/java/com/example/job/AggregationHandler.java:147-190 | Windows with the same elements in any order have the same count, sums and flags. |
| WindowFacts.StateOfConcat | flink_job/src/main/java/com/example/job/AggregationHandler.java:143-209 | The whole state of a concatenation combines those of its parts: sums and flags add, the first part with a payload gives the head, the last nonempty part the tail. |
| WindowFacts.CellsConserve | flink_job/src/main/java/com/example/job/AggregationHandler.java:147-190 | However a stream is split into (device, window) cells, the cells' counts, distances, sensor sums and flags combine to the stream's. |
| WindowFacts.FlagsExactly | flink_job/src/main/java/com/example/job/AggregationHandler.java:160-188 | Each flag is set if and only if some element of the window sets it. |
| WindowFacts.CountAndDistance | flink_job/src/main/java/com/example/job/AggregationHandler.java:165-166 | Count and distance are those of the elements that have a payload. |
| WindowFacts.SumsAreOfReadings | flink_job/src/main/java/com/example/job/AggregationHandler.java:169-185 | Each sensor sum is the sum of that sensor's readings present, which are at most as many as the count. |
| WindowFacts.RecordExactly | flink_job/src/main/java/com/example/job/AggregationHandler.java:143-242 | Every processable window but the empty one gives a record: a food record if some element has food sensors, else a valuable one if some has valuable sensors, else a generic one; with the first payload's tag, device name, speed limit and route hash, the last payload's status, speed and consumption statistics, each sensor's own average, and the count, distance and flags of all elements. |
| WindowFacts.AverageExactly | flink_job/src/main/java/com/example/job/AggregationHandler.java:221-224 | Each average times the count is the sum of the readings, and it is the mean of the readings present if and only if none is missing or they sum to 0. |
| WindowFacts.AverageWithin | flink_job/src/main/java/com/example/job/AggregationHandler.java:221-224 | When every element carries a reading between two bounds, so does the average. |
| Pirate.NeverSpeedsExactly | tracky/src/trackeroo/driving.go:319-323 | No draw makes a law-abiding vehicle exceed the margin of 10 if and only if three times the limit is at most 1000 km/h. |
| Pirate.AlwaysSpeedsExactly | tracky/src/trackeroo/driving.go:319-323 | Every draw makes a pirate exceed it if and only if 0.358 times the limit is over 10. |
| Pirate.PublishedCarrySamples | tracky/src/firmware.go:146-154 | Every payload published carries speed and limit of one sample of the drive. |
| Pirate.LawAbidingNeverMarked | flink_job/src/main/java/com/example/job/AggregationHandler.java:160-163 | No window of samples from any number of successive law-abiding drives is marked, if no segment is faster than 1000/3 km/h. |
| Pirate.PirateAlwaysMarked | flink_job/src/main/java/com/example/job/AggregationHandler.java:160-163 | A window with one moving sample of a pirate's drive at a limit of at least 28 km/h is marked. |
| Decimal.ParseOfFormat | trackeroo-backend/src/internal/service/connectivity.go:64-69 | Printing an integer in decimal and parsing it gives it back if and only if it fits 64 signed bits. |
| Decimal.ParseOfFormatBool | trackeroo-backend/src/internal/service/connectivity.go:59-59 | Printing and parsing a flag gives it back. |
| Connectivity.RoundTrip | trackeroo-backend/src/internal/service/connectivity.go:58-89 | mapToStruct after structToMap gives every status cut to whole seconds, for all signed 64-bit times. |
| Connectivity.StatusAfter | trackeroo-backend/src/internal/service/connectivity.go:103-153 | An event changes only its own device's status, and of the two times only its own kind. |
| Connectivity.LastTimeExactly | trackeroo-backend/src/internal/service/connectivity.go:105-115 | The time reported for a kind is that of its last event, the epoch if and only if there was none. |
| Connectivity.SeenIsSome | trackeroo-backend/src/internal/service/connectivity.go:155-179 | A history has a status for exactly the devices it mentions. |
| Connectivity.RedisStep | trackeroo-backend/src/internal/service/connectivity.go:116-140 | The Redis update keeps the hashes representing the history, though the other time is read back from its string. |
| Connectivity.FallbackStep | trackeroo-backend/src/internal/service/connectivity.go:141-152 | The fallback update keeps the map representing the same history. |
| Connectivity.ConnectivityCache.SetDeviceStatus | trackeroo-backend/src/internal/service/connectivity.go:103-153 | On either path the store goes on representing the history with the event added. |
| Connectivity.ConnectivityCache.ReadOther | trackeroo-backend/src/internal/service/connectivity.go:91-101 | The other kind's time comes back to the second, the epoch if never set. |
| Connectivity.ConnectivityCache.GetDeviceStatus | trackeroo-backend/src/internal/service/connectivity.go:155-179 | After any events: the last flag and address, and the last connect and disconnect times, cut to seconds on the Redis path and exact on the fallback; an error if and only if the device was never seen. |
| Connectivity.ConnectivityCache.ReadOne | trackeroo-backend/src/internal/service/connectivity.go:197-225 | One entry of the batch read: the single read on the Redis path, the zero status on the fallback. |
| Connectivity.ConnectivityCache.GetDevicesStatus | trackeroo-backend/src/internal/service/connectivity.go:181-229 | The batch has exactly the ids asked for; on the Redis path it agrees with single reads of every device seen, on the fallback it is all zeros. |
| Connectivity.ReportedExactly | trackeroo-backend/src/internal/service/connectivity.go:103-179 | What a read reports, from the events: flag and address of the device's latest event, time of its latest connection and of its latest disconnection (1970 if none), cut to seconds on Redis; nothing if and only if it has no event. |
| Connectivity.HashInPlace | trackeroo-backend/src/internal/service/connectivity.go:82-89 | The Redis hash of a status, field by field. |
| Connectivity.ReadsAgreeExactly | trackeroo-backend/src/internal/service/connectivity.go:155-229 | Batch and single read agree, an unseen device reading as the zero status, if and only if the path is Redis, or the device was never seen, or its status is the zero status. |
| Watchdog.FiresExactly | tracky/src/trackeroo/task_manager.go:38-42 | For all 64-bit values: with the kick not after the clock reading the check fires if and only if the gap exceeds the limit; with the kick after it, if and only if 2^64 minus the lead does. |
| Watchdog.OneSecondAhead | tracky/src/trackeroo/task_manager.go:31-38 | A kick one second after the clock was read fires the check for every limit but -1. |
| Watchdog.NegativeLimitIsHuge | tracky/src/trackeroo/task_manager.go:38-38 | A negative limit does not fire within 2^63 seconds. |
| Watchdog.ScanExactly | tracky/src/trackeroo/task_manager.go:31-43 | A scan lets the manager go on if and only if no task is resetting and none overdue; the first resetting task gives the reason, else an overdue one makes it 98, else it stays. |
| Watchdog.ViewInPlace | tracky/src/trackeroo/task.go:48-66 | What a check reads of a task are its own fields. |
| Watchdog.TaskManager.Scan | tracky/src/trackeroo/task_manager.go:31-43 | A pass stops the manager if and only if some task is resetting or late; the first resetting task's reason wins, and a late task does not end the pass. |
| Watchdog.TaskManager.Shutdown | tracky/src/trackeroo/task_manager.go:21-23 | Shutdown changes reason and resetting only. |
| Watchdog.TaskManager.KillAll | tracky/src/trackeroo/task_manager.go:47-49 | Killing clears every task's running flag and changes nothing a check reads. |
| Watchdog.OnlyTasksStopTheManager | tracky/src/trackeroo/task_manager.go:21-43 | After any scans and shutdown requests the loop runs on if and only if no scan stopped it: requests alone never do. |
| SenderWatch.StuckSenderEvadesWatchdog | tracky/src/trackeroo/agent.go:33-40 | A sender whose Publish failed is left alone by every check if and only if its retry loop kicks in time; meanwhile it publishes nothing and its row stays claimed. |
| MacAddresses.SplitInvertsValue | bootstrap/cloud-init/dump_macs.py:18-28 | Splitting into bytes inverts joining them, and joining inverts splitting exactly on 24-bit values. |
| MacAddresses.FormatInjective | bootstrap/cloud-init/dump_macs.py:30-32 | Two suffixes print alike if and only if they are equal. |
| MacAddresses.FormatExactly | bootstrap/cloud-init/dump_macs.py:30-32 | Each position of the address: 52:54:00, then two lower-case digits a byte, the highest byte first. |
| MacAddresses.BytesExactly | bootstrap/cloud-init/dump_macs.py:18-28 | The bytes of the i-th network's suffix, from the three hash bytes and i. |
| MacAddresses.SuffixCounts | bootstrap/cloud-init/dump_macs.py:18-28 | The i-th network's suffix is (hash + i) mod 2^24, for every i, through the wrap at ff:ff:ff. |
| MacAddresses.MacsDistinctExactly | bootstrap/cloud-init/dump_macs.py:43-53 | Two networks of a VM share an address if and only if their positions differ by a multiple of 2^24. |
| MacAddresses.Vm.AssignMacs | bootstrap/cloud-init/dump_macs.py:46-53 | Each network's mac becomes its address, all other settings stay. |
| MacAddresses.ProcessVmConfigs | bootstrap/cloud-init/dump_macs.py:34-55 | Every VM of the list gets its addresses, whatever the list. |

## Left out

- HTTP handlers, the router, login and tokens, the Mongo access layer, and the infrastructure scripts: thin wrappers over libraries.
- Geocoding, routing requests and haversine trigonometry: distance is any nonnegative function of two points, consumption any function of the speed.
- Floating point is modelled by reals: no rounding, overflow or NaN. time.Duration overflow and Java's int count overflow are not modelled either.
- SHA-256, JSON text and printed aggregates: `hash` is a parameter, an unparseable payload is an absent body, and a record's fields stand for its text.
- Clocks and sleeps: clock readings are event parameters, and "the publish period has elapsed" is an arbitrary flag. The duration of a stop is not modelled; the random draw it consumes is.
- SQL errors in the queue: every SQL call is taken to succeed. Redis errors after initialisation, and concurrent writers of one Redis hash, are not modelled.
- Kafka's delivery: the writer may be asynchronous, so the model says "handed to the writer". Retention, deletion of topics and the reuse of MQTT packet ids are not modelled.
- brokeroo's start-up: a handler that runs before the Kafka writer is set, and a race on the Go map of known topics, both end the process; the crash event stands for them. The health-check topic created on connecting is not modelled.
- Loops without end are modelled by their bodies: Turn and Retry for the senders, Scan for the task manager, CleanUpPass for the cleaner, Consume and ConsumeRoute for the firmware. Nested loops are one method per loop.
- SenderLoop.Agent.Turn: a turn that no other sender interrupts; Serve covers what others do between Size and DequeueData, and SenderProtocol every interleaving. Marshal failures in EnqueueData add nothing and have no event.
- SenderLoop.TdmClient.Turn: the connection loop at the top of the turn is taken to have ended. SenderProtocol's kick of a polling sender has no counterpart in the backend.
- Firmware.Loop.Consume: device names and random sensor values are not modelled. StructToMap fails only on a NaN or an infinity, which reals do not have; in the source that would drop a payload after its accumulators were reset.
- AckFacts.OwedCanBeAcked: what JSONB holds, Kafka names a topic and a batch has room for is a parameter, any rule that always gives the same answer; the two examples are conditional on the rule refusing them.
- Driving.SimulateDrive: requires what the source indexes or divides by without a test, a first and last segment with coordinates and positive speed and interval; firmware.go passes 60 and 100.
- Window.ProcessElements: a sensors object is one that fits FoodSensors, one that fits ValuableSensors, or neither; windows and their assignment are arbitrary sequences.
- MacAddresses.ProcessVmConfigs: two VMs that share one dictionary of settings through a YAML alias are not modelled.
- Task.IsRunning (it returns resetting), Name and the logging of every component say nothing further.
