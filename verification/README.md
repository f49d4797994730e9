# A verified model of the dsend broker

dsend is a message broker in one process: queues with acknowledgements, prefetch, retries, expiry and
dead-lettering, exchanges that route to them, and one write-ahead log from which all of it is rebuilt.
Its guarantees come from several pieces of mutable state agreeing with each other over unbounded runs. This
project models that state and proves the agreement.

## How the model is built

* `Wal.dfy` is the log. `Replay` is what a sequence of records recovers to, `FileWal.Load` is the loop that
  computes it, and `ReplayQueue` and `ReplayExchange` are what one queue or exchange recovers from a log shared by all.
* `Delivery.dfy` is one queue as a state machine. A step is one holding of the queue's lock, with the two
  sweeps cut into one step per message. Every step moves at most one message: `Shift` moves it, `Log` is the record
  written for it, `Settle` and `Control` do the rest. A `Step` carries what the environment decides: whether the append
  succeeded, the token drawn, the clock. `Tries` is the append a step asks for and the outcome it reports.
* `Recovery.dfy`, `Conservation.dfy`, `Redelivery.dfy`, `Prefetch.dfy`, `Signalling.dfy`, `Closing.dfy`, `RoundRobin.dfy`
  and `Waiting.dfy` prove what every step of that machine keeps, and so what holds in every run.
* `RingBuffer.dfy`, `Parts.dfy` and `QueueRuntime.dfy` are the code in its own form: classes whose methods change
  fields in place. `QueueRuntime.View()` is the machine state an object stands for, and every method ends in
  `Stepped(step)` or `Ran(steps)`: it took those steps of the machine, the log grew by exactly their records, and the history of
  appends kept with the log grew by exactly those the steps ask for, so that a reported failure is the log's.
  So what is proved of the machine holds of the class. `StepForms.dfy` only reads branches of the machine back for them.
* `Broker.dfy` is the whole broker as a state machine over the shared log, with restart as a step and with the deleted queues to
  which somebody may still refer. `BrokerQueues.dfy` (messages), `BrokerKnown.dfy` (which queues exist), `BrokerTopology.dfy`,
  `BrokerTokens.dfy` and `BrokerRuns.dfy` prove its invariants. `BrokerLives.dfy` shows each of its queues to be a run of the
  delivery machine, so that the results about queues hold in the broker.
* `QueueTable.dfy` is the broker's table of `QueueRuntime` objects, and `MemBroker.dfy` is `InMemoryBroker` and `NewBroker` over it,
  each method proved to be a step of the broker machine, or with `FanOut.dfy` a run of its publish steps.
* `Topic.dfy` and `Exchange.dfy` are routing. `Limits.dfy` and `BrokerLimits.dfy` hold runs to where the guarantees end.

## Standing assumptions

They are hypotheses of the theorems that need them, never facts about the code: no step is disabled because it breaks one.

* (A) A reservation draws a token that is not in flight (`FreshToken`); a published message carries an id no live message
  of its queue has (`FreshId`).
* (B) When a reservation is cancelled its token is still in flight and the buffer has a free slot (`SafeCancel`).
* (C) A failed append leaves the log as it was.
* (D) `MaxRetries` and published retry counts are not negative (`NonNegative`).

What needs what: prefetch, wakeups and token ownership need the token half of (A) only. Topology and the list of queues need
neither. Conservation, lineage and the account of redeliveries need fresh tokens and (B); the bound by the number of messages
needs (D) besides. Recovery of messages needs (A), (B) and (C).

## What the code does not do

Each of these has an exact condition, a concrete run, or both.

* A delivery whose retries are used up frees a unit of prefetch without waking the distributor, which can then sleep
  in front of work it could do; so does a failed append in the expiry sweep (`NoLostWakeupIff`, `LostWakeupRun`, `FailedSweepRun`).
* A publisher woken for a free slot whose append fails leaves without passing the wakeup on (`UnstrandedIff`, `StrandedRun`).
* A cancelled reservation is pushed back whatever has happened since. If it has timed out, its message is queued twice; if
  the slot it freed has been taken, the push overwrites a waiting message, and a later pop returns an empty one
  (`CancelConservesIff`, `DuplicateRun`, `FullCancelRun`, `RingBufferQueue.Push`).
* Cancelled onto a queue that was closed and deleted meanwhile, it can expire there, and the record of that brings the
  queue back at the next start (`GoneStepIff`, `AllGoneIff`, `OnlyKnownIff`, `ResurrectedRun`).
* A client can publish a message with a negative retry count, and have it redelivered beyond the limit
  (`FirstPublishBoundIff`, `NegativeRetryRun`).
* A record that removes a message removes every message with its id. A client can cause that by supplying an id twice, or by
  publishing with an id through two matching bindings to the same queue (`LiveFollowsLogIff`, `ReplayStepIff`, `RepeatedIdRun`).
* A consumer that comes back under its old id while it has deliveries in flight can exceed the prefetch limit
  (`SubscribeExactIff`, `StaleIdRun`).
* A routing segment `#` in the place of the binding's final `#` is taken for an equal segment (`MatchCorrectIff`, `HashSegmentExample`).
* Bindings change in memory before the log, so a failed append of a bind, an unbind or a deletion's unbinding leaves the two
  apart (`TopologyStepIff`, `FailedBindRun`, `FailedUnbindRun`, `InterruptedRun`).
* A crash right after a deletion's first record makes the next start fail if a logged exchange still binds the queue
  (`CrashMidDeleteIff`, `CrashMidDeleteRun`).
* The documentation says in-flight deliveries and session ownership are rebuilt (docs/sdk.html:924-925). The code requeues
  in-flight messages and restores no sessions; the model follows the code.

## Model

| member | source | states |
|---|---|---|
| Wal.FileWal.Append | internal/storage/wal.go:103-121 | a successful append adds exactly the record at the end, a failed or refused one leaves the log as it was, a closed log refuses, and the history of attempts gains this one with its outcome |
| Wal.FileWal.Close | internal/storage/wal.go:233-247 | the log is closed and keeps its records |
| Wal.FileWal.Load | internal/storage/wal.go:129-231 | the loop over the records, updating its maps in place, computes `Replay` of the log |
| Wal.RemoveMessage | internal/storage/wal.go:123-127 | the filtering loop keeps the messages with another id, in order |
| Wal.RemoveBindings | internal/storage/wal.go:211-219 | the filtering loop keeps, in order, exactly the bindings of other queues and, unless the key is empty, of other keys |
| Wal.ReplayQueueAgrees | internal/storage/wal.go:159-194 | the fold over the shared log gives each queue what that queue's own fold gives it, for every log |
| Wal.SharedLogNonInterference | internal/storage/wal.go:159-194 | for every log, a queue recovers the same from the shared log as from its own records alone |
| Wal.ReplayExchangeAgrees | internal/storage/wal.go:195-226 | the fold over the shared log gives each exchange what that exchange's own fold gives it |
| Wal.WithoutBag | internal/storage/wal.go:123-127 | removal by id keeps every occurrence of the messages with other ids and none with that id |
| Wal.WithoutIsRemoveAtIff | internal/storage/wal.go:123-127 | removal by id takes away the one message meant, and keeps the others in order, if and only if no other has its id |
| Wal.PublishedSurvives | internal/storage/wal.go:177-192 | in every log, a message brought by a record and removed by no later one is recovered |
| Wal.RemovedStaysGone | internal/storage/wal.go:188-194 | in every log, a message id removed by a record and brought by no later one is not recovered |
| RingBuffer.RingBufferQueue.constructor | internal/queue/ring_buffer.go:17-23 | an empty queue of the given capacity |
| RingBuffer.RingBufferQueue.Push | internal/queue/ring_buffer.go:25-29 | appends while there is room, through any wrap-around; with none, on a full or already overfull buffer, it overwrites a waiting message and an empty one is left to pop at the end |
| RingBuffer.RingBufferQueue.Pop | internal/queue/ring_buffer.go:31-37 | returns and removes the first message through any wrap-around |
| RingBuffer.RingBufferQueue.Peek | internal/queue/ring_buffer.go:39-42 | returns the first message and changes nothing |
| Parts.Manager.Add | internal/inflight/manager.go:21-29 | the table maps the token to the message, its consumer and the time; the rest is unchanged |
| Parts.Manager.Remove | internal/inflight/manager.go:31-40 | takes exactly the token out and returns its entry, or reports that there is none |
| Parts.Manager.Get | internal/inflight/manager.go:42-52 | returns the token's entry, or none |
| Parts.Manager.Expired | internal/inflight/manager.go:54-68 | a delivery is listed if and only if more than the timeout has passed since it was delivered, each once with its message and consumer, whatever order the map yields |
| RoundRobin.SelectNoneIff | internal/engine/queue_runtime.go:278-312 | a session is selected if and only if some session is eligible |
| RoundRobin.SelectionApproaches | internal/engine/queue_runtime.go:287-299 | a selection of another session brings the cursor strictly closer to every eligible session that was passed over |
| Waiting.ServedInTurn | internal/engine/queue_runtime.go:278-346 | in every run of the queue with unchanged membership, a session eligible at as many reservations as there are sessions gets one of them |
| Delivery.ShapeStep | internal/engine/queue_runtime.go:98-540 | every step that draws a fresh token, if it draws one, keeps tokens unique, the held delivery its own entry, order and session table the same sessions and the cursor inside the order |
| Delivery.RoomToPush | internal/engine/queue_runtime.go:102-107 | while the buffer is within its capacity, every push but that of an unsafe cancellation finds a free slot |
| Delivery.BoundedStep | internal/queue/ring_buffer.go:25-29 | every step but such a cancellation keeps the buffer within its capacity |
| Delivery.DistributorStep | internal/engine/queue_runtime.go:382-412 | a delivery is held from its reservation until it is sent or cancelled, and is the one reserved |
| Delivery.EmittedAreSuccesses | internal/engine/queue_runtime.go:118-161 | in every run the records written are exactly those of the appends asked for that succeeded, in order |
| Delivery.OrderWithoutIsRemoveAt | internal/engine/queue_runtime.go:238-240 | unsubscribing takes one session out of the order and leaves the others where they were |
| Closing.ShutdownShuts | internal/engine/queue_runtime.go:175-190 | shutdown closes the queue, drops every session, wakes every sleeping publisher, touches no message and writes nothing |
| Closing.ShutRun | internal/engine/queue_runtime.go:175-190 | no run after a shutdown opens the queue again, accepts or reserves a message or subscribes a session, and only burials and acks are still logged |
| Closing.StoppedRun | internal/engine/queue_runtime.go:383-389 | a distributor stops only at a closed queue, and a stopped one takes no further part in any run |
| Recovery.LiveFollowsLogIff | internal/storage/wal.go:177-192 | every message move but a cancellation changes the live messages, in order, as replay changes its list on reading the record, if and only if no other live message has the id of the one taken away |
| Recovery.ReplayStepIff | internal/engine/queue_runtime.go:98-173 | whatever ids clients choose, a step that is no cancellation keeps replay equal to memory if and only if it takes no message whose id another live one has |
| Recovery.RunFollowsLog | internal/engine/queue_runtime.go:98-481 | in every run of such steps, ids repeated or not, the live messages are what replay makes of the records written |
| Recovery.GiveBackReordersIff | internal/engine/queue_runtime.go:254-276 | a cancellation writes no record, and only reorders the live messages if and only if it finds a free slot or overwrites an empty message |
| Recovery.GiveBackOrderIff | internal/engine/queue_runtime.go:269 | a cancellation that finds room keeps the order of the live messages if and only if it was the last of them |
| Recovery.AgreementStep | internal/engine/queue_runtime.go:98-481 | replay and memory stay in agreement over every step, appended or not: same messages and retry counts, same order while nothing was cancelled |
| Recovery.GoneStepIff | internal/engine/queue_runtime.go:521-540 | a queue closed by `CloseIfEmpty` writes nothing on any step, and stays closed and empty if and only if the step does not cancel a reservation held since |
| Recovery.GoneRun | internal/engine/queue_runtime.go:521-540 | without such a cancellation, no run of a queue closed by `CloseIfEmpty` writes another record, whoever still refers to it |
| Conservation.ConservedShift | internal/engine/queue_runtime.go:424-479 | every message move that finds room, in any order, keeps accepted = live + acked + dead-lettered as multisets and the counters equal to them |
| Conservation.CancelConservesIff | internal/engine/queue_runtime.go:254-276 | a cancellation conserves messages if and only if its token is still in flight and the push finds a free slot or overwrites an empty message |
| Conservation.CancelConservesIffSafe | internal/engine/queue_runtime.go:254-276 | where every waiting message has an id: if and only if assumption (B) holds |
| Conservation.LineageShift | internal/engine/queue_runtime.go:429-469 | every message anywhere descends from an accepted one, and its retry count stays within the larger of the limit and the published count |
| Conservation.ConservationOverRuns | internal/engine/queue_runtime.go:65-481 | in every run under (B) and fresh tokens, whatever ids and retry counts are published: produced = queued + in flight + acked + dead-lettered, as counts and as messages; lineage kept |
| Conservation.ExactlyOnePlace | internal/engine/queue_runtime.go:98-481 | with accepted messages pairwise different, each is in exactly one of the four places, once |
| Conservation.StripIff | internal/engine/queue_runtime.go:451-452 | two messages count as the same exactly when everything but their retry counts agrees, which is all a requeue changes |
| Redelivery.AccountedShift | internal/engine/queue_runtime.go:451-469 | every safe move keeps the account: the redeliveries allowed to the accepted messages are those made, those still allowed and those left unused, for any limit and any published retry count |
| Redelivery.RedeliveriesAccounted | internal/engine/queue_runtime.go:424-479 | the account holds in every run under (B) and fresh tokens, so redeliveries stay within what the accepted messages allow |
| Redelivery.RedeliveriesBounded | internal/engine/queue_runtime.go:424-479 | under (D) as well: redeliveries made plus those still allowed are at most `MaxRetries` times the messages produced |
| Redelivery.FirstPublishBoundIff | internal/engine/queue_runtime.go:429-452 | a first publish meets that bound if and only if neither its retry count nor the limit is negative |
| Prefetch.CountsWithinRun | internal/engine/queue_runtime.go:207-276 | in every run with fresh tokens, whatever is cancelled and even with session ids subscribed again, no unacked count exceeds the deliveries in flight under its id |
| Prefetch.PrefetchExactStep | internal/engine/queue_runtime.go:314-346 | every step keeps unacked counts equal to deliveries in flight and those within the limit, if no id is resubscribed with deliveries in flight |
| Prefetch.SubscribeExactIff | internal/engine/queue_runtime.go:207-228 | subscribing keeps the counts exact if and only if nothing is in flight under the id |
| Prefetch.PrefetchLimit | internal/session/session.go:31-33 | in every such run no consumer, subscribed or gone, has more than the prefetch limit in flight |
| Signalling.NoLostWakeupIff | internal/engine/queue_runtime.go:382-481 | every step keeps "parked and unnotified means nothing deliverable" if and only if it is not the retry-exhausted branch freeing a full consumer with work waiting, or a failed append in the sweep with an eligible session |
| Signalling.DistributorNeverSleepsOnWork | internal/engine/queue_runtime.go:382-412 | in every run with fresh tokens and without those two, a parked and unnotified distributor has nothing it could deliver |
| Signalling.UnstrandedIff | internal/engine/queue_runtime.go:98-137 | every step keeps "free slots are at most the publishers already signalled" if and only if it is not a woken publisher's failed append using up the last signal |
| Signalling.PublishersNeverStranded | internal/engine/queue_runtime.go:102-107 | in every run with fresh tokens and without that, no publisher sleeps beside an unclaimed slot, and none sleeps on a closed queue |
| QueueRuntimes.QueueRuntime.constructor | internal/engine/queue_runtime.go:65-96 | holds the recovered messages in order, counts them as produced and has one wakeup pending |
| QueueRuntimes.QueueRuntime.Publish | internal/engine/queue_runtime.go:98-137 | one pass through the lock takes the machine's publish step; refused exactly on a closed queue, asleep exactly on a full open one, failed exactly if its one append failed; the message accepted has the request's payload and retry count, its id or a fresh one, the time of the clock, and with a TTL expires exactly from that much later on |
| QueueRuntimes.QueueRuntime.Ack | internal/engine/queue_runtime.go:139-173 | refused exactly when the token is not in the table, without touching the log; otherwise the record of its message is the one append asked for, and the answer is failure exactly if that failed; on success the token leaves the table and the machine takes the ack step |
| QueueRuntimes.QueueRuntime.Shutdown | internal/engine/queue_runtime.go:175-190 | the queue is closed, no session is left, every sleeping publisher has been woken, messages and log are as they were |
| QueueRuntimes.QueueRuntime.Subscribe | internal/engine/queue_runtime.go:207-228 | a new session goes to the end of the order with its count and wakes the distributor; refused exactly on a closed queue, nothing for a known id |
| QueueRuntimes.QueueRuntime.Unsubscribe | internal/engine/queue_runtime.go:230-247 | the session leaves the table and its place in the order, the others keep their order, and the cursor is taken modulo the new length |
| QueueRuntimes.QueueRuntime.CancelReservation | internal/engine/queue_runtime.go:254-276 | takes the cancel step: in flight or not, with a free slot or not, the message is pushed, its token leaves the table, one publisher and the distributor are woken |
| QueueRuntimes.QueueRuntime.NextSession | internal/engine/queue_runtime.go:278-312 | the scan terminates, returns the first session in cyclic order whose unacked count is below the limit, and, when every count has reached it, returns none and leaves the cursor where it was |
| QueueRuntimes.QueueRuntime.ReserveDelivery | internal/engine/queue_runtime.go:314-346 | sweeps and then reserves the head, which has no expiry or one after the time it was checked, for the chosen session, or goes back to waiting, with an error exactly if an append failed; the steps taken are a run of the machine |
| QueueRuntimes.QueueRuntime.DeadLetterExpiredMessages | internal/engine/queue_runtime.go:348-374 | moves to the dead letters, in order and with one record each, exactly the longest prefix of messages whose expiry the clock has reached; it fails exactly if an append failed, and then that was the record of the message it stopped at; nothing else changes |
| QueueRuntimes.SweepEffect | internal/engine/queue_runtime.go:352-374 | n sweep steps move the first n messages, in order, each expired when it was looked at |
| QueueRuntimes.SweepRecords | internal/engine/queue_runtime.go:359-365 | the sweep writes one record for each message it moves, in order |
| QueueRuntimes.QueueRuntime.ReceiveWakeup | internal/engine/queue_runtime.go:392-393 | takes the wakeup out of the channel and starts draining |
| QueueRuntimes.QueueRuntime.TimeOutOne | internal/engine/queue_runtime.go:424-479 | skips on a full queue, buries when retries are used up, else requeues with one more retry; the record is asked for first, and it reports failure exactly if that failed |
| QueueRuntimes.QueueRuntime.ProcessExpiredMessages | internal/engine/queue_runtime.go:414-481 | on an open queue, one timeout step for exactly the deliveries out for more than the timeout by the clock it read, which are those the machine can time out, each once, in whatever order the table yields them |
| QueueRuntimes.QueueRuntime.CloseIfEmpty | internal/engine/queue_runtime.go:521-540 | closes exactly a queue with nothing queued and nothing in flight |
| Topic.Match | internal/exchange/topic_exchange.go:15-44 | the loop over two indices answers what the recursion on segments `LoopMatch` answers |
| Topic.MatchCorrectIff | internal/exchange/topic_exchange.go:15-44 | for every key with `#` in last place only, the loop agrees with the wildcard meaning if and only if the routing key is not shadowed by a `#` segment of its own |
| Topic.MatchCorrect | README.md:250 | for routing keys with no `#` segment, the loop is the documented meaning: `*` one segment, `#` zero or more |
| Topic.ValidateBindingKey | internal/engine/mem_broker.go:246-272 | accepts exactly keys of 1 to 255 characters with non-empty valid segments and `#` in last place only |
| Topic.KeyCharacters | internal/engine/mem_broker.go:239-244 | the valid characters are exactly the ASCII letters and digits, the underscore and the hyphen |
| Topic.JoinSplit | internal/exchange/topic_exchange.go:16-17 | joining the segments of a key gives the key back |
| Topic.SplitJoin | internal/exchange/topic_exchange.go:16-17 | splitting joined segments gives the segments back |
| Topic.PlainKeyMatchesItself | internal/exchange/topic_exchange.go:15-44 | a key without wildcards matches exactly the routing key it equals |
| Exchange.PlainTopicIsDirect | internal/exchange/direct_exchange.go:13-25 | a topic exchange with no wildcard in its keys routes like a direct exchange, for every routing key |
| Exchange.RoutesCount | internal/exchange/topic_exchange.go:46-58 | with no binding twice, a queue is named as often as it has matching bindings |
| Exchange.RoutesMeaning | README.md:246-250 | a direct exchange reaches a queue if and only if one of its bindings has the routing key, and a topic exchange if and only if one of its patterns means it |
| Exchange.FanoutReachesAll | internal/exchange/fanout_exchange.go:13-23 | a fanout exchange names the queue of every binding, in order, whatever the key |
| Exchange.BaseExchange.CheckBindingExists | internal/exchange/base_exchange.go:30-37 | finds the binding if and only if it is there |
| Exchange.BaseExchange.HasBinding | internal/exchange/base_exchange.go:39-49 | finds a binding of the queue under the key, the empty key meaning any, if and only if there is one |
| Exchange.BaseExchange.Bind | internal/exchange/base_exchange.go:51-65 | adds the binding at the end unless it is there, and so keeps bindings distinct |
| Exchange.BaseExchange.Unbind | internal/exchange/base_exchange.go:67-83 | removes exactly the named bindings in place, and reports whether there were any |
| Exchange.BaseExchange.Route | internal/exchange/topic_exchange.go:46-58 | the queues of the matching bindings, in binding order |
| BrokerQueues.QueuesOkStep | internal/engine/mem_broker.go:134-224 | every step of the broker under (A) and (B), restarts, failed appends, deletions stopped part way and steps of deleted queues included, keeps log and memory in agreement on every queue and on which queues there are |
| BrokerQueues.AllGoneIff | internal/engine/mem_broker.go:177-180 | every step leaves the deleted queues closed and empty if and only if it does not cancel a reservation one of them holds |
| BrokerKnown.KnownStep | internal/engine/mem_broker.go:134-224 | every step keeps each queue but perhaps the default one known to the log, under its own name, whatever ids are published and whatever is cancelled |
| BrokerKnown.OnlyKnownIff | internal/storage/wal.go:173-194 | every step keeps the log from knowing a queue that does not exist, if and only if it is not a record of a deleted queue whose name is free |
| BrokerRuns.QueuesAreKnown | internal/engine/mem_broker.go:177-190 | in every run with restarts, replay has every queue there is; and, if nothing is cancelled onto a deleted queue, no other, so none is resurrected |
| Broker.AppendedAreSuccesses | internal/engine/mem_broker.go:150-155 | every step of the broker writes exactly the records it asked to write and was granted, in order |
| Broker.Capacity | internal/engine/mem_broker.go:87 | the larger of the configured size and the number of recovered messages |
| BrokerQueues.BootQueue | internal/engine/broker.go:57-63 | a start gives each queue exactly its recovered messages, within its capacity, and the records it writes change no queue's replay |
| BrokerQueues.OkIsRecoverable | internal/engine/broker.go:43-63 | any log the broker has written can be started from again |
| BrokerRuns.ReplayIsMemory | internal/storage/wal.go:172-192 | in every run across any number of restarts, each queue's replay is its in-flight messages in reservation order followed by its queue, retry counts included; as a multiset once a reservation was cancelled |
| BrokerRuns.CrashDuringStep | internal/engine/queue_runtime.go:118-161 | a crash at any point of a queue step, also between append and memory, restarts with the messages of just before or just after it, and no other queue changes |
| BrokerRuns.RecoversTo | internal/engine/broker.go:43-63 | a restart gives each queue its live messages and an empty in-flight table |
| BrokerRuns.Durable | internal/storage/wal.go:177-192 | no accepted publish is lost and no acked message comes back |
| BrokerRuns.RecoveredNonNegative | internal/engine/broker.go:57-59 | recovered messages keep retry counts that are not negative, so the redelivery bound holds again after a restart |
| BrokerTopology.TopologyStepIff | internal/engine/mem_broker.go:166-334 | every step keeps each logged exchange equal to its replay, in type and ordered bindings, and bindings valid, distinct and to existing queues, if and only if it is not a bind or unbind of a logged exchange whose record fails, or a deletion stopped at such an exchange or before another that still binds the queue |
| BrokerTopology.InterruptedIff | internal/engine/mem_broker.go:190-210 | the condition for a deletion stopped by a failed unbind record |
| BrokerTopology.BootTopology | internal/engine/broker.go:65-81 | a completed start rebuilds the recovered exchanges and bindings, and its longer log still replays to them |
| BrokerTopology.RestartIdempotent | internal/engine/broker.go:65-81 | the log after a completed start recovers exactly what the log before it did |
| BrokerTopology.RestartPossible | internal/engine/broker.go:65-74 | from a broker whose queues the log knows and whose exchanges it mirrors, a restart is refused nothing |
| BrokerRuns.TopologyIsReplayed | internal/engine/mem_broker.go:291-331 | in every run without those steps, whatever happens to messages and tokens, at every operation boundary each logged exchange replays to its exact type and ordered bindings, bindings are to existing queues, and a restart completes |
| BrokerRuns.RoutesReachQueues | internal/engine/mem_broker.go:356-382 | routes name only existing queues, each as often as it has matching bindings |
| BrokerTokens.TokensStep | internal/engine/mem_broker.go:92-103 | every step that draws a fresh token, if it draws one, keeps the token table the disjoint union of the queues' in-flight tokens, mapped to their owners, late cancellations on deleted queues included |
| BrokerRuns.TokensAreOwned | internal/engine/mem_broker.go:92-103 | so it is in every run with restarts in which tokens are drawn fresh |
| BrokerTokens.AckRetires | internal/engine/mem_broker.go:399-409 | a token in flight is acked only in the queue that issued it, and is in flight nowhere afterwards |
| BrokerTokens.RetiredStep | internal/engine/queue_runtime.go:139-147 | a token once issued and in flight nowhere stays so over every step that draws fresh tokens |
| BrokerRuns.AckedAtMostOnce | internal/engine/queue_runtime.go:139-161 | after a successful ack the token is in flight nowhere, after any further run with restarts |
| BrokerRuns.OwnerStable | internal/engine/mem_broker.go:399-409 | the owner found under the token lock stays the only queue that can ack the token, whatever happens before it does |
| MemBroker.InMemoryBroker.CreateQueue | internal/engine/mem_broker.go:134-164 | the machine's step; refused exactly for a name that is empty or longer than 255, a closed broker or an existing queue; failed exactly if its one append failed |
| MemBroker.InMemoryBroker.CreateExchange | internal/engine/mem_broker.go:533-561 | the machine's step; refused exactly for an invalid or reserved name, a type other than direct, fanout and topic, or an existing exchange; failed exactly if its one append failed |
| MemBroker.InMemoryBroker.DeleteExchange | internal/engine/mem_broker.go:563-589 | the machine's step; refused exactly for an invalid, reserved, unknown or still bound exchange; failed exactly if its one append failed |
| MemBroker.InMemoryBroker.BindQueue | internal/engine/mem_broker.go:274-305 | the machine's step, memory before log; refused exactly for an invalid key, an unknown exchange or queue, or an existing binding; failed exactly if its one append failed |
| MemBroker.InMemoryBroker.UnbindQueue | internal/engine/mem_broker.go:307-334 | the machine's step, memory before log; refused exactly for an unknown exchange or queue or if no binding of the queue has the key, the empty key meaning any; failed exactly if its one append failed |
| MemBroker.InMemoryBroker.DeleteQueue | internal/engine/mem_broker.go:166-224 | the machine's step with some order of visiting the exchanges, or its interrupted form exactly when an unbind record failed; refused exactly for the default queue, an unknown one or one that is not empty; the appends asked for are those of the step |
| MemBroker.InMemoryBroker.UnbindEverywhere | internal/engine/mem_broker.go:191-210 | visits every exchange once in some order, removes the queue's bindings and writes one record for each exchange that had any; a failed append stops it there |
| MemBroker.InMemoryBroker.Ack | internal/engine/mem_broker.go:399-409 | the owner queue's ack step; refused exactly when no owner has the token in flight, failed exactly if the one append of that step failed |
| MemBroker.InMemoryBroker.Shutdown | internal/engine/mem_broker.go:426-451 | the first shutdown is the run that closes the broker, shuts every queue down in some order and forgets every token, and writes nothing; a second one changes nothing |
| MemBroker.InMemoryBroker.Publish | internal/engine/mem_broker.go:356-382 | the broker takes exactly the publish steps of the copies sent, which go to the first queues that routing names, in order, and to all of them if and only if it reports so; otherwise it reports why it stopped, and the state after that: asleep at a full queue, refused, or not logged; each copy is the payload with its id kept or made, its time and its expiry |
| MemBroker.InMemoryBroker.SendAll | internal/engine/mem_broker.go:368-379 | the same from any queue of the list on, for a publisher that has just looked it up or that slept there and was woken |
| MemBroker.InMemoryBroker.PassAt | internal/engine/mem_broker.go:374-376 | one pass at a queue is one publish step; asleep exactly at a full open queue, refused exactly by a closed one |
| FanOut.FannedIsRun | internal/engine/mem_broker.go:368-379 | a fan-out is the run of the broker that takes its publish steps in order |
| FanOut.FannedLog | internal/engine/mem_broker.go:368-379 | it writes one record for each copy, in order, and changes nothing but buffer, counters, history and wakeup of the queues it reached |
| FanOut.FannedAsks | internal/engine/mem_broker.go:374-376 | it asks for one append for each copy, in order, and all of them succeeded |
| FanOut.FannedGrows | internal/engine/mem_broker.go:368-379 | where no buffer is past its capacity, each queue holds what it held, followed by the copies sent to it |
| FanOut.CopiesMatchBindings | internal/engine/mem_broker.go:356-382 | a publish that sent every copy gives each queue, at its tail, as many as it has matching bindings |
| QueueTables.QueueTable.Add | internal/engine/mem_broker.go:77-106 | a new runtime for the given messages with room for them, sharing nothing with the others but log and clock |
| QueueTables.QueueTable.CloseIfEmpty | internal/engine/mem_broker.go:177-180 | the runtime is closed exactly if it is empty, and no other queue changes |
| QueueTables.QueueTable.Shutdown | internal/engine/mem_broker.go:439-441 | the runtime is shut down and no other queue changes |
| QueueTables.QueueTable.Ack | internal/engine/queue_runtime.go:139-173 | the runtime takes the ack step, the log is asked for that step's append and grows by its record, and no other queue changes |
| QueueTables.QueueTable.Publish | internal/engine/queue_runtime.go:98-137 | the runtime takes the publish step, the log grows by its record, and no other queue changes |
| MemBroker.RebuildQueues | internal/engine/broker.go:57-63 | a runtime for every recovered queue and for the default queue, with capacity for what was recovered |
| MemBroker.InMemoryBroker.RestoreExchange | internal/engine/broker.go:65-74 | recreates the exchange with its ordered bindings and writes the records for it, and refuses only what its own checks refuse |
| MemBroker.RestoreAll | internal/engine/broker.go:65-75 | recreates every recovered exchange in some order; refused only if the recovered state is not acceptable, failed exactly if an append failed |
| MemBroker.NewBroker | internal/engine/broker.go:43-84 | a completed start is exactly `Boot` of the log; a start is refused only for a recovered state its checks refuse, and failed exactly if an append failed |
| BrokerLimits.FailedBindRun | internal/engine/mem_broker.go:291-302 | a run from the empty log to a bind whose failed record leaves log and memory apart |
| BrokerLimits.FailedUnbindRun | internal/engine/mem_broker.go:321-331 | the same for an unbind |
| BrokerLimits.InterruptedRun | internal/engine/mem_broker.go:202-209 | the same for a deletion stopped by a failed unbind record |
| BrokerLimits.CrashMidDeleteIff | internal/engine/mem_broker.go:182-210 | after a crash right behind a deletion's first record the broker can start if and only if no logged exchange binds the queue |
| BrokerLimits.CrashMidDeleteRun | internal/engine/mem_broker.go:182-210 | a run from the empty log to a deletion whose crash makes the next start fail |
| Limits.HashSegmentExample | internal/exchange/topic_exchange.go:24-33 | key `a.#` means `a.#.b`, and the loop refuses it |
| Limits.RepeatedIdRun | internal/storage/wal.go:123-127 | a run that publishes one id twice and acks one copy: one is left in the queue, and its emitted records replay to none |
| Limits.LostWakeupRun | internal/engine/queue_runtime.go:429-449 | a run that satisfies (A) and (B) and ends with the distributor asleep in front of a deliverable message |
| Limits.FailedSweepRun | internal/engine/queue_runtime.go:318-320 | the same through a failed append in the expiry sweep |
| Limits.DuplicateRun | internal/engine/queue_runtime.go:254-276 | a run after which cancelling the held reservation duplicates its message |
| Limits.FullCancelRun | internal/engine/queue_runtime.go:269-338 | a run that satisfies (A) and (B), after which cancelling the held reservation, still in flight, overwrites an accepted message and leaves an empty one |
| BrokerLives.LivesStep | internal/engine/mem_broker.go:134-224 | every step of the broker extends the run of the queue it is about, from that queue's creation or the last start, and of no other |
| BrokerLives.QueueIsRun | internal/engine/mem_broker.go:77-106 | every queue of every broker run with restarts is the end of a run of the delivery machine, with fresh tokens and safe cancellations if the broker's are |
| BrokerLives.QueuesConserve | internal/engine/queue_runtime.go:424-479 | conservation, lineage and the account of redeliveries in every queue of every such broker run |
| BrokerLives.QueuesPrefetch | internal/session/session.go:31-33 | the prefetch limit in every queue of every broker run in which that queue reused no session id over its deliveries |
| BrokerLives.QueuesAwake | internal/engine/queue_runtime.go:382-412 | no distributor of a broker run sleeps on work, if its queue took neither step that loses a wakeup |
| BrokerLives.QueuesUnstranded | internal/engine/queue_runtime.go:102-107 | no publisher of a broker run is stranded, if its queue did not take the step that strands one |
| BrokerLimits.ResurrectedRun | internal/engine/queue_runtime.go:254-276 | a run from the empty log in which a reservation is cancelled onto a deleted queue and expires there, after which replay has the queue and memory does not |
| Limits.ResurrectRun | internal/engine/queue_runtime.go:254-276 | the same at the queue: a run to a closed empty queue on which cancelling the held reservation leads to one more record |
| Limits.LateRecordRevives | internal/storage/wal.go:188-194 | such a record after a deletion makes replay have the queue again |
| Limits.NegativeRetryRun | internal/engine/queue_runtime.go:429-469 | a run that satisfies (A) and (B) in which a message published with a retry count of -1 is redelivered under a limit of zero |
| Limits.StaleIdRun | internal/engine/queue_runtime.go:207-228 | a run in which one consumer holds two deliveries under a limit of one |
| Limits.StrandedRun | internal/engine/queue_runtime.go:102-126 | a run that ends with a publisher asleep beside a free slot and nobody signalled |

## Left out

- QueueRuntime.ReserveDelivery: requires the token drawn not to be in flight, which is assumption (A).
- QueueRuntime.NextSession: the branch that resets a cursor beyond the order is left out, because the invariant shows the cursor never is.
- InMemoryBroker.SendAll: a publisher that slept goes on with the queue it finds under the name; one whose queue was deleted while it slept appears as a step of that deleted queue in the broker machine only.
- InMemoryBroker.DeleteQueue: the second closing of the deleted queue at the end, which changes nothing, is left out.
- Consumer sessions are values, an unacked count by id, not shared objects: one session object subscribed to two queues, and its closed channel, are not captured.
- The token table maps tokens to queue names where the source maps them to queue objects, and the hooks by which a distributor's reservation or a sweep changes it are part of the broker machine's steps, not of a method.
- The endless loop of `RunDistributor` and the send on a session's channel appear as steps of the machine (wake, reserve, send, cancel, park, stop), not as a method; stopping by a cancelled context while the queue is open is left out.
- Mutexes, goroutines and condition variables: steps are atomic at lock boundaries; only the one-slot channel and the counts of sleeping and signalled publishers are kept.
- Tokens and generated ids are parameters or arbitrary values, and time is an integer clock that never runs backwards; the timeout sweep reads it once.
- JSON encoding, files, fsync and torn or undecodable records: the log is a sequence of records and a failed append leaves it unchanged.
- Crashes in the middle of `NewBroker`, and of `DeleteQueue` beyond its first record; a deletion stopped by a failed append, without a crash, is a step of the broker.
- Bindings on the default exchange across a restart: replay never sees a record creating that exchange, so only its one standard binding comes back.
- The empty queue name as an alias of the default queue in client requests.
- Lengths of names and keys are counted in characters, where the source counts bytes.
- The server, client, command line, protocol and logger.
- Metrics, listings and reading the dead-letter queue, which would only add easy members.
