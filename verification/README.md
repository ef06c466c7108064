# mhub, verified

mhub is an MQTT V3.1 message broker. This project models its core in Dafny: the subscription index
and topic matcher, the dispatch workers with their retained messages, the QoS 1 in-flight store, the
two loops of a client session, the registry of client ids, and replication between brokers.
`dafny verify dfyconfig.toml` checks all of it.

## How it is built

Code that updates objects in place is modelled on the heap. `Subscriptions.dfy` holds the index with Go
slices as lengths over shared arrays, so that `append` writes into spare capacity that others may see.
Its methods are proved to do to every cell of every array what `SharedIndex.dfy` says on plain values,
and that is proved to stand for one flat list of subscriptions (`FlatIndex.dfy`). `Worker.dfy`,
`Store.dfy`, `JobQueue.dfy`, `Peers.dfy` and `Client.dfy` hold the other stateful objects and loops.

Code that runs concurrently is modelled as a state machine: a datatype of states, a datatype of events,
and a function `Next` that gives the state after an event, or nothing if the event is not possible. A run
is a sequence of events, and theorems hold after every run, that is, for every interleaving. `Runs.dfy`
and `Sums.dfy` hold the reasoning that all machines share.

| file | what it models |
|---|---|
| `Topics.dfy`, `Wildcards.dfy` | splitting topics, validity and matching of filters |
| `FlatIndex.dfy` | the index as one list of (filter, connection) pairs: the specification |
| `SharedIndex.dfy`, `Subscriptions.dfy` | the two-tier index with its arrays: on values, and on the heap |
| `Retain.dfy`, `Dispatch.dfy`, `Worker.dfy` | retained messages and dispatch workers: all interleavings, and one worker on the heap |
| `Fanout.dfy`, `Blocking.dfy` | dispatch together with the index: workers read their lists while clients change it, and wait for queues and the lock |
| `Store.dfy` | key codec, memory store, what is persisted |
| `JobQueue.dfy`, `Session.dfy`, `Resume.dfy` | the bounded job channel, the two loops of a session, resuming a session |
| `Connections.dfy`, `Takeover.dfy`, `Quota.dfy`, `Client.dfy` | registry, teardown, takeover, subscription quota |
| `Cluster.dfy`, `Peers.dfy` | replication in a full mesh |
| `KeepAlive.dfy` | the keep-alive timer |

## Where the code and its evident intent differ

The model does what the code does. The theorems named below say what follows, and give runs or inputs
where it happens.

- `run` returns after it has deleted a retained message, so that worker is gone. Under block a worker also
  waits at full client queues, and for the lock of the index. With a post waiting, some worker can move exactly
  if the deletions handled and the workers that wait are together fewer than the workers:
  `Blocking.ProgressIff`, `Blocking.ProgressUnderDiscard`, `Dispatch.DeletionsEndEveryWorker`.
- `sendRetain` waits at a full queue with that lock in its hands. If the outbound loop of the client has ended,
  nobody ever gets the lock again, and all dispatch stops: `Blocking.LockedUpForGood`,
  `Blocking.OneClientStopsEveryWorker`.
- `unsub` never removes a wildcard subscription, and `subN` counts it down all the same:
  `Quota.UnsubscribeSlack`, `Quota.IdleUnsubscribeBreaksTheCount`.
- `doPublishAck` does nothing, although a comment in `store.go` says that a sent message is kept until its
  PUBACK is received. Only another CONNECT with CleanSession removes it: `Session.SentMessageIsKeptIff`,
  `Session.AcknowledgedMessageStays`.
- The list `subscribers` returns may share an array with the index, and workers read it after the lock is
  released. A later call can change unread cells, and then the post does not go to the receivers that were
  selected: `SharedIndex.HeldListStays`, `Fanout.FinishedFanOut`, `Fanout.NewcomerTakesTheCell`.
- `del` removes a client id without asking who holds it, so a displaced session can unregister its
  successor: `Takeover.TakeoverOutcome`, `Takeover.LateTeardownUnregisters`.
- Resuming resends messages of both directions while the outbound loop stores them under outbound keys. If
  one id is held in both directions, a stored message can be lost: `Resume.InconsistentStoreCanLoseAMessage`.
- If the outbound loop ends before the inbound loop, a late subscription or a late `add` is never removed:
  `Connections.EarlyTeardownLeaks`, `Connections.LateAddLeaks`. A second CONNECT under another id leaves the
  first one registered: `Connections.SecondConnectLeaks`. Nothing else keeps a connection registered
  after its own `del`: `Connections.LeakHasTwoCauses`.
- A newcomer sends a DISCONNECT to the holder of its id and waits for it to be written. If the holder's
  inbound loop has already ended, that is a send on a closed channel, which panics; the holder may still be
  registered then: `Connections.HolderMayHaveEnded`. If the holder's outbound loop has ended without
  draining its queue, the newcomer waits for ever: `Session.QuitIsFinal`.
- The worker clears the Retain flag of the object that replication queues for the peers. The cluster results
  therefore speak of the identity, topic and payload of a message, not of the flag a peer sees.

## Model

| member | source | states |
|---|---|---|
| `Topics.Split` | broker/wild.go:12-14 | Splitting at slashes gives at least one level, none with a slash, and joining them restores the topic. |
| `Topics.JoinIsUndoneBySplit` | broker/wild.go:12-14 | Splitting a join of slash-free levels restores the levels. |
| `Topics.SplitIsInjective` | broker/wild.go:12-14 | Two topics with the same levels are the same topic. |
| `Topics.WildcardIsPerLevel` | broker/wild.go:16-21 | A topic is a wildcard filter iff one of its levels is. |
| `Wildcards.WellFormedIsPerLevel` | broker/wild.go:23-35 | The grammar of filters agrees with the level-by-level scan. |
| `Wildcards.WellFormedByCharacters` | broker/wild.go:16-35 | A filter is valid iff each level is "+", or "#" at the end, or has neither character in it. |
| `Wildcards.Valid` | broker/wild.go:23-35 | The scan accepts exactly the filters of the grammar. |
| `Wildcards.Matches` | broker/wild.go:37-64 | The loop computes the recursive meaning of every valid filter, the parent level of "#" included, and its own rule on every other one. |
| `Wildcards.ScanIsMatch` | broker/wild.go:37-64 | On valid filters the loop's rule and the meaning agree. |
| `Wildcards.MatchIsMatchByLevels` | broker/wild.go:37-64 | The recursive meaning agrees with a condition on levels without recursion. |
| `Wildcards.LiteralMatchesOnlyItself` | broker/wild.go:37-64 | A filter without wildcards is valid and matches exactly its own topic. |
| `Wildcards.CoveringFilterMatchesMore` | broker/wild.go:23-64 | Turning levels into "+" or a tail into "#" loses no topic. |
| `Wildcards.InclusionIsSyntactic` | broker/wild.go:23-64 | A valid filter matches every topic another one does if it generalises it in that way, or they are "+/#" and "#"; otherwise some topic without wildcards tells them apart. |
| `FlatIndex.ReceiversAreTheMatching` | broker/subs.go:108-124 | Exact subscribers followed by wildcard subscribers are all matching pairs, with their multiplicities. |
| `FlatIndex.HistoryDecidesContents` | broker/subs.go:94-172 | After any updates a pair is live as often as it was added since it was last removed; an invalid filter never is. |
| `FlatIndex.AcceptedByCharacters` | broker/wild.go:16-35 | The same for whole filters, and a topic is an exact one iff it has neither '#' nor '+' in it. |
| `FlatIndex.TwoTiersAreReceivers` | broker/subs.go:108-124 | The lists of the two tiers, put together, are the receivers of the flat list. |
| `SharedIndex.AddOk` | broker/subs.go:94-105 | Adding to the map of slices or to the filters keeps the index in step with the flat list; an invalid filter changes neither. |
| `SharedIndex.AddGoesTo` | broker/subs.go:94-105 | A topic without '#' and '+' goes to the end of its own list, a valid filter to the end of the scanned list, any other nowhere. |
| `SharedIndex.UnsubOk` | broker/subs.go:150-172 | Striking a list, and dropping it when all nil, is removing the exact pair; a wildcard filter changes nothing. |
| `SharedIndex.UnsubAllOk` | broker/subs.go:127-147 | Striking all lists and filters is removing every pair of the connection. |
| `SharedIndex.EmptyListGoes` | broker/subs.go:127-172 | `unsub` drops the list of its topic iff nothing but nils is left of it, and no other; `unsubAll` drops none. |
| `SharedIndex.LookupViews` | broker/subs.go:108-124 | A lookup leaves the list of every topic as it was, although it writes into spare capacity. |
| `SharedIndex.LookupLists` | broker/subs.go:108-124 | What it returns reads as the exact list followed by the wildcard hits, in the topic's array or a new one. |
| `SharedIndex.ListedAreReceivers` | broker/subs.go:108-124 | The live entries of that are the receivers of the flat list, in order. |
| `SharedIndex.ApplyIsOp` | broker/subs.go:94-172 | Every call, lookups included, keeps the index sound, no two topics in one array among it, and does to the flat list what is specified. |
| `SharedIndex.ChangedCell` | broker/subs.go:94-172 | Exactly which cell of an array each call changes: `add`, `unsub`, `unsubAll` or another lookup. |
| `SharedIndex.ChangedTo` | broker/subs.go:94-172 | What a call leaves in a cell it changes: the newcomer, nil, or the wildcard subscriber it lists there. |
| `SharedIndex.HeldListStays` | broker/subs.go:94-172 | A list in use goes on showing the same connections through any next call iff the call changes none of its cells. |
| `SharedIndex.SecondLookupAgrees` | broker/subs.go:108-124 | A lookup directly after another of the same topic changes no cell of the first list. |
| `SharedIndex.NewcomerOverwrites` | broker/subs.go:94-124 | An index whose list lies in spare capacity, and a subscription that overwrites its first wildcard subscriber. |
| `SharedIndex.SecondLookupOverwrites` | broker/subs.go:108-147 | A subscriber leaves and the topic is looked up again: the first list now holds another subscriber twice. |
| `SharedIndex.ThirdLookupRestores` | broker/subs.go:94-147 | They change places and the topic is looked up once more: the first list is as it was, so a changed cell may be right again when it is read. |
| `SharedIndex.CrowdIsReachable` | broker/subs.go:94-105 | Seven subscriptions lead to that index when full lists double their capacity, as the Go runtime lets short ones do. |
| `Subscriptions.Append` | broker/subs.go:94-124 | Go's append: in place while there is capacity, otherwise a new array; every cell of both. |
| `Subscriptions.Strike` | broker/subs.go:150-172 | Exactly the references to one connection become nil, and the count tells whether all entries are nil. |
| `Subscriptions.Subscriptions.constructor` | broker/subs.go:10-17 | A new index represents the empty list. |
| `Subscriptions.Subscriptions.Add` | broker/subs.go:94-105 | Every array, slice and filter is as the specified call leaves it, and the index stands for the list with the pair appended, or the same list for an invalid filter. |
| `Subscriptions.Subscriptions.Unsub` | broker/subs.go:150-172 | The same for removing an exact pair; a wildcard filter changes nothing. |
| `Subscriptions.Subscriptions.UnsubAll` | broker/subs.go:127-147 | The same for removing every pair of a connection. |
| `Subscriptions.Subscriptions.Subscribers` | broker/subs.go:108-124 | The live entries of the result are the receivers in order; every array is as specified, spare capacity included, and so is where the result lies. |
| `Subscriptions.Replay` | broker/subs.go:94-172 | Any history of calls on the heap, lookups among them, leaves what it leaves of the flat list, and no two topics in one array. |
| `Subscriptions.ReplayThenSubscribers` | broker/subs.go:94-172 | After any history the receivers of a topic are those of the flat list, in order and with multiplicities. |
| `Subscriptions.PerformWhileHeld` | broker/subs.go:94-172 | On the heap, a list handed out earlier survives the next call iff that call changes none of its cells, and can be followed through the call after it. |
| `Retain.RememberedIsTheLast` | broker/subs.go:39-75 | Folding posts keeps for each topic its last retained post, unless that was empty. |
| `Worker.Broker.Process` | broker/subs.go:39-75 | A post loses its flag, is submitted to exactly the receivers of its topic in order, and kept with the flag set if it was retained; a deletion clears the topic and ends the worker. |
| `Worker.FanOutsAreInOrder` | broker/subs.go:59-63 | Fan-out is one submission to each receiver, in order. |
| `Worker.Broker.SendRetain` | broker/subs.go:78-92 | A subscriber of an exact topic gets a fresh copy of the retained message with the flag set, or nothing. |
| `Worker.Broker.Run` | broker/subs.go:36-76 | Posts are taken up to and including the first deletion, submitted to their receivers in order, and folded into the retained map; what is submitted has the right flag. |
| `Worker.TakenFrom` | broker/subs.go:50-55 | How far a worker gets: nothing before the last post it takes is a deletion, and it stops early only at one. |
| `Dispatch.ReachableInv` | broker/subs.go:36-92 | The invariant of the worker machine: where each message is, what its object holds, what is retained, who has ended. |
| `Dispatch.PostsAreTakenInOrder` | broker/subs.go:32-39 | In every run the posts taken, then those waiting, are the posts in the order they were posted. |
| `Dispatch.RetainedIsTheLastUpdate` | broker/subs.go:39-75 | In every run with any number of workers the retained message of a topic is its last locked update, filed under its topic with the flag set. |
| `Dispatch.SendRetainSubmitsTheLast` | broker/subs.go:78-92 | `sendRetain` submits exactly that message for an exact topic, or nothing. |
| `Dispatch.FlagsOfSubmittedMessages` | broker/subs.go:45-92 | In every run what fan-out submitted has Retain false, what `sendRetain` submitted has it true. |
| `Dispatch.SubmittedMessagesNeverChange` | broker/subs.go:45-92 | Once submitted, a message never changes, although its object is shared. |
| `Dispatch.DeadBrokerStaysDead` | broker/subs.go:36-55 | When all workers have ended, nothing is dispatched or retained any more. |
| `Dispatch.DeletionsEndEveryWorker` | broker/subs.go:50-55 | For any number of workers, a run of deletions that ends them all with a post waiting. |
| `Fanout.TouchKeeps` | broker/subs.go:57-63 | Through any call the dirty cells of a list in use, told from the call and the index before it, are exactly the unread ones that differ from what was selected. |
| `Fanout.ReadDecides` | broker/subs.go:57-63 | A list read to its end shows what was selected iff no cell was read while it was dirty. |
| `Fanout.ReachableInv` | broker/subs.go:36-172 | In every run of workers and clients the index is sound and every list in use is accounted for. |
| `Fanout.RunProjects` | broker/subs.go:36-92 | Every such run is a run of the workers alone, so their theorems hold in it. |
| `Fanout.FinishedFanOut` | broker/subs.go:57-63 | In every interleaving a finished post was submitted to exactly the receivers at its lookup iff no cell was read while the last call to change it had left it different; a deletion was submitted to nobody. |
| `Fanout.NewcomerTakesTheCell` | broker/subs.go:57-63 | A run in which a newcomer gets the post instead of a wildcard subscriber that was selected. |
| `Blocking.RunProjects` | broker/subs.go:36-172 | Every run with waiting is a run of workers and clients without it, so their theorems hold in it. |
| `Blocking.QueuesFillAndFree` | broker/session.go:270-288 | When a connection comes to make its submitters wait, and when it stops. |
| `Blocking.SubmissionNeedsRoom` | broker/session.go:276-279 | Nothing is submitted to a connection that makes its submitters wait. |
| `Blocking.WaitingSendRetainGoesOn` | broker/subs.go:78-92 | In every run a `sendRetain` that waits has a message, and once there is room it submits that one and gives the lock back. |
| `Blocking.ReachableWaits` | broker/session.go:276-287 | Under discard no queue makes anybody wait and nobody waits with the lock. |
| `Blocking.FreeWorkerMoves` | broker/subs.go:36-76 | With a post waiting, a worker that has not ended and waits for nothing can move. |
| `Blocking.WaitingWorkerDoesNot` | broker/subs.go:36-76 | A worker that has ended, or waits for the lock or at a full queue, cannot. |
| `Blocking.ProgressIff` | broker/subs.go:36-92 | In every run with a post waiting, some worker can move iff the deletions handled and the workers that wait are together fewer than the workers. |
| `Blocking.ProgressUnderDiscard` | broker/subs.go:36-55 | Under discard, iff there were fewer deletions than workers. |
| `Blocking.LockedUpForGood` | broker/subs.go:78-92 | If `sendRetain` waits at a queue whose outbound loop has ended, then for ever after nothing is looked up, subscribed to, retained, deleted or sent as retained. |
| `Blocking.OneClientStopsEveryWorker` | broker/subs.go:78-92 | For any number of workers, a run without deletions in which one such client brings them all to wait, with a post left. |
| `Store.AtoiOfItoa` | broker/store.go:46-61 | Decimal parsing undoes decimal printing for every number that fits an int64. |
| `Store.AtoiOfSigned` | broker/store.go:46-51 | Parsing takes one sign and digits, and gives the nearest int64. |
| `Store.AtoiOfOther` | broker/store.go:46-51 | Anything else counts as 0. |
| `Store.KeyCodec` | broker/store.go:46-61 | The id is recovered from both keys, which start with "i." and "o.", so the first character tells the direction. |
| `Store.KeysAreDistinct` | broker/store.go:53-61 | Both encoders are injective and never give the same key. |
| `Store.MemoryStore.Get` | broker/memstore.go:40-45 | The stored message, or none. |
| `Store.MemoryStore.All` | broker/memstore.go:47-57 | Every key exactly once, in no fixed order. |
| `Store.ClientStores.GetClientStore` | broker/store.go:29-38 | An id keeps its store across connections, a new id gets an empty one, no two ids share one. |
| `Store.ClientStores.DelClientStore` | broker/store.go:40-44 | The id has no store any more; the others keep theirs. |
| `Store.PersistOutbound` | broker/store.go:63-76 | The heap store after an outgoing message is the specified one. |
| `Store.PersistInbound` | broker/store.go:78-92 | The heap store after an incoming message is the specified one. |
| `Store.PersistTouches` | broker/store.go:63-92 | One call opens or closes one exchange and leaves all others. |
| `Store.StoreIsOpenExchanges` | broker/store.go:63-92 | After any calls a key is present iff its last opening is later than its last closing, with the message that opened it. |
| `Store.StoreIsWellKept` | broker/store.go:63-92 | After any calls every entry is a QoS 1 PUBLISH under a key of its own id. |
| `JobQueue.SubmitOutcome` | broker/session.go:270-288 | `submit` waits iff the connection is alive, the strategy is block and the channel full; otherwise the message is queued last iff the connection is alive and has room. |
| `JobQueue.SubmitSyncOutcome` | broker/session.go:292-296 | `submitSync` waits iff the channel is full, whatever the strategy. |
| `JobQueue.SubmitIsSubmitted` | broker/session.go:270-288 | `submit` queues the job, or refuses it only when full and only under discard; nothing on a dead connection. |
| `JobQueue.AcceptedIsSubsequence` | broker/session.go:270-288 | Accepted jobs are a subsequence of the offered ones. |
| `JobQueue.BlockAcceptsAll` | broker/session.go:276-279 | In every sound channel under block the accepted jobs are the offered ones. |
| `JobQueue.Channel.Send` | broker/session.go:270-288 | The heap channel: it has to wait iff alive, block and full; the message is queued last iff alive and room; on a dead connection nothing changes. |
| `JobQueue.Channel.Receive` | broker/session.go:144-148 | The oldest job leaves the channel. |
| `JobQueue.Channel.Close` | broker/session.go:48-58 | The connection is dead and the channel closed; queued jobs stay. |
| `Session.QueueReachable` | broker/session.go:125-199 | The invariant of the two loops: everything accepted is written, failed, in hand or queued, in that order. |
| `Session.QueueOrder` | broker/session.go:125-199 | In every run that sequence is the submitted one under block and a subsequence under discard, with refusals only at a full queue, at most one failed write, and the queue within its capacity. |
| `Session.ReceiptsAreClosedOnce` | broker/session.go:144-191 | Each receipt is closed at most once and only for a job that was taken. |
| `Session.KickedClientIsDisconnected` | broker/session.go:160-191 | A receipt is closed iff its DISCONNECT was written or its write failed, and either ends the outbound loop. |
| `Session.KickIsQueued` | broker/session.go:292-296 | A kick queues a DISCONNECT last if the channel is open and has room. |
| `Session.DisconnectIsLast` | broker/session.go:144-191 | Nothing is written after a DISCONNECT. |
| `Session.QuitIsFinal` | broker/session.go:125-199 | After the outbound loop has ended nothing more is written and no receipt is closed. |
| `Session.RequestsAreAnswered` | broker/session.go:83-113 | PINGREQ, UNSUBSCRIBE, CONNECT and QoS 1 PUBLISH get their answers where the loop is due to give them, unless that has to wait, and the loop reads on. |
| `Session.AnswersHaveTheirPlace` | broker/session.go:83-113 | Nowhere else, and a QoS 0 PUBLISH has no answer. |
| `Session.RequestsAreTakenUp` | broker/session.go:60-123 | Where the inbound loop takes up a request or ends, and what that does to it, the store and the channel. |
| `Session.OthersSubmit` | broker/session.go:270-288 | When dispatch, replies and resuming can submit, and what that queues. |
| `Session.OutboundLoopGoesOn` | broker/session.go:144-197 | The outbound loop can go on iff it has not ended and does not wait for a job, and how each way of ending it ends. |
| `Session.StoredMessageIsOwedAnAck` | broker/proto.go:108-146 | In every interleaving of a clean session a stored inbound message is the one being published, or its PUBACK is queued, in hand, or was discarded. |
| `Session.ReceivedMessageIsKeptIff` | broker/proto.go:108-136 | In every run the inbound half holds exactly the last QoS 1 message received for each id whose PUBACK has not been sent since, nor a clean CONNECT received. |
| `Session.OneAckPerReception` | broker/proto.go:129-136 | In every run one PUBACK is submitted for each QoS 1 message received, and no other. |
| `Session.DrainedSessionOwesNothing` | broker/proto.go:108-146 | Once the outbound loop has drained, a stored inbound message means that its PUBACK was discarded, so under block none is left. |
| `Session.SentMessageIsKeptIff` | broker/proto.go:148-154 | In every run the entry of a sent message is in the store iff it was sent and no further clean CONNECT has come since. |
| `Session.SentMessageIsNeverForgotten` | broker/proto.go:148-154 | So without such a CONNECT it stays, whatever the client acknowledges. |
| `Session.AcknowledgedMessageStays` | broker/proto.go:148-154 | A run in which a message is sent and acknowledged, and is still in the store. |
| `Resume.ResumeIsComplete` | broker/proto.go:66-94 | Before the CONNACK every stored message was submitted exactly once, in every interleaving with the outbound loop; a clean session submits none and has an empty store. |
| `Resume.InconsistentStoreCanLoseAMessage` | broker/proto.go:66-94 | If one id is held in both directions by different messages, some run submits one of them twice and the other never. |
| `Connections.StepIsPossibleIff` | broker/proto.go:19-106 | What a connection may do when: `doConnect` in order, requests around it, teardown once. |
| `Connections.StopIsRequestedIff` | broker/proto.go:170-175 | A stop is requested iff a SUBSCRIBE topic takes the count above the limit. |
| `Connections.TornDownHolds` | broker/session.go:125-136 | The teardown invariant holds in every run, for every connection. |
| `Connections.GoneIsFinal` | broker/session.go:125-136 | A connection that is torn down and whose inbound loop has ended never changes again. |
| `Connections.TeardownIsClean` | broker/session.go:45-58 | With one CONNECT and the documented order, a torn down connection is in no registry entry and in no index entry, and selected for no topic, then and ever after. |
| `Connections.IndexIsItsHistory` | broker/proto.go:156-204 | The index of a run is that of the updates among its events. |
| `Connections.InIndexIffSubscribedSince` | broker/subs.go:94-172 | In every run a connection is in the index iff it subscribed to a valid filter since that subscription was last removed. |
| `Connections.EarlyTeardownLeaks` | broker/session.go:125-136 | A run in the other order that leaves a subscription in the index. |
| `Connections.SecondConnectLeaks` | broker/session.go:248-268 | A run with two CONNECTs that leaves a registry entry. |
| `Connections.RegistryIsItsHistory` | broker/session.go:248-268 | In every run an id is mapped to a connection iff the last event that wrote or deleted its entry was an `add` by that connection. |
| `Connections.RegisteredIffAddedLast` | broker/session.go:248-268 | So a connection is registered, torn down or not, iff some id was last touched by its `add`. |
| `Connections.LeakHasTwoCauses` | broker/session.go:125-136 | A connection registered after its own `del` added the id later, or had sent a CONNECT under another id in between. |
| `Connections.LateAddLeaks` | broker/proto.go:52-60 | A run with one CONNECT in which the outbound loop ends between the two `add`, and the entry stays. |
| `Connections.HolderMayHaveEnded` | broker/proto.go:52-60 | A run in which a newcomer displaces a registered holder whose inbound loop has ended. |
| `Takeover.DisplacedSessionNeverReturns` | broker/proto.go:52-60 | In every interleaving, once the newcomer has unregistered the holder, the id is the newcomer's or nobody's. |
| `Takeover.AfterFinalAdd` | broker/session.go:248-268 | After the newcomer's final `add` the id is registered iff the holder's `del` has not happened since. |
| `Takeover.TakeoverOutcome` | broker/proto.go:52-60 | The newcomer ends up registered iff the holder's `del` did not come after its final `add`; otherwise nobody is. |
| `Takeover.EstablishedSession` | broker/proto.go:19-106 | One CONNECT reaches the state the takeover results start from. |
| `Takeover.LateTeardownUnregisters` | broker/proto.go:52-60 | A run from there in which the holder's `del` comes last and the id is nobody's. |
| `Quota.SlackStep` | broker/proto.go:156-204 | What each step does to the difference between the counter and what is held. |
| `Quota.SlackIsBooked` | broker/proto.go:156-204 | In every run that difference is the refused filters, plus surplus copies dropped, plus what teardown dropped, less the idle UNSUBSCRIBEs. |
| `Quota.CounterBoundsIff` | broker/proto.go:170-201 | So the client holds no more than `subN` iff the idle UNSUBSCRIBEs are no more than the rest. |
| `Quota.UnsubscribeSlack` | broker/proto.go:194-204 | An UNSUBSCRIBE lets the counter fall behind iff its topic is not an exact one the client holds. |
| `Quota.OtherStepsKeepSlack` | broker/proto.go:156-192 | No other step lets the counter fall behind. |
| `Quota.QuotaIsKept` | broker/proto.go:170-181 | If every UNSUBSCRIBE is for an exact topic held, live subscriptions never exceed `subN`, nor the limit before a stop is requested. |
| `Quota.IdleUnsubscribeBreaksTheCount` | broker/proto.go:194-204 | Otherwise one UNSUBSCRIBE puts the counter below what is held. |
| `Client.Client.DoSubscribe` | broker/proto.go:156-192 | Every topic is counted and added in order; a stop is requested iff the count ends above the limit; then a SUBACK that grants QoS 0 for each, then, as often as a topic without '#' and '+' is named, its retained message if it has one, in order. |
| `Client.Client.DoUnsubscribe` | broker/proto.go:194-204 | Every topic is counted down and dropped in order, then an UNSUBACK. |
| `Client.SubscribeIsARun` | broker/proto.go:156-192 | The loop over topics is a run of the connection machine with the same index and count. |
| `Client.UnsubscribeIsARun` | broker/proto.go:194-204 | The same for UNSUBSCRIBE. |
| `Cluster.StepIsPossibleIff` | broker/peers.go:62-109 | When each step is possible: posting while there is room, replication unless it has to wait, failures at any time, and at its origin a deletion always ends its worker. |
| `Cluster.OneCopyPerBroker` | broker/peers.go:62-109 | In every reachable state a published message has exactly one copy for each broker replication has visited: queued, on the wire, lost, posted or handled; never two. |
| `Cluster.LostIsItsHistory` | broker/endpoint.go:46-102 | In every run, under either strategy, a link has lost exactly what failures lost, what was submitted while it was down, and what found its queue exactly full, in order. |
| `Cluster.LostIffFoundFull` | broker/endpoint.go:83-102 | Without failures a message is lost on its way to a broker iff it found the queue full. |
| `Cluster.BoundedHolds` | broker/endpoint.go:22-31 | No endpoint queue is ever longer than its capacity. |
| `Cluster.PostsBoundedHolds` | broker/subs.go:19-34 | No channel of posts is ever longer than its capacity, and a dead endpoint has nothing queued. |
| `Cluster.WorkersAreLost` | broker/subs.go:50-55 | In every run a broker has the workers it started with, less those that handled a deletion. |
| `Cluster.NothingLost` | broker/endpoint.go:70-102 | With block overflow and no failure nothing is ever lost. |
| `Cluster.LinkKeepsOrder` | broker/endpoint.go:70-102 | Without failures, under either strategy, a broker takes up the messages of another that found room in the order they were submitted, without gaps. |
| `Cluster.BlockTakesUpAll` | broker/endpoint.go:89-92 | Under block those are all that were submitted. |
| `Cluster.EveryBrokerHandlesWhatFoundRoom` | broker/peers.go:62-109 | Without failures, when nothing can move and workers are left, every broker has handled every published message exactly once, except those that found the queue to it full, which it has not handled. |
| `Cluster.EveryBrokerHandlesOnce` | broker/peers.go:62-109 | Under block that is every message. |
| `Cluster.StepShifts` | broker/peers.go:78-109 | What each step does to the load: replay adds a post but never a peer job. |
| `Cluster.StepDescends` | broker/peers.go:78-109 | Every step but a client publish lowers the load lexicographically: links that are up, peers to visit, peer queues, wires, posts, client queues. |
| `Cluster.EndlessRunsHavePublishes` | broker/peers.go:78-109 | So every endless run has client publishes after any point. |
| `Cluster.NoReplicationStorm` | broker/peers.go:78-109 | From any state the steps of the brokers are at most a fixed number for each client publish, beyond what is under way, whatever the number of clients. |
| `Cluster.WritesAreFannedOut` | broker/subs.go:57-63 | The client writes of a run are exactly the entries dispatch put into client queues, less what is still queued. |
| `Peers.Peers.Join` | broker/peers.go:111-121 | A host joins once with a fresh empty endpoint; joining again is refused and changes nothing. |
| `Peers.Peers.Replicate` | broker/peers.go:62-66 | Every endpoint visited has the message submitted to it exactly once, the others are untouched, and the loop stops early only at a full one under block. |
| `KeepAlive.TruncationIsExact` | broker/session.go:205-236 | The truncated deadline test is exactly idle > 1.5 k. |
| `KeepAlive.Heartbeat` | broker/session.go:205-236 | A kick comes at the first tick before the connection died and before the loop was stopped at which the client is over-idle, and at no other. |
| `KeepAlive.LastOpIsLatest` | broker/session.go:201-203 | The recorded time is the latest operation at or before the tick. |
| `KeepAlive.LivelyClientStays` | broker/session.go:205-236 | A client whose gaps never exceed 1.5 k is never kicked. |
| `KeepAlive.SilentClientIsKicked` | broker/session.go:205-236 | A silent client is kicked with an idle time from floor(1.5 k) + 1 to floor(2.5 k). |

## Left out

- Packet encoding and decoding: github.com/funkygao/mqttmsg is not part of this model; messages are datatypes.
- Sockets, TLS, dialling and write deadlines: a write is a step that succeeds or fails.
- The publish rate limiter, authentication, authorisation and the return codes of `doConnect`: a session may end after any message, whatever the reason.
- `validateMessage`, `nextInternalMsgId` and the other stubs: they do nothing.
- Last will, and retained messages for wildcard subscriptions: the code does not implement them.
- The Redis store, presence, statistics, discovery through etcd, the client API, configuration and command-line tools.
- A second `stop` of one connection, which closes a closed channel: runs are considered up to the first stop request.
- Restarting an endpoint after its session has ended: one session per endpoint, and its queue is lost with it.
- What becomes of a submission: `Dispatch` and `Fanout` say to whom a message is submitted, `Blocking` when that has to wait. That the queue of a dead connection, or a full one under discard, drops it is in `JobQueue` and `Session`.
- A submitter that waits at a full queue while the inbound loop of that connection closes the channel panics; in `Blocking` it just goes on.
- A second CONNECT without CleanSession resends stored messages as any other submission; one under another id switches to the store of that id.
- SUBSCRIBE and PUBLISH before CONNECT, which make the source dereference a nil pointer.
- An unbuffered channel (capacity 0) hands over directly; here it takes nothing under block, so `EveryBrokerHandlesOnce` asks for a capacity of at least one.
- The alive test and the send in `submit` are one step.
- Worker.Broker.Process: asks that the post is not queued yet, because each post is a newly decoded object.
- KeepAlive.Heartbeat: ticks are ideal and arithmetic is on `real`, so the rounding of float64 is not modelled.
