# dqueue in Dafny

dqueue is a publish/subscribe broker. Clients open TCP connections to a server, create queues,
subscribe to them with an optional tag pattern, and publish messages; the server's node forwards each
message to the matching listeners. This project models the parts of `libdqueue` that decide whether
messages are lost, duplicated, misdirected or garbled, and proves what they guarantee.

`dafny verify dfyconfig.toml` checks everything.

## How it is laid out

| file | what it holds |
|---|---|
| `Basics.dfy` | shared types and small facts about sequences |
| `Client.dfy` | client state and the classes `MemoryMessagePool` and `Client` |
| `Protocol.dfy`, `Guarantees.dfy`, `Order.dfy` | one client and all its connections as a step system; its invariant; what it promises over every run; the order in which its frames are handled and answered |
| `Node.dfy`, `Broker.dfy` | the broker's operations as functions; the classes `ReCache` and `Node`, proved against them |
| `History.dfy`, `Records.dfy` | who receives a message, who listens, who owns and which queues exist, read off the history of calls; queue ids; ownership; deletion |
| `NodeLocks.dfy`, `Connections.dfy` | the broker and the connection list at the level of their three locks, run by any number of threads; the life of a connection and the fate of a send |
| `QueueMaps.dfy`, `Linearization.dfy`, `Outcomes.dfy`, `LockedDelivery.dfy`, `Deliveries.dfy` | such runs against atomic calls: listener maps, linearization, what aborted creations can bring about, who is selected by a publish running meanwhile and what becomes of its sends |
| `Interleavings.dfy`, `Anomalies.dfy` | each call taken alone is the atomic call; concrete interleavings that atomic calls do not have |
| `Server.dfy`, `ServerTraces.dfy`, `ServerClass.dfy` | connections, users and broker as a state; what the server sends, serials, logins and disconnects over a run; the classes `UserBase` and `Server` |
| `System.dfy`, `SystemHistory.dfy`, `Draining.dfy`, `Completion.dfy` | all clients and the server together; who receives what over a whole run; coming to rest; what can still be acknowledged |
| `Serialisation.dfy`, `Messages.dfy`, `Framing.dfy` | field encodings, messages and their buffers, reassembly of the byte stream |
| `Handlers.dfy` | the index of local consumers |

Every mutable component is a class whose methods are proved equal to a function on its state; the
theorems are about those functions, so they speak about the classes too. `System` puts the real server
(`ServerCore.OnMessage`, with the real broker inside) behind the connections of `Protocol` and shows
that each of its steps is, for every client, a run of `Protocol`.

Where a theorem asks for `Inv(p)`, `SysInv(y)`, `Agreement(s)` or `LockInv(st)`, it covers every reachable
state, since each of these holds initially and is kept by every step (`StepKeepsInv`,
`SysStepKeepsInv`, `StepAgrees`, `StepKeepsLockInv`). The same goes for `StoredInv`
(`StepKeepsStored`), `ConnInv` (`StepKeepsConnInv`) and `OrderInv` (`StepKeepsOrder`).

## Assumptions

- A connection delivers whole frames in order; after a break the server may still find the frames
  already sent on the old connection, and its answers on it are lost. A break is noticed once.
- The connect callback is one step with respect to `publish`. The code reads the pool there without
  the client's lock; a publish slipping in between would be sent twice.
- Fewer than 2^64 requests are issued by a client (a guard of the step `Issue`) and fewer than
  2^31 - 1 connections are accepted (a guard of `AcceptConn`; `IdLimitIsReal` shows the limit matters).
- The regular-expression engine is a parameter: which patterns compile, and what they match. In
  `System` the patterns met by served messages compile; elsewhere a bad pattern is modelled as the
  exception it causes. That something can still happen in `System` is shown for an engine that compiles
  every pattern; that it cannot is shown for every engine.
- `std::lock` on two locks is one step, and reading or changing the user base is one step. `publish`
  reads `_queues` without taking its lock (libdqueue/node.cpp:190); that read is one atomic step of the
  model, while in the code it races with the writers of `_queues`.
- In lock-level runs a connection gets an id not used before, as the server's counter provides, and a
  client makes calls once its connection was started.
- `ENSURE` is compiled out, as in a release build. Byte order is little-endian.

## What does not hold

Each failure comes with an input and with the exact condition under which the property does hold.

- A queue can be deleted while clients still listen to it, because `eraseClient` looks for a non-owner
  server entry and not for the server being alone (the comment at libdqueue/node.cpp:86 says "only
  server"): `SharedQueueIsDeleted`. A call does that exactly when it erases a listener that leaves a
  non-owner server and another client behind: `DeletionUnderClientIff`, `QueuesOutliveClientsIff`. The
  owner of a deleted queue stays recorded, so two owners can appear; ownership stays single exactly
  when no erasure orphans an owner: `OneOwnerIff`.
- A client that disconnects during `createQueue`, between the two existence checks, leaves an ownerless
  queue behind (`AbortedCreationLeavesQueue`). Every interleaving is equivalent to its calls in one order
  if an aborted creation is taken as a call of its own that stores the queue and records no owner
  (`InterleavingsAreAtomic`); left out of that order, it is missed exactly when there is one. It need not
  show: where another client listens to the name, another order of the same calls gives the same state
  (`AbortCanBeInvisible`), and up to empty listener maps no interleaving reaches a state that calls run
  to their end could not reach (`InterleavingsReachNothingNew`). A queue is left without a listener map
  exactly when a creation is aborted and nobody had listened to its name: `BareAfterStepIff`,
  `ListenerMapsIff`.
- A publish can insert into `_subscriptions` under a shared lock, and two can do so at once:
  `InsertersRace`. It inserts exactly when the queue was left without a map by an aborted creation, or is
  being created under a name nobody had listened to: `SharedInsertIff`.
- A publish running beside other calls can deliver to a queue that is already deleted, because it
  checks for the queue before it copies the listeners: `CheckCanBeOutdated`. It delivers what an atomic
  publish would exactly when the queue still exists at the copy or nobody is selected:
  `ConcurrentDeliveryFollowsHistory`. The check itself is wrong exactly about queues half created or
  half erased: `CheckFollowsHistory`.
- A publish can throw "unknow client" and skip its remaining targets (`SendCanThrow`), and a send can meet
  a connection whose stream was reset (`SendCanMeetReset`). The first happens exactly when the disconnect
  of the target has finished since the copy, the second exactly when it has begun and waits for the lock
  on the connections: `SendThrowsIff`.
- Only publishes are resent. Any other request lost in a break stays pending for ever, and `waitAll`
  never returns again: `SubscriptionsCanBeLost`, `WaitAllHangsAfterLoss`. As far as the client's own state
  tells, a request can still be acknowledged exactly when it is not lost like that
  (`CompletableIffNotLost`), but the server can strand one too: `ServerStrandsRequest`. In the whole
  system a request can still be acknowledged exactly when it is acknowledged, its OK is on its way, it is on
  its way on a connection the server has not closed, or it is a pooled publish and the server still
  accepts connections: `SysCompletableIff`. `waitAll` can return exactly when that holds of everything
  pending: `WaitAllCanReturnIff`.
- `Server::unsubscribe` subscribes the server, without a pattern: `UnsubscribingSubscribes`.
- The connection numbered 2^31 - 1 is taken for the server: `LimitIsReached`, `IdLimitIsReal`,
  `AcceptKeepsServerApartIff`.
- A field of 2^32 bytes or more does not survive the wire, and a message of 2^31 bytes or more does
  not fit its buffer: `RoundTrip` and `AllocationSuffices` give the exact limits.
- A consumer registered with two clients takes over another consumer's entry: `ForeignConsumerHijacks`.
  Registration is safe exactly when the consumer carries no id or its own: `RegistrationIsSafeIff`.

## Model

| member | source | states |
|---|---|---|
| `ClientCore.MemoryMessagePool.Append` | libdqueue/memory_message_pool.h:15-19 | a new id is added to the pool; an id already there keeps its first message |
| `ClientCore.MemoryMessagePool.Erase` | libdqueue/memory_message_pool.h:21-24 | exactly that id leaves the pool |
| `ClientCore.MemoryMessagePool.All` | libdqueue/memory_message_pool.h:26-34 | the result lists every pooled message exactly once, in some order |
| `ClientCore.Client.OnConnect` | libdqueue/client.cpp:31-42 | the new connection starts with the login and then the whole pool, each message once; nothing else about the client changes |
| `ClientCore.Client.Call` | libdqueue/client.cpp:118-187 | the request gets the next id, is pending and locked until answered, is pooled if it is a publish, and is sent if there is a connection; the registration that precedes this in `subscribe` is `QueueClient.Subscribe` |
| `ClientCore.Client.OnNewMessage` | libdqueue/client.cpp:44-83 | a known OK retires the id from pool, pending map and lock; an unknown one throws and changes nothing; copies reach the consumers |
| `Protocol.StepKeepsInv` | libdqueue/client.cpp:31-187 | every call, connect, break, server handling (also on broken connections), receipt and wait keeps the protocol's invariant; for the order see `Order.StepKeepsOrder` |
| `Protocol.RecvIsKnown` | libdqueue/client.cpp:59-69 | an acknowledgement at the head of a connection always names a pending request sent on that connection |
| `Guarantees.AtLeastOnce` | libdqueue/client.cpp:173-187 | in every run, each publish ever issued is in the pool or was handled by the server with the contents it was issued with |
| `Guarantees.LeavesPoolOnlyHandled` | libdqueue/client.cpp:55-70 | a step that takes a publish out of the pool finds it already handled |
| `Guarantees.InFlightExact` | libdqueue/client.cpp:37-40 | while connected, each pooled id is in flight exactly once, every id in flight is pending and in flight once, publishes in flight are pooled, and quiet channels mean an empty pool |
| `Guarantees.NoFailureNoDuplicate` | libdqueue/client.cpp:61-69 | no run makes the client throw on an unknown id, and no connection has a request handled twice |
| `Guarantees.WaitingIsSound` | libdqueue/client.cpp:102-112 | issued ids split into pending and acknowledged, pooled ids are pending, and a return from a Sync call or from waitAll means the server handled what was waited for |
| `Guarantees.OwnCopyBeforeAck` | libdqueue/server.cpp:74-81 | the OK of a publish its author listens to is processed after the copy made for that publish, received on the same connection and belonging to no other publish |
| `Guarantees.OwnCopyBeforeReturn` | libdqueue/client.cpp:48-71 | in every run, each own publish whose OK was processed has a copy of its own among the processed frames, before that OK; different publishes have different copies |
| `Order.StepKeepsOrder` | libdqueue/client.cpp:31-199 | every step keeps, for each connection, that what was handled followed by what is pending is what was sent: the login, the pool, and every request made since in order |
| `Order.RequestsAreHandledInTurn` | libdqueue/client.cpp:118-199 | in every run and on each connection, the server handles the login before any request, then the resent publishes in the order they were resent, then the requests made since in the order they were made, without a gap |
| `Order.AnswersComeInTurn` | libdqueue/server.cpp:47-100 | in every run, the answers on the current connection are one for each frame handled, in order; the client counts as logged in exactly when the confirmation has arrived |
| `Guarantees.DrainProgresses` | libdqueue/client.cpp:44-83 | each handling or receiving step lowers the pair (frames going up, frames coming down) of the connection lexicographically and un-acknowledges nothing |
| `Guarantees.DrainEnds` | libdqueue/client.cpp:44-83 | with no new calls and no break, one client's connection cannot go on for ever: there is no infinite sequence of handling and receiving steps |
| `Guarantees.DrainedMeansSettled` | libdqueue/server.cpp:47-100 | where no such step is left, nothing is in flight, the pool is empty, everything sent on the connection is acknowledged and its waiters can return |
| `Guarantees.CompletableIffNotLost` | libdqueue/client.cpp:31-42 | against a server that may answer anything sent on the current connection, a request can still be acknowledged if and only if it is not a non-publish that missed that connection; for the modelled server see `Completion.SysCompletableIff` |
| `Guarantees.LostForever` | libdqueue/client.cpp:37-40 | a lost request stays lost through every continuation |
| `Guarantees.SubscriptionsCanBeLost` | libdqueue/client.cpp:31-42 | a concrete run that loses two subscriptions, one made before connecting and one cut off by a break: neither can ever be acknowledged and waitAll is stuck |
| `Guarantees.WaitAllHangsAfterLoss` | libdqueue/client.cpp:102-112 | once such a request is lost, waitAll cannot return in any continuation |
| `NodeCore.EraseIsIdempotent` | libdqueue/node.cpp:72-101 | erasing a client twice is erasing it once |
| `NodeCore.Ascending` | libdqueue/node.cpp:202 | the iteration order of a map's keys: strictly ascending, with exactly the keys |
| `Broker.ReCache.Compile` | libdqueue/re_cache.h:25-34 | compiling through the cache gives what compiling directly gives, and throws exactly when that throws |
| `Broker.ReCache.CheckTag` | libdqueue/node_settings.h:15-22 | an empty pattern accepts, a compiling one accepts exactly what it matches, another throws |
| `Broker.Node.ChangeSubscription` | libdqueue/node.cpp:125-183 | the method does what `NodeCore.ChangeSubscription` says, throwing cases included; what that means for the record is `Records.RecordAfterCall` |
| `Broker.Node.CreateQueue` | libdqueue/node.cpp:25-46 | the method does what `NodeCore.CreateQueue` says: a new queue gets the next id and its creator an owner entry unless it already listens |
| `Broker.Node.EraseFrom` | libdqueue/node.cpp:76-98 | one round of the erasing loop: the client leaves that listener map, and the queue goes if what is left is empty or holds a non-owner server entry |
| `Broker.Node.EraseClient` | libdqueue/node.cpp:72-101 | the loop equals its loop-free form: the client is in no listener map, other entries are unchanged, and exactly the doomed queues are gone |
| `Records.QueueGoesIff` | libdqueue/node.cpp:76-96 | erasing a client deletes a queue if and only if the client listens to it and is its last listener, or is not the server and leaves a server entry that is no owner; other queues keep their record |
| `Broker.Node.Deliver` | libdqueue/node.cpp:202-218 | the loop calls the handler for exactly the target set, in ascending order, and throws exactly when a pattern does not compile |
| `Broker.Node.Publish` | libdqueue/node.cpp:185-219 | a missing queue delivers nothing; an existing one delivers to its targets in order |
| `History.ListenersFollowHistory` | libdqueue/node.cpp:131-183 | a listener is eligible exactly when its latest subscription is later than its last effective unsubscription and its last erasure, and carries that subscription's settings |
| `History.DeliveryFollowsHistory` | libdqueue/node.cpp:185-219 | a publish calls the handler once each, ascending, for exactly the clients the history selects, up to the first whose pattern does not compile, and throws exactly when there is one |
| `Records.RecordAfterCall` | libdqueue/node.cpp:155-179 | one call makes its creator a listener, and the owner if it was no listener before; a subscription makes a listener and leaves an owner the owner; an effective unsubscription or erasure takes the client off; nothing else changes who listens or owns |
| `Records.ListeningFollowsHistory` | libdqueue/node.cpp:125-183 | over every history, a client is on record for a queue if and only if it was put there by a creation or subscription that no unsubscription or erasure has followed |
| `Records.OwnersFollowHistory` | libdqueue/node.cpp:153-171 | over every history, a client owns a queue if and only if it created it while no listener, and no effective unsubscription or erasure has followed |
| `Records.QueuesFollowHistory` | libdqueue/node.cpp:33-96 | over every history, a queue exists if and only if some call stored it and no later erasure took its last listener or left it to a server that does not own it |
| `Records.ThrowsIff` | libdqueue/node.cpp:29-31 | a creation throws exactly for an unknown client, a change exactly for an unknown client unless it unsubscribes from a missing queue |
| `History.NodeIsStructured` | libdqueue/node.cpp:25-46 | over every history of calls that ran to their end, queue ids are distinct and below the counter, queues are filed under their names, and every queue has a listener map |
| `History.NodeIsFiled` | libdqueue/node.cpp:25-46 | over every history, aborted creations included, queue ids are distinct and below the counter, and queues and listeners are filed under their names |
| `History.QueueIdsAreNotReused` | libdqueue/node.cpp:36-38 | a queue seen later is the one seen earlier, or has an id issued since |
| `History.OwnersAfterCall` | libdqueue/node.cpp:81-96 | a call keeps queues singly owned and deleted queues unowned if and only if it does not delete a queue from under a remaining owner |
| `History.OneOwnerIff` | libdqueue/node.cpp:81-96 | over a whole run, ownership is always single if and only if no erasure orphans an owner |
| `History.ServerOwningIsEnough` | libdqueue/node.cpp:83-88 | it is, when the server never listens to a queue it does not own |
| `History.SharedQueueIsDeleted` | libdqueue/node.cpp:83-96 | a concrete history: a queue two clients listen to is deleted, and re-creating it gives it two owners |
| `History.DeletionUnderClientIff` | libdqueue/node.cpp:81-96 | a call deletes a queue a client still listens to if and only if it erases a listener of an existing queue that leaves a non-owner server and another client behind |
| `History.QueuesOutliveClientsIff` | libdqueue/node.cpp:81-96 | over a whole run, no queue is deleted under a client if and only if no erasure meets that condition |
| `NodeLocks.NoDanglingListener` | libdqueue/node.cpp:125-183 | under every interleaving of lock-level steps, a listener is a current user or its disconnect has yet to remove it; when all calls are done every listener is a user |
| `NodeLocks.StepKeepsLockInv` | libdqueue/node.cpp:72-101 | every lock-level step keeps mutual exclusion on the three locks and leaves no listener uncovered |
| `NodeLocks.NoDeadlock` | libdqueue/abstract_server.cpp:82-89 | while a call is unfinished, some thread can take a step, although a disconnect holds the connection lock while it takes the broker's locks |
| `NodeLocks.CallsFinish` | libdqueue/node.cpp:72-219 | without new calls, no infinite sequence of lock-level steps exists |
| `Connections.StepKeepsConnInv` | libdqueue/abstract_server.cpp:33-118 | every lock-level step accounts for each connection: started ones are listed, about to be, or gone; those with a reset stream are being closed or gone; users, listeners, callers and targets are known |
| `Connections.DisconnectsSucceed` | libdqueue/abstract_server.cpp:82-89 | under every interleaving, a disconnect finds its connection in the list and its client among the users |
| `Connections.CopiedAreConnected` | libdqueue/node.cpp:195-200 | under every interleaving, each listener is the server, a listed connection or one that its accepting thread is about to list, and none has finished its disconnect |
| `Connections.SendThrowsIff` | libdqueue/abstract_server.cpp:145-154 | under every interleaving, a send throws "unknow client" if and only if the disconnect of its target has finished, and meets a reset stream if and only if the target is closing and waits for the connection lock |
| `QueueMaps.QueuesHaveListenerMaps` | libdqueue/node.cpp:33-46 | under every interleaving, a queue without a listener map is being created or its creation was aborted |
| `QueueMaps.BareAfterStepIff` | libdqueue/node.cpp:149-151 | a step leaves a queue without a listener map and without a creator if and only if it is the second check of that queue's creation, the client is no user and nobody had listened to the name |
| `QueueMaps.ListenerMapsIff` | libdqueue/node.cpp:33-46 | over a whole run, no queue is ever left so if and only if no step is such a check |
| `QueueMaps.SharedInsertIff` | libdqueue/node.cpp:195-200 | under every interleaving, copying the listeners under the shared lock changes the map if and only if the queue was left bare, or is being created and its name has no map |
| `Interleavings.CreateAlone` | libdqueue/node.cpp:25-46 | run without company, the lock-level steps of creating a queue are the atomic call, whether it is refused, repeats a queue or makes a new one |
| `Interleavings.ChangeAlone` | libdqueue/node.cpp:125-183 | likewise for subscribing and unsubscribing, throwing and no-effect cases included |
| `Interleavings.DropAlone` | libdqueue/abstract_server.cpp:82-89 | likewise for a disconnect: the user, the listener entries, the doomed queues and the connection are gone |
| `Interleavings.PublishAlone` | libdqueue/node.cpp:185-219 | likewise for a publish: it sends to all its targets in order and ends without a throw, or does nothing where the queue is missing |
| `Interleavings.ConnectAlone` | libdqueue/abstract_server.cpp:105-118 | likewise for accepting a connection |
| `Interleavings.AbortCreation` | libdqueue/node.cpp:31-42 | from any idle state, a creation overtaken by its client's disconnect leaves the queue stored, the client erased and everything else as it was |
| `Anomalies.AbortedCreationLeavesQueue` | libdqueue/node.cpp:149-151 | a concrete interleaving that leaves a queue without owner or listener map after all calls are done |
| `Anomalies.AbortCanBeInvisible` | libdqueue/node.cpp:149-151 | a concrete interleaving with an aborted creation that ends in exactly the state of the same calls run one after the other |
| `Anomalies.InsertersRace` | libdqueue/node.cpp:198-199 | a concrete state in which two publishes hold the shared lock and either would insert the missing listener map |
| `Anomalies.SendCanThrow` | libdqueue/abstract_server.cpp:145-154 | a concrete interleaving in which a client disconnects between the copy and its send, and the send throws |
| `Anomalies.SendCanMeetReset` | libdqueue/abstract_server.cpp:33-54 | a concrete interleaving in which a send finds a listed connection whose stream was reset |
| `Anomalies.CheckCanBeOutdated` | libdqueue/node.cpp:190-200 | a concrete interleaving in which the queue is deleted between check and copy and the message is delivered all the same |
| `Linearization.StepIsLinear` | libdqueue/node.cpp:25-183 | each lock-level step is the atomic call it makes effective, or none; the second check of a creation that fails is the call that leaves an ownerless queue |
| `Linearization.InterleavingsAreAtomic` | libdqueue/node.cpp:25-183 | for every run, outside exclusive sections users and broker are those of its calls in their order, aborted creations included; that history has none, and gives the same state without them, if and only if no creation was aborted |
| `Outcomes.InterleavingsReachNothingNew` | libdqueue/node.cpp:25-183 | for every run, outside exclusive sections some history of calls that all ran to their end has the same users and, up to empty listener maps, the same broker |
| `LockedDelivery.StepTracks` | libdqueue/node.cpp:131-183 | each lock-level step keeps the broker in step with its linearized history, and names in that history the one change a thread has yet to record |
| `LockedDelivery.ConcurrentDeliveryFollowsHistory` | libdqueue/node.cpp:195-218 | in every run, the listeners a publish copies are those after the linearized history, or after it without the change the holder of the queue lock has yet to record, and it sends, ascending, to exactly the clients that history selects; these are the targets of an atomic publish if and only if the queue exists there or no client is selected |
| `Deliveries.PublishRunsItsCourse` | libdqueue/node.cpp:195-218 | in every run, a publish past its copy chose, ascending, the clients selected by the history of the moment of the copy (less the change then pending), and has sent to them in order: to all when it ended without a throw, up to the first whose disconnect has finished when it threw |
| `LockedDelivery.CheckFollowsHistory` | libdqueue/node.cpp:190-194 | the existence check finds every queue of the history, and one that is not in it if and only if it is half created or half erased |
| `LockedDelivery.QuietDeliveryFollowsHistory` | libdqueue/node.cpp:185-219 | outside exclusive sections check and copy together give the targets of the history |
| `ServerCore.CloseAgrees` | libdqueue/abstract_server.cpp:33-40 | closing never fails a lookup, disconnects an open connection exactly once and a closed one not at all |
| `ServerCore.StopAgrees` | libdqueue/abstract_server.cpp:124-139 | stopping ends with no connection and with every connection ever accepted disconnected exactly once |
| `ServerCore.StepAgrees` | libdqueue/server.cpp:47-146 | every step keeps users, connections and listeners in agreement, and throws only where a listener's pattern does not compile |
| `ServerCore.ServerRunAgrees` | libdqueue/abstract_server.cpp:82-139 | over every run of accepts, messages, repeated errors, stops and local calls the agreement holds |
| `ServerCore.SendAllSucceeds` | libdqueue/abstract_server.cpp:145-154 | sending to listeners that are connected never reaches the unknown-client exception |
| `ServerCore.SendAllSendsOnce` | libdqueue/server.cpp:36-45 | each client target is sent exactly one copy of the message, and no other client anything |
| `ServerTraces.PublishExactly` | libdqueue/server.cpp:36-45 | a publish sends one thing to each target and nothing else, in ascending order: to the server a call of its own consumers, to each client a copy with the next serial; it throws exactly when a pattern does not compile |
| `ServerTraces.ConsumersAreCalled` | libdqueue/server.cpp:36-38 | a step calls the server's own consumers exactly once, with the message, if it publishes one the server is a target of, and otherwise not |
| `ServerTraces.SerialsCountUp` | libdqueue/server.cpp:40-41 | over every run, the copies sent, to whomever, are numbered one after the other |
| `ServerTraces.LoginsFollowMessages` | libdqueue/server.cpp:84-88 | over every run, the login on record for an open connection is the last one received on it, and not set before |
| `ServerTraces.ListStaysInOrder` | libdqueue/abstract_server.cpp:106-117 | over every run, connections are listed in the order they were accepted |
| `ServerTraces.StopsInOrder` | libdqueue/abstract_server.cpp:129-136 | stopping disconnects the listed connections in the order of the list |
| `ServerTraces.UnsubscribingSubscribes` | libdqueue/server.cpp:136-139 | after the server's own unsubscribe, the server is a target of every publish to the queue whose delivery does not throw |
| `ServerCore.ReplyShape` | libdqueue/server.cpp:60-81 | the author of a request gets the one copy it is due, if any, and then the OK; every other client gets the one copy it is due, if any, and nothing else |
| `ServerCore.IdLimitIsReal` | libdqueue/users.h:19 | the connection numbered like the server takes over its user entry, its copies go to the server's consumers, and closing it makes the server's own calls throw |
| `ServerCore.LimitIsReached` | libdqueue/abstract_server.cpp:105-110 | a run of accepts after which the next connection is numbered like the server |
| `ServerCore.AcceptKeepsServerApartIff` | libdqueue/abstract_server.cpp:105-118 | accepting keeps the server apart from its clients, and the whole agreement, if and only if the counter is below the server's id |
| `ServerClasses.Server.HandleAccept` | libdqueue/abstract_server.cpp:100-119 | the new connection has a fresh number and joins users, open connections and the list |
| `ServerClasses.Server.EraseConnection` | libdqueue/abstract_server.cpp:84-88 | the search finds the connection if it is listed and removes its first entry only |
| `ServerClasses.Server.Close` | libdqueue/abstract_server.cpp:33-40 | the method does what `ServerCore.Close` says and throws exactly when it fails |
| `ServerClasses.Server.StopServer` | libdqueue/abstract_server.cpp:124-139 | the loop over a copy of the list equals `ServerCore.Stop` |
| `ServerClasses.Server.SendTo` | libdqueue/abstract_server.cpp:145-154 | the search succeeds exactly for listed connections |
| `ServerClasses.Server.OnSendToClient` | libdqueue/server.cpp:36-45 | the server's id calls its own consumers; a connection gets one copy with a fresh serial; an unknown one throws |
| `ServerClasses.Server.SendToAll` | libdqueue/node.cpp:202-218 | the handler calls in order equal `ServerCore.SendAll`, ending at the first throw; what that sends, the server's own consumers included, is `ServerTraces.PublishExactly` |
| `ServerClasses.Server.OnNewMessage` | libdqueue/server.cpp:47-95 | the dispatch equals `ServerCore.OnMessage`: perform, then acknowledge unless it threw |
| `ServerClasses.UserBase.Erase` | libdqueue/users.h:39-48 | erasing removes the user and throws exactly when there was none |
| `System.SysStepSimulates` | libdqueue/server.cpp:47-100 | every step of the whole system is, for every client, a run of the client protocol |
| `System.SysStepKeepsInv` | libdqueue/server.cpp:106-117 | every step of the whole system keeps the server's agreement, every client's invariant and the ownership of connections |
| `System.SystemKeepsPromises` | libdqueue/client.cpp:173-187 | for every client of every run of the whole system: no publish is forgotten, no client fails, in-flight ids are exact, waits are sound, own copies come first and are not shared, a confirmed login knows its connection, and frames are handled and answered in turn on every connection |
| `SystemHistory.ServerFollowsHistory` | libdqueue/server.cpp:47-146 | in every run of the whole system, the server's users and broker are those of the history of calls it served |
| `SystemHistory.PublishSends` | libdqueue/server.cpp:36-45 | a publish served for a client, on a broken connection or by the server itself sends each client exactly one copy if it is a target and none otherwise, followed by the OK for the author |
| `SystemHistory.SystemDeliveryFollowsHistory` | libdqueue/node.cpp:185-219 | in every run, the next publish served puts exactly one copy on a connected client's connection if the history of served calls has stored the queue without deleting it since and has a subscription in force there whose pattern accepts the tag, and none otherwise |
| `SystemHistory.ServerConsumersFollowHistory` | libdqueue/server.cpp:36-38 | in every run, the next step calls the server's own consumers exactly once if it serves a publish to a queue that exists by that history and the server has a subscription in force that accepts the tag, and otherwise not |
| `Draining.SysDrainProgresses` | libdqueue/server.cpp:47-100 | each serving or receiving step lowers the pair (frames going up, frames coming down) of the whole system lexicographically |
| `Draining.SysDrainEnds` | libdqueue/client.cpp:44-83 | so the whole system comes to rest |
| `Draining.SysAtRest` | libdqueue/client.cpp:55-70 | at rest, a served client has an empty pool, everything it sent on its connection acknowledged, and its waiters free to return |
| `Completion.StepGivesNoHope` | libdqueue/server.cpp:47-117 | no step of the whole system makes a request completable that was not |
| `Completion.SysCompletableIff` | libdqueue/client.cpp:31-83 | in every reachable state, some continuation acknowledges a request if and only if it is acknowledged, its OK is on its way, it is on its way on a connection still open at the server, or it is pooled and the server accepts connections |
| `Completion.HopelessForever` | libdqueue/abstract_server.cpp:33-40 | the negative half, for every engine: without that, no continuation acknowledges the request |
| `Completion.WaitAllCanReturnIff` | libdqueue/client.cpp:102-112 | in every reachable state, some continuation lets waitAll return if and only if the same holds of every pending request |
| `Completion.ServerStrandsRequest` | libdqueue/abstract_server.cpp:33-40 | a concrete run: the server closes the connection before reading a subscription; the client's state does not show it, and it can never be acknowledged |
| `Serialisation.RoundTrip` | libdqueue/serialisation.h:90-142 | for every list of field types and values, an encoding followed by anything decodes to the same fields and leaves exactly what follows, if and only if every length is below 2^32 |
| `Serialisation.EncodingsArePrefixFree` | libdqueue/serialisation.h:102-126 | encodings of one scheme are injective, and none is a proper prefix of another |
| `Serialisation.DecodingIsCanonical` | libdqueue/serialisation.h:58-88 | whatever decodes is the encoding of what was decoded |
| `Serialisation.FlatLength` | libdqueue/serialisation.h:22-27 | a vector's bytes number its length times its element size |
| `Serialisation.LeastByteFirst` | libdqueue/serialisation.h:29-35 | numbers are written and read with the least significant byte first |
| `Serialisation.WriteValue` | libdqueue/serialisation.h:29-56 | the in-place writer produces the field's encoding, returns its size and touches nothing else |
| `Serialisation.WriteArgs` | libdqueue/serialisation.h:102-113 | writing a scheme in place produces the pure encoding in its range and leaves every other byte |
| `Messages.AllocationSuffices` | libdqueue/network_message.h:28-34 | the 32-bit size prefix is right and the 32-bit doubled allocation holds the message if and only if 6 + capacity is below 2^31 |
| `Messages.NetworkMessage.constructor` | libdqueue/network_message.h:28-39 | the header holds the size and the kind, inside the allocation |
| `Messages.NetworkMessage.SetKind` | libdqueue/client.cpp:142-144 | overwriting the kind changes the two kind bytes only |
| `Messages.ToNetworkMessage` | libdqueue/queries.h:156-163 | the bytes handed to the socket are the size, the kind and the encoded payload |
| `Messages.UpRoundTrip` | libdqueue/queries.h:35-171 | the server parses every client frame to the request it stands for |
| `Messages.DownRoundTrip` | libdqueue/queries.h:15-73 | the client parses every server frame to the answer it stands for |
| `Messages.UpLayout` | libdqueue/queries.h:35-171 | the bytes of every client frame, one by one: whole length, kind, then the fields in order, texts with their length in front |
| `Messages.DownLayout` | libdqueue/queries.h:15-73 | likewise for every server frame |
| `Messages.KindOverwriteKeepsPayload` | libdqueue/client.cpp:160-164 | overwriting the kind with one of the same scheme leaves the decoded payload |
| `Framing.AsyncReader.Receive` | libdqueue/async_io.cpp:74-119 | reading a chunk block by block equals feeding its bytes one at a time |
| `Framing.Reassembly` | libdqueue/async_io.cpp:74-119 | for any messages and any chunking, what is delivered is a prefix of what was sent, delivered plus partial plus unread bytes is the stream, and when all is read all is delivered |
| `Framing.RequestsSurviveTheWire` | libdqueue/async_io.cpp:89-111 | encoded requests received in any chunks parse to the requests sent, in order |
| `Framing.AnswersSurviveTheWire` | libdqueue/async_io.cpp:89-111 | encoded answers received in any chunks parse to the answers sent, in order |
| `Handlers.CallsFollowRegistrations` | libdqueue/iqueue_client.h:54-65 | over any history of registrations, a message calls exactly once each consumer ever registered for its queue whose most recent settings have no pattern or one that matches, in the order of first registration, and no lookup misses |
| `Handlers.IndexFollowsHistory` | libdqueue/iqueue_client.h:77-93 | registrations never throw, and the two maps say what was registered |
| `Handlers.ForeignConsumerHijacks` | libdqueue/iqueue_client.h:80-86 | from the empty index: a consumer carrying another client's id registers without an exception, is never called, and redirects a stranger's subscription |
| `Handlers.RegistrationIsSafeIff` | libdqueue/iqueue_client.h:77-93 | whatever id a consumer carries, registration throws if and only if the id is set and unknown, and files the consumer and leaves all others alone if and only if the id is unset or its own |
| `Handlers.AttemptsKeepIds` | libdqueue/iqueue_client.h:77-93 | after any registrations, those of foreign consumers included, the maps of ids and handlers agree |
| `QueueClient.IQueueClient.AddHandler` | libdqueue/iqueue_client.h:77-93 | the method does what `Handlers.Register` says for any carried id, throwing without a change when the id is unknown |
| `QueueClient.IQueueClient.CallConsumer` | libdqueue/iqueue_client.h:54-65 | the loop calls the consumers whose settings accept the tag, in ascending id order, up to the first whose pattern does not compile, and throws exactly when there is one |
| `QueueClient.Subscribe` | libdqueue/client.cpp:133-151 | a registration that throws leaves the client as it was, with nothing numbered or sent; otherwise the consumer is filed and the request enrolled and sent |

## Left out

- Sockets, resolver, acceptor and asio scheduling; they appear as accept, deliver and break steps.
- `AsyncIO::send`'s outstanding-write counter: no other code depends on it.
- The internals of `std::regex`; the engine is a parameter.
- Consumer callbacks: re-entrant publishing from inside a consumer is outside the model.
- `rmHandler`: it leaves ids in the index and supports no guarantee.
- `getDescription`: modelled at lock level for deadlock freedom only; its result would add an easy member.
- The spin lock of `locker.h`: modelled as a flag per request that the OK clears and a returning waiter sets again.
- Consumer objects are handles; the id field of each is kept in a map of the client that registers it.
- What a send does once it has met a reset stream: the code then uses a null pointer; the model records the event and goes on.
- Completion.SysCompletableIff: for engines that compile every pattern, because `System` never serves a publish that meets a pattern that does not compile; the negative half, `HopelessForever`, is for every engine.
- Completion.WaitAllCanReturnIff: likewise; its negative half is `HopelessWait`.
- The unlocked reads of the connection list in `stopServer`, and torn reads in general: each access is one atomic step.
- Broker queue ids and consumer ids are unbounded numbers; the wrap-around of `int` and of 64-bit counters there is not modelled.
- Memory reclamation, destructors, logging, string helpers, exception formatting.
