# A model of the Logos view runtime's protocols

The repository connects QML views to backend modules, across threads, processes and a browser page. Most of
it is glue, but several parts are protocols that run over one event loop, with rules that no single function shows:
messages that cross with a close, replies that race a timeout, callbacks that must not survive a hot reload. This project
models those parts and proves their rules for every run.

Each protocol is described twice. A *value* (`Channel`, `System`, `Bridge`, `State`, ...) has one function
for each operation and each turn of the event loop, and theorems about every sequence of them: what is delivered, in
what order, how often, and to whom. A *class* has the fields the C++ object has and methods that update them in place;
each method's postcondition says that the object, seen as a value, made exactly that step. Ghost fields only record history:
what was posted, emitted, invoked, deleted.

| file | modules | what it is about |
|---|---|---|
| Sequences.dfy | Sequences | facts shared by the others |
| MessagePort.dfy | Wire, WireLaws, LoopbackPorts | the loopback port: post, start, close and the event queue |
| MessagePortDevice.dfy | PortBuffer, Stream, StreamLaws, PortDevices | the byte stream a device makes of it |
| MessagePortTransport.dfy, TransportLaws.dfy | PortTransportModel, PortTransport, PortTransportObjects, PortRetries, PortServing | publishing and taking ports, clients that retry, servers that listen |
| WebBridge.dfy, CallRouter.dfy, RemoteCalls.dfy, RemoteCallLaws.dfy, WebCallObjects.dfy | WebBridgeModel, CallRouterModel, RemoteCalls, HeldCalls, AnsweredCalls, HandedCalls, WebCallObjects | a backend call from the Web container, and both its halves over a lossy wire |
| Intents.dfy, IntentOutcomes.dfy | IntentModel, IntentLaws, IntentBridges, IntentAnswers, IntentFates, IntentRouting | app-to-app requests: answers, hot reload, destruction |
| IntentPayload.dfy | IntentPayload | what a payload may contain |
| IntentName.dfy | IntentName | what an intent may be called |
| DesktopCalls.dfy | DesktopCallModel, DesktopCallLaws, DesktopCallObjects | the desktop bridge's held call |
| ViewModuleCaches.dfy, ViewCacheLaws.dfy, ViewCacheAnswers.dfy, ViewModuleBridges.dfy | ViewCacheModel, ViewCacheLaws, ViewCacheAnswers, ViewModuleBridges | sockets, plugins, nodes, replicas and models of view modules |
| EventSubscriptions.dfy | SubscriptionModel, SubscriptionLaws, SubscriptionObjects | subscriptions to module events |
| ReadyLines.dfy | ReadyLines | the line reader that waits for READY |

## Where a property is false, and exactly when it holds

- A device does not always read the bytes in the order they were written. A port that is started with a backlog while other
  messages are in the event loop hears the later ones first. `WireLaws.StartLaw` gives the order in all cases,
  `ArrivalInOrder` says when it is the posting order, `Stream.ScrambledStream` is a run where it is not.
- A client can be stuck on a dead port. A device opens on a port that has already closed, hears of no close, and every
  retry keeps it (`PortTransport.StuckOnADeadPort`, `DeadPortIsTaken`). `DeviceLife` says that, once the closes have drained, a
  client's device is on a live channel if and only if its port was open when it was taken, `RetryExactly` when a retry
  ends on a live channel, and `RecoveryLaw` that a client recovers in every other case.
- A port can have two holders: nothing keeps its owner from publishing it again after it was taken (`PortTransport.SharedPort`).
  `PublishingExactly` says that this is the only way, and `PublishedOnceIsHeldOnce` what an owner can do: publish no port twice.
- A message accepted before a close can be lost (`WireLaws.LateStartLoses`). An end started before its peer's close hears everything
  (`HeardBeforeClose`); one started between the close and the news of it loses exactly its backlog (`LateStartLaw`).
- The comment at src/LogosQmlBridge.cpp:446-447 says that the fallback deadline never caps the method. The timer at
  lines 449-453 is not cancelled when the call is sent, so it does: after 30 s the caller is told of a timeout and the
  reply is dropped (`DesktopCallLaws.FallbackCapsTheMethod`). `CappedExactly` says for every history when that happens: if and only if
  the timer is the first event that has an answer. The model follows the code.
- Operations on one view module can touch another's models: the prefix test and the cache key both join names with a
  slash. `ViewCacheLaws.IsolationExactly` and `KeyCollision` say that this happens exactly for two names of which one is the
  other followed by a slash and more.
- A pair of module and event can be subscribed to twice: a notice that a subscription was given up removes the record by key,
  whichever subscription is on it by then. `SubscriptionLaws.OnlyLateLosesTrack` is the exact condition, `LateNoticeHappens`
  a run.

## Model

| member | source | states |
|---|---|---|
| WireLaws.DeliveryLaw | src/LogosMessagePort.cpp:32-84 | in every run, an end that is not started has heard nothing and is owed exactly what its peer was allowed to post; a started one has heard a prefix of the arrival order and, while open, backlog and traffic make up the rest |
| WireLaws.StartLaw | src/LogosMessagePort.cpp:62-84 | start() with W held back and D in the event loop: the end hears D, then W, then everything posted later, whatever happens afterwards |
| WireLaws.ArrivalKeepsAll | src/LogosMessagePort.cpp:51-84 | the arrival order loses and duplicates nothing |
| WireLaws.ArrivalInOrder | src/LogosMessagePort.cpp:51-84 | for distinct messages it is the posting order if and only if backlog or traffic was empty at the start |
| WireLaws.ClosingLaw | src/LogosMessagePort.cpp:86-103 | closed() is emitted once by an end that closed and never otherwise; with the queue drained both ends agree on open or closed, and an open started end has heard everything |
| WireLaws.PostedIsHeard | src/LogosMessagePort.cpp:32-60 | after any run a message is taken if and only if both ends are open; a started peer then hears it, behind everything posted before, once the event loop has run dry, and the channel is still open |
| WireLaws.CloseReachesBoth | src/LogosMessagePort.cpp:86-103 | after any run close() closes its end at once and nothing of the other; when the event loop has run dry both ends are closed and each has said closed() once |
| WireLaws.DrainIsShort | src/LogosMessagePort.cpp:86-103 | the close exchange ends: draining takes at most one turn for each queued event and each open end |
| WireLaws.HeardBeforeClose | src/LogosMessagePort.cpp:32-103 | an end started before its peer closed hears every message accepted before that close before it reports the close itself |
| WireLaws.ShutStaysShut | src/LogosMessagePort.cpp:27-35 | once an end has closed, nothing more is accepted from its peer's side of it |
| WireLaws.LateStartLaw | src/LogosMessagePort.cpp:62-103 | started between the peer's close and the news of it, an end hears exactly what was in the event loop by the time it closes, and loses its backlog, all of it and nothing else |
| WireLaws.RunKeepsNews | src/LogosMessagePort.cpp:86-103 | in every run, what a closed peer had said to an end not yet started is queued ahead of the news of the close |
| WireLaws.LateStartLoses | src/LogosMessagePort.cpp:71-83 | a run that loses a message so |
| WireLaws.RunKeeps | src/LogosMessagePort.cpp:32-103 | the channel invariant survives every sequence of posts, starts, closes and turns |
| LoopbackPorts.LoopbackPort.CreatePair | src/LogosMessagePort.cpp:12-20 | two ports that point at each other, unused, whatever else the event loop holds |
| LoopbackPorts.LoopbackPort.IsOpen | src/LogosMessagePort.cpp:27-30 | a port counts as open while both ends are; not when its peer is gone |
| LoopbackPorts.LoopbackPort.Post | src/LogosMessagePort.cpp:32-49 | a message goes to the peer only through the event queue, and only while the channel is open; to a peer that is gone, never |
| LoopbackPorts.LoopbackPort.Arrive | src/LogosMessagePort.cpp:51-60 | dropped when closed, held back before start(), emitted after it |
| LoopbackPorts.LoopbackPort.Start | src/LogosMessagePort.cpp:62-84 | takes effect at once; the backlog is released behind what is already queued |
| LoopbackPorts.LoopbackPort.Close | src/LogosMessagePort.cpp:86-103 | emits closed() once and queues the peer's own close |
| LoopbackPorts.EventLoop.Turn | src/LogosMessagePort.cpp:43-48 | the closure at the head of the thread's queue is run: its own channel makes a turn, every other channel stays as it is |
| LoopbackPorts.RunClosure | src/LogosMessagePort.cpp:44-47 | a closure has the effect of the event it stands for on the channel of the port that queued it, and none if that port's peer is gone |
| LoopbackPorts.RunFlush | src/LogosMessagePort.cpp:77-82 | a released backlog is emitted message by message, in order, if the port is still open |
| LoopbackPorts.OthersSeeNothing | src/LogosMessagePort.cpp:43-48 | what one channel queues is not seen by the others on the same event loop |
| PortBuffer.ReadTakesFromTheFront | src/LogosMessagePortDevice.cpp:45-63 | a read moves bytes from the front of what is unread to the end of what was taken: as many as are there and fit |
| PortBuffer.MessagesAppend | src/LogosMessagePortDevice.cpp:74-80 | received messages are appended to what is unread, empty ones leave it alone, nothing taken is touched |
| Stream.StreamLaw | src/LogosMessagePortDevice.cpp:8-90 | for every interleaving of writes, turns, reads of any size and closes: taken, unread and in transit are end to end the peer's written bytes in arrival order; after a close they are a prefix |
| Stream.StreamInOrder | src/LogosMessagePortDevice.cpp:8-80 | if the port was started with an empty backlog or nothing in flight, the bytes read are a prefix of the bytes written, and nothing is missing |
| Stream.ScrambledStream | src/LogosMessagePortDevice.cpp:24-28 | a run in which the second write is read before the first |
| Stream.RunKeeps | src/LogosMessagePortDevice.cpp:8-90 | ports and devices stay consistent through every run |
| StreamLaws.WriteTakes | src/LogosMessagePortDevice.cpp:65-72 | a write is taken whole if and only if there is an open device on an open port; otherwise nothing changes, and the reader's device never does |
| StreamLaws.WrittenIsRead | src/LogosMessagePortDevice.cpp:45-80 | after any run, bytes written on an open channel are, within a bounded number of turns, the last of what the reader has taken or can take, behind everything written before |
| StreamLaws.DeviceFollowsPort | src/LogosMessagePortDevice.cpp:8-43 | building a device starts its port; over any later run it is open if and only if its port has not closed and nobody closed the device |
| PortDevices.PortDevice.constructor | src/LogosMessagePortDevice.cpp:8-29 | the device is open on any port or none; a port is started last |
| PortDevices.PortDevice.BytesAvailable | src/LogosMessagePortDevice.cpp:33-36 | the number of unread bytes |
| PortDevices.PortDevice.ReadData | src/LogosMessagePortDevice.cpp:45-63 | copies the next unread bytes into the caller's array and nothing beyond them; the buffer is reclaimed only when drained |
| PortDevices.PortDevice.WriteData | src/LogosMessagePortDevice.cpp:65-72 | one message with all the bytes, or -1 when there is no port or it is not open |
| PortDevices.PortDevice.HandleMessage | src/LogosMessagePortDevice.cpp:74-80 | a message is appended to the buffer |
| PortDevices.PortDevice.HandlePortClosed | src/LogosMessagePortDevice.cpp:82-90 | the device closes and keeps its bytes |
| PortTransportModel.PortNameStripsSlashes | src/LogosMessagePortTransport.cpp:62-72 | the port's name is the path without its leading slashes, all of them and nothing else |
| PortTransportModel.PortNameOfLoop | src/LogosMessagePortTransport.cpp:69-71 | the stripping loop computes that name |
| PortTransport.OwnershipLaw | src/LogosMessagePortTransport.cpp:28-52 | over every run in which no port is published while it is held, no port is ever held by two of registry, waiting lists, client devices and server devices; a listening server never leaves a port under its name; every waiting port has been announced |
| PortTransport.PublishingExactly | src/LogosMessagePortTransport.cpp:28-34 | a step of such a run gives a port two holders if and only if it publishes one that somebody other than the entry of that name still holds |
| PortTransport.SharedPort | src/LogosMessagePortTransport.cpp:28-52 | a run after which the registry and a client hold one port |
| PortTransport.PublishedOnceIsHeldOnce | src/LogosMessagePortTransport.cpp:28-52 | if no two publications of a run are of the same port, no port ever has two holders |
| PortTransport.StepHolds | src/LogosMessagePortTransport.cpp:18-254 | no step brings a port into the transport but the publication of that port |
| PortTransport.ConnectEnds | src/LogosMessagePortTransport.cpp:105-131 | connectToServer() ends with an open device, or with no device and a retry requested |
| PortTransport.DeviceLife | src/LogosMessagePortTransport.cpp:105-131 | closes drained, a client's device is on a live channel if and only if its port was open when taken |
| PortTransport.RetryExactly | src/LogosMessagePortTransport.cpp:105-131 | once the closes have drained, a retry leaves the client on a live channel if and only if it has an open device on a port that was open when taken, or has no open device and finds a live port under its name |
| PortTransport.RetryTakes | src/LogosMessagePortTransport.cpp:105-131 | after any run, closes drained, a client without a live device and not stuck takes the live port under its name, which leaves the registry |
| PortTransport.RecoveryLaw | src/LogosMessagePortTransport.cpp:105-131 | a port is published under the name of a client whose channel has died, before or after the news of it arrives: through any further steps, retries and deaths of other channels included, as long as nobody else takes, replaces or withdraws the port, it stays open and the client is not told to disconnect, the next retry after the closes have drained finds or leaves the client on that port, and the channel is live |
| PortTransport.PromiseKeptOverRuns | src/LogosMessagePortTransport.cpp:105-131 | through such a run the port waits for the client or is its device's |
| PortTransport.StuckOnADeadPort | src/LogosMessagePortTransport.cpp:107-108 | a device on a port that was dead when taken is kept by every later retry |
| PortTransport.DeadPortIsTaken | src/LogosMessagePortTransport.cpp:111-121 | a run that leads to such a device |
| PortTransport.RunKeeps | src/LogosMessagePortTransport.cpp:18-254 | the ownership invariant survives every such run of publish, withdraw, listen, connect, retry, disconnect and close |
| PortTransport.LifeRun | src/LogosMessagePortTransport.cpp:105-131 | in every run at all, a client's device is on a port that has closed exactly if it was closed when taken, and a closed end's peer has closed or will hear of it |
| PortRetries.RetryAskedExactly | src/LogosMessagePortTransport.cpp:105-131 | a step asks for one retry of a client if it leaves it without the device it had or is a connection attempt that leaves it without one; no other step asks for any |
| PortRetries.LostMeansRetry | src/LogosMessagePortTransport.cpp:123-129 | over any run from any state, a client that had a device and has none has asked for a retry since |
| PortRetries.ClosedPortIsLetGo | src/LogosMessagePortTransport.cpp:123-129 | a port that emits closed() costs its client the device and brings it a retry |
| PortRetries.ToldToDisconnect | src/LogosMessagePortTransport.cpp:133-147 | told to disconnect or to close, a client keeps its device, closed, and asks for nothing; closed, it is never open again, whatever follows |
| PortServing.PublishedReaches | src/LogosMessagePortTransport.cpp:234-249 | a published port goes to the first server that listens for its name, behind what waits there, with one more announcement; with none it stays in the registry, and a port with no name goes nowhere |
| PortServing.ListenTakes | src/LogosMessagePortTransport.cpp:210-220 | listen() takes what was published under the name before, and listens for no empty name |
| PortServing.RegistryExactly | src/LogosMessagePortTransport.cpp:28-52 | for every step and name: an entry appears by a publication nobody listens for, goes when it is withdrawn, listened for or connected to, and is otherwise left alone |
| PortServing.ServedInOrder | src/LogosMessagePortTransport.cpp:200-206 | over any run, until a server is closed it only adds to the end of what it serves and what waits: ports are served in the order taken and none is passed over |
| PortServing.TakenIsServed | src/LogosMessagePortTransport.cpp:234-249 | in every run each waiting port has its announcement queued, and after as many announcements all of them are served, in order |
| PortServing.ClosingServer | src/LogosMessagePortTransport.cpp:227-231 | a closed server forgets what waits, keeps what it serves, and takes nothing over any run in which it does not listen again |
| PortServing.ServedDevices | src/LogosMessagePortTransport.cpp:164-186 | over any run a served device is open if and only if its port has not closed, or had already closed when it was taken |
| PortTransportObjects.RoundIsHearFrom | src/LogosMessagePortTransport.cpp:33-33 | the published() signal reaches the servers in turn, the first listener of that name takes the port |
| PortTransportObjects.PortRegistry.Publish | src/LogosMessagePortTransport.cpp:28-34 | an entry is recorded and every listener hears of it; an empty name is ignored |
| PortTransportObjects.PortRegistry.Withdraw | src/LogosMessagePortTransport.cpp:36-36 | the entry is gone and no other |
| PortTransportObjects.PortRegistry.Take | src/LogosMessagePortTransport.cpp:44-52 | the port under the name is handed out and no longer registered |
| PortTransportObjects.MessagePortServer.OnPublished | src/LogosMessagePortTransport.cpp:234-249 | a listening server takes a port published under its name, lists it and queues an announcement |
| PortTransportObjects.MessagePortServer.Listen | src/LogosMessagePortTransport.cpp:210-220 | refuses an empty name; otherwise also takes what was published before |
| PortTransportObjects.MessagePortServer.ConfigureNewConnection | src/LogosMessagePortTransport.cpp:200-206 | the port that waited longest gets a device |
| PortTransportObjects.MessagePortServer.Close | src/LogosMessagePortTransport.cpp:227-231 | stops listening and lets the waiting ports go |
| PortTransportObjects.MessagePortClientIo.ConnectToServer | src/LogosMessagePortTransport.cpp:105-131 | keeps a live device; otherwise lets go of the dead one and takes the port under its name or asks for a retry |
| PortTransportObjects.MessagePortClientIo.OnDisconnected | src/LogosMessagePortTransport.cpp:123-129 | the device is dropped and one retry requested, as in the transport, where losing a device always asks for a retry |
| PortTransportObjects.MessagePortClientIo.DiscardDevice | src/LogosMessagePortTransport.cpp:152-159 | no device afterwards |
| PortTransportObjects.MessagePortClientIo.DoDisconnectFromServer | src/LogosMessagePortTransport.cpp:143-147 | the device closes and stays |
| PortTransportObjects.MessagePortClientIo.DoClose | src/LogosMessagePortTransport.cpp:136-141 | the device closes and the connection is closing |
| PortTransportObjects.MessagePortClientIo.IsOpen | src/LogosMessagePortTransport.cpp:133-133 | open while not closing and on an open device |
| RemoteCalls.CallLaw | src/LogosWebBridge.cpp:163-274 | whole runs of bridge, wire and router: the ids issued are the disjoint union of pending and resolved; the handler gets each call at most once and as asked; a callback that can be called has run exactly once if its call is resolved and not before, with an error built locally or exactly the first answer the host gave after the call reached it |
| RemoteCalls.HeldCallLaw | src/LogosWebBridge.cpp:142-254 | a pending call is marked dispatched if and only if it was sent; once the router is connected every pending call has been sent, exactly once; nothing lost, it is on the wire, in flight or on its way back |
| RemoteCalls.FinishedIsFinal | src/LogosWebBridge.cpp:261-274 | late replies, second completions and late timers change nothing; a finished call that was not sent never is |
| RemoteCalls.TimedOutWhileHeld | src/LogosWebBridge.cpp:178-186 | a call answered for while it was held never reaches the host's handler |
| RemoteCalls.RunKeeps | src/LogosWebBridge.cpp:142-274 | the invariant of both halves and the wire survives every run |
| RemoteCalls.RunCalls | src/LogosWebBridge.cpp:261-274 | in every run the ids called back are exactly the resolved ones that came with a callback |
| HeldCalls.CallIsRefused | src/LogosWebBridge.cpp:224-236 | a call fails at once only for want of a node or of the router's replica, with the payload that says which; it is never sent and nothing else changes |
| HeldCalls.CallIsHeld | src/LogosWebBridge.cpp:231-254 | every other call is held: it waits, as it was made, nobody is called back, and it has been sent if and only if the replica knows its source by then; connecting sends everything held, and not connecting nothing |
| HeldCalls.InitialisingSends | src/LogosWebBridge.cpp:163-186 | initialized() connects if the signal can be connected, and a connected bridge holds nothing back; without the connection nothing is sent |
| AnsweredCalls.FinishesExactly | src/LogosWebBridge.cpp:198-274 | both directions: a step finishes a call with a payload if and only if it is the refusal of that call, its own timer, or its answer coming in over a connected replica |
| AnsweredCalls.EveryOutcomeHasItsStep | src/LogosWebBridge.cpp:198-274 | over every run: a call is finished with a payload if and only if some step of the run finished it with that |
| AnsweredCalls.DeadlinesHold | src/LogosWebBridge.cpp:213-222 | whatever follows a call with a deadline, it has been finished or its timer is armed, and then the timer finishes it while the bridge lives |
| HandedCalls.HandedOver | src/LogosWebCallRouter.cpp:22-50 | over runs: a call that arrives while a handler is installed is given to it and stays in flight with nothing answered until the host completes that id; the completion is then what is answered |
| HandedCalls.NobodyHandles | src/LogosWebCallRouter.cpp:32-40 | with no handler the call is answered at once that there is no backend router, and is not in flight |
| HandedCalls.HandlerHasTheLastWord | src/LogosWebCallRouter.cpp:22-50 | over every run, whatever is answered to a call the handler was given is something the host completed that call with |
| HandedCalls.RoundTrip | src/LogosWebBridge.cpp:238-274 | after any run, over a connected bridge with nothing on the wire, a call reaches the handler as it was asked and its callback is given what the host completed it with |
| CallRouterModel.CompleteKeeps | src/LogosWebCallRouter.cpp:45-50 | only the first completion of an id in flight is emitted |
| CallRouterModel.ReceiveKeeps | src/LogosWebCallRouter.cpp:22-43 | a call is tracked before anything answers it, and answered at once when there is no handler |
| WebBridgeModel.DeliverKeeps | src/LogosWebBridge.cpp:261-274 | a payload moves its id from pending to resolved and invokes one callback at most |
| WebBridgeModel.DispatchKeeps | src/LogosWebBridge.cpp:182-196 | sending a held call adds it to the sent calls once and disturbs no other |
| WebBridgeModel.DrainKeeps | src/LogosWebBridge.cpp:177-186 | draining in any order sends exactly the waiting calls that had not been sent |
| WebBridgeModel.CallKeeps | src/LogosWebBridge.cpp:198-254 | a new call gets a fresh id and is recorded before anything can answer or send it |
| WebCallObjects.WebBridge.Deliver | src/LogosWebBridge.cpp:261-274 | erases first; unknown ids are ignored |
| WebCallObjects.WebBridge.Dispatch | src/LogosWebBridge.cpp:188-196 | marks the entry and sends the call as recorded |
| WebCallObjects.WebBridge.OnRouterInitialised | src/LogosWebBridge.cpp:163-186 | connects once, then sends all that waits in the order the table lists it |
| WebCallObjects.WebBridge.EnsureRouter | src/LogosWebBridge.cpp:142-161 | acquires once; a source already known initialises there and then |
| WebCallObjects.WebBridge.CallModuleAsync | src/LogosWebBridge.cpp:198-254 | records, arms the timer, then refuses, holds or sends the call, as in the bridge's model, where only a missing node or router refuses |
| WebCallObjects.WebBridge.TimerFires | src/LogosWebBridge.cpp:213-222 | delivers the timeout payload for the id |
| WebCallObjects.CallRouter.HandleCall | src/LogosWebCallRouter.cpp:22-43 | ignores a call without an id; otherwise tracks the id and gives the call to the handler if there is one, as in the router's model, and answers only if there is none |
| WebCallObjects.CallRouter.SetHandler | src/LogosWebCallRouter.cpp:17-20 | whether calls are handed over from now on |
| WebCallObjects.CallRouter.Complete | src/LogosWebCallRouter.cpp:45-50 | emits the payload only for an id in flight, which it stops tracking |
| IntentLaws.IntentLaw | src/LogosQmlBridge.cpp:146-269 | each id requested is in exactly one of waiting, queued, invoked, dropped; no callback runs twice |
| IntentLaws.OnlyTurnsInvoke | src/LogosQmlBridge.cpp:246-268 | no callback runs inside request(), an answer, a reload or the destructor, however the router re-enters |
| IntentLaws.FirstAnswerCounts | src/LogosQmlBridge.cpp:225-269 | whatever is delivered later, a callback is only ever given the first answer to its request |
| IntentLaws.QueuedAnswersRun | src/LogosQmlBridge.cpp:255-268 | a queued answer of the present generation, for a living engine, runs its callback in its turn |
| IntentAnswers.AnswersGetThrough | src/LogosQmlBridge.cpp:225-269 | a waiting request with a callback and a living engine is answered: whatever happens then, unless there is a reload, a destruction or that engine dies, its callback has run with that answer after one turn more than the queue was long |
| IntentFates.FateLaw | src/LogosQmlBridge.cpp:228-258 | a callback that was dropped has its reason: there was none to call, its engine was missing or has died, a reload came after the request, or the bridge is gone; one that ran could be called |
| IntentLaws.NoRouterMeansUnavailable | src/LogosQmlBridge.cpp:163-167 | without a router the request is answered, through the event loop, that nobody provides the intent |
| IntentRouting.RequestWaits | src/LogosQmlBridge.cpp:146-170 | with a router a request waits with its callback, engine and generation until it is answered: over any run that gives it no answer, from inside the router or later, up to a reload or the end |
| IntentRouting.RouterIsTold | src/LogosQmlBridge.cpp:163-169 | after any run, whatever follows: the router has been given the request if and only if there was one when it was made |
| IntentRouting.EveryAnswerHasAGiver | src/LogosQmlBridge.cpp:140-269 | over every run a callback is given an envelope that was handed in for its request, and the bridge's own exactly when there was no router; what waits was routed, and nothing is routed twice |
| IntentRouting.TheDeadHearNothing | src/LogosQmlBridge.cpp:255-258 | after any run and whatever follows, no callback runs for an engine that has died, not even one queued before |
| IntentLaws.AbandonmentIsFinal | src/LogosQmlBridge.cpp:271-283 | after a hot reload no callback of an earlier request ever runs, queued or not, for any router that re-enters |
| IntentLaws.ReportLaw | src/LogosQmlBridge.cpp:271-283 | the router is told exactly the ids waiting at that moment; no id twice over the run, none that is still to be answered; one farewell at most |
| IntentLaws.DestructionIsFinal | src/LogosQmlBridge.cpp:110-124 | the destructor runs no callback and leaves none to run; every request is accounted for; a router, if any, is told once |
| IntentLaws.RunKeeps | src/LogosQmlBridge.cpp:110-283 | conservation, stamps and reports survive every run |
| IntentBridges.QmlIntents.Request | src/LogosQmlBridge.cpp:146-170 | records, then gives the request to the router if there is one and fails it only if there is none |
| IntentBridges.QmlIntents.RouteIntent | src/LogosQmlBridge.cpp:169-169 | the router is given the request |
| IntentBridges.QmlIntents.FailIntentLocally | src/LogosQmlBridge.cpp:140-144 | delivers the one envelope made here, that nobody provides the intent |
| IntentBridges.QmlIntents.DeliverIntentResult | src/LogosQmlBridge.cpp:225-269 | erases the entry, drops what cannot be called, queues the rest |
| IntentBridges.QmlIntents.AbandonPendingIntents | src/LogosQmlBridge.cpp:271-283 | a new generation, an empty table, then the report |
| IntentBridges.QmlIntents.Destruct | src/LogosQmlBridge.cpp:110-124 | clears the table and forgets the router before telling it |
| IntentBridges.QmlIntents.Turn | src/LogosQmlBridge.cpp:255-268 | runs the queued closure: its generation, its engine, its callback |
| IntentPayload.CheckPayloadValue | include/LogosIntent.h:178-229 | from any totals reached so far it accepts exactly the values that fit what is left of the budget, leaves exact totals when it accepts, and overruns by at most one node or one string when it refuses |
| IntentPayload.IsCanonicalValue | include/LogosIntent.h:239-243 | accepts exactly the canonical values: allowed types, nesting at most 8, at most 1000 nodes, strings, keys and their sum within bounds; at most 1001 calls, 9 deep, and no counter near overflow, accepted or not |
| IntentPayload.IsCanonicalPayload | include/LogosIntent.h:233-237 | the same for the parameter map |
| IntentPayload.OrderIsIrrelevant | include/LogosIntent.h:208-224 | verdict, nodes, characters and depth do not depend on the order of elements and keys, at any level |
| IntentPayload.ChildSinks | include/LogosIntent.h:210-221 | one child that does not fit where the traversal meets it makes the whole value unfit: aborting early is right |
| IntentName.IsValidSegment | include/LogosIntent.h:84-107 | the underscore-flag scanner accepts exactly the segments of the grammar |
| IntentName.IsValidName | include/LogosIntent.h:109-120 | accepts exactly the names of the grammar |
| IntentName.ScannedIsSegment | include/LogosIntent.h:92-105 | no doubled and no trailing underscore is the same as words joined by single underscores |
| IntentName.SplitDecidesName | include/LogosIntent.h:113-119 | some division into segments exists if and only if the division at the dots is one |
| IntentName.JoinSplit | include/LogosIntent.h:113-113 | joining what was split gives the string back |
| IntentName.SplitJoin | include/LogosIntent.h:113-113 | splitting what was joined gives the parts back |
| IntentName.ReservedIsFirstSegment | include/LogosIntent.h:132-135 | a valid name is reserved if and only if its first segment is "logos" |
| DesktopCallLaws.AnswerLaw | src/LogosQmlBridge.cpp:371-473 | for every order of timer, readiness, reply and destruction: the callback runs at most once, with what the first event that had an answer offered, and not before one does |
| DesktopCallLaws.ToldByKind | src/LogosQmlBridge.cpp:398-470 | for every history, by the kind of its first answer: a timeout, that the module is not reachable, or the reply's own text, error message or invalid response; a callback that cannot be called is told nothing |
| DesktopCallLaws.SendLaw | src/LogosQmlBridge.cpp:454-472 | a call is sent exactly by the reports of reachability that reach a living bridge before any answer; never after its callback has run |
| DesktopCallLaws.SentAtMostOnce | src/LogosQmlBridge.cpp:454-472 | it is sent at most as often as the module is reported reachable |
| DesktopCallLaws.NeverStranded | src/LogosQmlBridge.cpp:398-453 | whatever timeoutMs is, an admitted unanswered call has a live timer while the bridge lives, set to the caller's deadline or to thirty seconds, and that timer answers it |
| DesktopCallLaws.AfterTheBridge | src/LogosQmlBridge.cpp:407-409 | with the bridge gone an unanswered call is answered if and only if it had been sent and a reply comes |
| DesktopCallLaws.FallbackCapsTheMethod | src/LogosQmlBridge.cpp:448-453 | a call without a deadline that was sent in time is told of a timeout when the fallback timer beats the reply, and the reply is dropped |
| DesktopCallLaws.CappedExactly | src/LogosQmlBridge.cpp:448-453 | a call without a deadline ends in a timeout if and only if the fallback timer is the first event that has an answer, in every history |
| DesktopCallLaws.RefusedLaw | src/LogosQmlBridge.cpp:380-396 | a refused call is answered at once, for the view module, the missing API or the missing client in that order, never sent and never answered again |
| DesktopCallLaws.CallsAreIndependent | src/LogosQmlBridge.cpp:371-473 | in any run of the bridge with any number of calls each goes through its own events only |
| DesktopCallLaws.AskedCall | src/LogosQmlBridge.cpp:371-473 | a call asked of a living bridge begins as it was asked and then goes through its own events only, whatever run follows |
| DesktopCallObjects.DesktopCall.constructor | src/LogosQmlBridge.cpp:371-453 | refuses in the order view module, API, client; otherwise arms one timer |
| DesktopCallObjects.DesktopCall.InvokeCallback | src/LogosQmlBridge.cpp:377-384 | the shared flag lets one payload through |
| DesktopCallObjects.DesktopCall.OnTimer | src/LogosQmlBridge.cpp:400-404 | answers with a timeout |
| DesktopCallObjects.DesktopCall.OnAvailable | src/LogosQmlBridge.cpp:454-472 | sends, or answers that the module is not reachable, unless the bridge is gone or the caller answered |
| DesktopCallObjects.DesktopCall.OnBridgeDestroyed | src/LogosQmlBridge.cpp:400-409 | the timer dies with the bridge, and readiness finds it gone |
| DesktopCallObjects.DesktopCall.OnResult | src/LogosQmlBridge.cpp:411-428 | answers with the error message, an invalid response or the result's text, whichever the reply brought |
| ViewCacheLaws.CacheLaw | src/LogosQmlBridge.cpp:536-902 | over every run every cached node is on the registered socket, factory and loader come from the registered path, replicas and models from the cached node and factory; every object ever made is in exactly one cache or deleted |
| ViewCacheLaws.IsolationLaw | src/LogosQmlBridge.cpp:630-673 | a run on modules whose names are apart from this one's leaves everything of this one as it was |
| ViewCacheLaws.IsolationExactly | src/LogosQmlBridge.cpp:877-885 | for two different modules that holds of all runs if and only if neither name is the other followed by a slash and more |
| ViewCacheLaws.KeyCollision | src/LogosQmlBridge.cpp:583-583 | two modules can share a model key if and only if their names are not apart |
| ViewCacheLaws.AnswerLaw | src/LogosQmlBridge.cpp:580-608 | among modules apart from it, model() answers only with a model made for that module and name |
| ViewCacheLaws.DropKeeps | src/LogosQmlBridge.cpp:870-902 | dropping leaves nothing cached for the module and every other module's node, plugin and replica |
| ViewCacheLaws.DropDeletes | src/LogosQmlBridge.cpp:870-902 | it deletes exactly the objects that belong to the module and leaves every other where it is |
| ViewCacheLaws.NothingStale | src/LogosQmlBridge.cpp:630-639 | after another socket is set, replica, node and loader are all new and the node is on that socket |
| ViewCacheLaws.PluginIsReplaced | src/LogosQmlBridge.cpp:641-665 | another path drops the replica, and the factory is there exactly when the new plugin loads |
| ViewCacheLaws.ModuleAnswersExactly | src/LogosQmlBridge.cpp:536-578 | module() has a replica exactly when it had one or socket, plugin and factory provide one |
| ViewCacheLaws.ModelAnswersExactly | src/LogosQmlBridge.cpp:580-608 | model() likewise, needing no plugin |
| ViewCacheAnswers.LastRegistrationCounts | src/LogosQmlBridge.cpp:630-673 | over every run a module is registered on the socket and plugin it was last given, and what is cached for it is from there; crashes and requests unregister nothing |
| ViewCacheAnswers.SameReplicaAgain | src/LogosQmlBridge.cpp:536-542 | a replica once handed out is handed out again, and asking makes nothing, whatever else happens, registering the same socket and plugin included, until a crash, another socket or another plugin |
| ViewCacheAnswers.SameModelAgain | src/LogosQmlBridge.cpp:579-609 | a model likewise among modules apart from its own, another plugin notwithstanding |
| ViewCacheAnswers.CachedIsServed | src/LogosQmlBridge.cpp:582-589 | asked again, model() serves the cached model and makes nothing |
| ViewCacheLaws.RunKeeps | src/LogosQmlBridge.cpp:536-902 | agreement and accounting survive every run |
| ViewModuleBridges.ViewModuleBridge.Module | src/LogosQmlBridge.cpp:536-578 | answers with what is cached afterwards, having made what was missing in the order factory, node, replica |
| ViewModuleBridges.ViewModuleBridge.ModelOf | src/LogosQmlBridge.cpp:580-608 | answers with what is cached under the joined key afterwards |
| ViewModuleBridges.ViewModuleBridge.GetOrCreateNode | src/LogosQmlBridge.cpp:799-814 | one node for each module, on its socket |
| ViewModuleBridges.ViewModuleBridge.LoadFactory | src/LogosQmlBridge.cpp:816-853 | a loader that fails is deleted, one that works is kept with its factory |
| ViewModuleBridges.ViewModuleBridge.EraseModels | src/LogosQmlBridge.cpp:877-885 | the loop erases and deletes exactly the models whose key starts with the prefix |
| ViewModuleBridges.ViewModuleBridge.DropViewModuleCaches | src/LogosQmlBridge.cpp:870-902 | replica, models, factory, loader and node go |
| ViewModuleBridges.ViewModuleBridge.SetViewModuleSocket | src/LogosQmlBridge.cpp:630-639 | nothing for the same socket; otherwise drops before it registers |
| ViewModuleBridges.ViewModuleBridge.SetViewReplicaPlugin | src/LogosQmlBridge.cpp:641-665 | nothing for the same path; otherwise drops replica, factory and loader and loads anew |
| SubscriptionLaws.OneSubscriptionLaw | src/LogosQmlBridge.cpp:676-764 | over every run without a late notice, at most one live subscription to each module and event |
| SubscriptionLaws.OnlyLateLosesTrack | src/LogosQmlBridge.cpp:749-754 | a step leaves a live subscription off the record if and only if it is a notice that comes after a newer live subscription to the same pair |
| SubscriptionLaws.LateNoticeDoubles | src/LogosQmlBridge.cpp:727-763 | after the first late notice of any run, subscribing again makes a second live subscription |
| SubscriptionLaws.LateNoticeHappens | src/LogosQmlBridge.cpp:727-763 | a run with two live subscriptions to one pair |
| SubscriptionLaws.AcceptsExactly | src/LogosQmlBridge.cpp:691-764 | each guard refuses and changes nothing; past them true is returned if and only if the subscription on record is alive afterwards, which is when one was alive or one is granted; a stale record is never taken for one |
| SubscriptionLaws.AcceptedLasts | src/LogosQmlBridge.cpp:727-763 | an accepted subscription lasts through everything that follows, late notices included, until the registry drops or gives up that one |
| SubscriptionObjects.EventBridge.OnModuleEvent | src/LogosQmlBridge.cpp:676-764 | the guards, the check of the record against the registry, the new subscription |
| SubscriptionObjects.EventBridge.OnNotice | src/LogosQmlBridge.cpp:749-755 | giving up removes the record under the key the closure captured, arming changes nothing |
| ReadyLines.ReadyLaw | src/ViewModuleHost.cpp:126-140 | whatever the sizes of the reads, the lines seen are the complete lines of the output, the buffer is what follows, and ready() is emitted once if one of them says READY and never otherwise |
| ReadyLines.ChunksDoNotMatter | src/ViewModuleHost.cpp:126-140 | two divisions of one output leave the reader in the same state |
| ReadyLines.SplitsOnce | src/ViewModuleHost.cpp:131-133 | an output divides into complete lines and a rest in one way only |
| ReadyLines.TrimmedIsReady | src/ViewModuleHost.cpp:134-134 | a line trims to READY if and only if it is READY with nothing but space around it |
| ReadyLines.IndexOf | src/ViewModuleHost.cpp:131-131 | the first newline, or -1 if and only if there is none |
| ReadyLines.ViewModuleHost.OnReadyRead | src/ViewModuleHost.cpp:126-140 | appends the read and parses every complete line now in the buffer |
| ReadyLines.ViewModuleHost.Spawn | src/ViewModuleHost.cpp:45-47 | a new process is read from an empty buffer with nothing emitted |

## Left out

- QtRemoteObjects, the QML and JavaScript engines, metaobjects and JSON conversion: library code. Callbacks, payloads, plugins
  and what they do when asked are parameters of the steps.
- The deletion of a port as a step, which also discards the closures it had queued (the QPointers at
  src/LogosMessagePort.cpp:42 and 75). A port whose peer is gone is covered, by the objects. Slots that close or delete a port in
  the middle of a backlog flush: a flush is one step.
- Other traffic in the thread's event loop, outside LoopbackPorts: the closures of one bridge or one transport are queued among themselves.
- A second device on one port: each end of a channel gets one device.
- PortTransport: registry entries whose port was deleted, and a server's announcement, which is counted but carries no more than the count.
- PortServing.ServedDevices: does not model MessagePortServerIo::doClose(), by which Qt Remote Objects closes a served device itself.
- RemoteCalls.HeldCallLaw: says nothing of the order in which held calls go out, because the source keeps them in a hash table.
- RemoteCalls: one bridge for each router, since ids are counted by the bridge; the wire keeps order and may lose, as a QtRO
  connection over one port does.
- Freshness of request ids (a counter that never wraps, UUIDs that never repeat) is assumed; generation numbers do not wrap.
- Intents.dfy: a router that abandons or destroys the bridge from inside a call to it; it may answer and ask, any number of times.
- Real time. A timer is armed or fires; only the deadline it is armed with is a number.
- EventSubscriptions.dfy: the registry is not part of this repository. Its ids are fresh and not 0, it no longer knows an id it gave up, and
  its notice does not come before onEventWhenAvailable() has returned.
- ViewModuleCaches.dfy: objects that QObject parents delete, so that a cached pointer goes null, and the order of deferred deletion.
- ReadyLines.ViewModuleHost: the process, its exit, its standard error, and output of a process that has already finished.
- The synchronous callModule(), watch(), describeItem(), respond(), deliverIntentRequest(), makeEnvelope() and normalizeError(): each is settled by
  reading one branch.
- LogosWebRuntime, LogosEmscriptenMessagePort, ui-host, token stores and identity: foreign calls and operating-system plumbing, or decided elsewhere.
- Characters outside the basic plane in names: payload strings are sequences of UTF-16 units, as the source counts them, but names are
  sequences of `char`, where such a character counts once. No intent name that contains one is valid either way.
