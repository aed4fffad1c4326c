# Verified model of the IPC broker

A Dafny model, with proofs, of a local IPC broker, its clients and its workers: the broker's concurrent connection
tasks over five shared tables, service activation with queued calls, reply routing, publish/subscribe, disconnect
cleanup, the client actor and its local subscribers, the worker loop, packet framing, and the signature parser of the
`rob` command line tool. `dafny verify dfyconfig.toml` checks everything.

## How it is organised

The broker is modelled at two grains, both built on the same critical sections (`Sections.Body`).

* **Lock steps** (`Sections`, `LockSteps`): any number of connection tasks, each with a program counter; one step is a
  mutex acquisition, a critical section with its release, or one channel send. Packets arrive in any order that the
  environment chooses. Mutex acyclicity, erasure, publish order and delivery, the service states, the exact fate of a
  call, and the arrival of replies, answers and acknowledgements are proved here (`LockOrder`, `Ownership`, `Erasure`,
  `PublishOrder`, `PublishDelivery`, `ServiceStates`, `LockFates`, `CallJourneys`, `Deliveries`, `RestStates`,
  `Announcements`), for every reachable state or every run.
* **Closed system** (`Network`): the lock-step broker together with its peers. A peer is an `IPCClient` actor that does
  not subscribe, or an honest peer that answers only calls it was sent, each at most once; `Workers` proves that a
  worker's whole connection, interleaved with anything the others do, is a run of an honest peer. `Tokens`, `Routing`,
  `Conservation` and `Replies` prove that each call is one linear token; `Matching` proves the client's positional
  matching from that.
* **Atomic handlers** (`Hub`, `HubRuns`, `HubHistory`, `CallFates`, `Fifo`, `CleanupAlgebra`): one step is a whole
  `handle_*` or a whole `cleanup_client`. `Hub.ServerState` is the code, with its loops, and each method is proved to
  take the abstract state to the one that a specification function gives; the theorems are about runs of those
  functions. `HubHistory` says what the tables and the messages are in terms of the events alone: who joined, asked,
  replied and left, in which order. The table below names the methods that loop; those that are one straight line are
  the link to the code and have no row.
* **Between the grains**: `Solo` and `SoloRuns` prove that every run of one handler's lock steps, with no other task in
  between, computes the atomic handler, and that there is such a run. `LockGap` exhibits reachable lock-step runs in
  which what holds for atomic handlers fails, and `LockFates` and `RestStates` say exactly when.

Client ids and call ids are random UUIDs; the model takes them to be fresh. A channel is an append-only log named by its
client, and a receiver reads it with a pointer; `outs[c]` is everything ever enqueued to `c`.

The other parts stand alone: `LocalSubscribers` (the client's event dispatch, with 16-slot channels), `Activation` (the
initial service table), `Framing`, and `Signature`, `SignatureGrammar` and `SignatureLaws` (the parser as a class with
two cursors, as a function, the grammar, and the laws).

## Where the code differs from its comments, and what is false of it

* The lock order in the comment at src/broker.rs:56-64 puts `clients` before `services`, but the unknown-object branch
  (src/broker.rs:658-697) takes `clients` while it holds `services`: `LockGap.DocumentedOrderBroken`. It is broken there
  and nowhere else: by a task that waits to refuse a call whose object has no reachable owner and is no service
  (`LockFates.DocumentedOrderExactly`, `LockFates.OrderBrokenFor`). The nesting that really occurs is services, clients,
  objects, and it is acyclic: `LockOrder.NoMutexDeadlock`.
* "No call is lost" holds for atomic handlers and fails at lock grain, in three ways, each with its exact condition. An
  accepted call is dropped if and only if its activation finds the service running although its lookup found no worker
  (`LockFates.CallDroppedExactly`, witness `LockGap.CallDroppedAtLockGrain`). A queued call leaves its queue other than
  to a registrant if and only if a cleanup sweeps it, of the service's owner or with a snapshot of active calls that
  lacks it (`LockFates.QueuedCallLeaves`, witness `LockGap.QueuedCallDroppedAtLockGrain`). And a message posted through
  a cloned sender is dropped if and only if the task of its addressee has ended (`LockFates.MessageEnqueued`, witness
  `LockGap.MessageDroppedAtLockGrain`). There is no fourth way: `CallJourneys.CallAccountedFor`.
* Cross-table agreement holds after every atomic handler and can fail at lock grain even when every task is at rest: a
  service can go on running on a client that does not own its object (`LockGap.DisagreementAtRest`). At rest the tables
  agree about the owner of a service if and only if its last taker has left or was also the last to put the object:
  `RestStates.AgreementAtRest`.
* The "Caller disconnected" branch of `handle_call` (src/broker.rs:600-613) is dead:
  `LockFates.CallerNeverDisconnected`.
* Replies are matched to callers by id alone and whoever sends them (src/broker.rs:458). That a reply arrives is proved
  under any peers (`Deliveries.ReplyRouted`); that it is the only one, about peers that answer as `run_worker` does.
* The comment at src/broker.rs:301 mentions a watchdog; there is none, and nothing here claims that a call is answered.
* A call refused with "No such object" stays in `calls` (src/broker.rs:619-622, 685-698):
  `CallFates.EveryCallOneOutcome` has the id recorded in all three outcomes.
* The client waits for an answer to `RegisterService` (src/client.rs:143-148), and the broker sends none: a client that
  sends nothing else hears nothing (`Announcements.AnnouncerHearsNothing`). No public function of `IPCClient` sends that
  request.

## Model

| member | source | states |
|---|---|---|
| LockOrder.LocksAlwaysAgree | src/broker.rs:587-698 | Lock steps: in every reachable state a mutex is held by exactly the task whose program point holds it |
| LockOrder.NoMutexDeadlock | src/broker.rs:56-64 | Lock steps: following waits-for edges from any waiting task ends, after at most three, at a task that can step by itself |
| Ownership.OwnedStep | src/broker.rs:618-645 | Lock steps, any peers: every step keeps that tasks handle their own client's calls, `calls` names the issuer, and a queue holds issued calls for its own object only |
| Erasure.DepartedLeavesNothing | src/broker.rs:222-306 | Lock steps, any peers: once `cleanup_client` has finished, the client is in no table, owns and runs no service, and no queue holds a call it issued |
| Erasure.NothingReturns | src/broker.rs:198-215 | Lock steps: and that stays so in every later state of the run |
| PublishOrder.EventsContiguous | src/broker.rs:741-782 | Lock steps, any peers: the events of a publisher on a topic enqueued to a subscriber are a contiguous segment of what it published, in order, without duplicates; a client that never subscribed gets none (that none is missed is `NoEventMissed`, that subscribing is recorded `SubscriptionRecorded`) |
| PublishDelivery.NoEventMissed | src/broker.rs:741-782 | Lock steps, any peers: between any two states of a run in which the publisher is not in the middle of a publish to the topic, a client that was subscribed at the first and is connected at the second has been enqueued exactly the events published in between, each once and in order |
| Deliveries.SubscriptionRecorded | src/broker.rs:725-738 | Lock steps, any peers: whenever the task that received a `Subscribe` is idle again, its client is in the topic's set and `Subscribed` has been enqueued to it since; in every later state the subscription is about to be recorded, or recorded and acknowledged or about to be, or cleaned up with its client |
| Deliveries.SubscriberHearsAll | src/broker.rs:725-782 | Lock steps, any peers: so from the receipt of a `Subscribe` on, once its task has been idle again and while the client is connected, it is enqueued exactly the events published between any two states in which the publisher is not in the middle of a publish to the topic |
| Deliveries.ReplyDelivered | src/broker.rs:464-484 | Lock steps, any peers: when a reply's call is looked up and recorded, the record is taken, and in every later state the very reply, value included, is held for the recorded caller or has been enqueued to it, unless the caller's task has ended |
| Deliveries.ReplyRouted | src/broker.rs:457-494 | Lock steps, any peers: when the task that received a reply is idle again it has looked the call up at some step, and if the call was recorded then, the very reply has been enqueued to that caller since, unless the caller's task has ended |
| Deliveries.QueryAnswered | src/broker.rs:446-453 | Lock steps, any peers: the one message a `HasObject` handler sends its client says whether the name was registered at the step of the lookup, and in every later state it is on its way or has been enqueued |
| Deliveries.QueryAsOf | src/broker.rs:446-453 | Lock steps, any peers: when the task that received a `HasObject` is idle again, an answer has been enqueued that was right at some step in between |
| ServiceStates.SingleFlight | src/broker.rs:656-684 | Lock steps: over any segment of any run a service is started at most once more than it is reset by a `RegisterService` or its owner's cleanup |
| ServiceStates.StartsAndResets | src/broker.rs:653-684 | Lock steps: a step starts a service, once, exactly if it takes it from stopped to starting; it resets exactly the service it announces, or those its leaving client owned |
| ServiceStates.RunningHasEmptyQueue | src/broker.rs:504-514 | Lock steps: a running service has nothing queued |
| ServiceStates.CallsNameRegisteredObjects | src/broker.rs:587-645 | Lock steps, any peers: a call is only enqueued to a client that has registered the object it names |
| Conservation.TokensShift | src/broker.rs:457-707 | Closed system: every move takes the tokens of at most one group of calls from where they were to one new place, and duplicates none |
| Replies.CallsLinear | src/broker.rs:574-707 | Closed system: a call is in at most one place and once, and nowhere any more when its reply has been enqueued |
| Replies.AtMostOneReply | src/broker.rs:457-494 | Closed system: a reply is on its caller's channel, names the called object, and is the only reply to that call on any channel (that it arrives is `Deliveries.ReplyRouted`) |
| Replies.DeliveryNeverStuck | src/broker.rs:330-345 | Closed system: a ready reader can always receive the next packet its peer has written |
| Matching.PositionalMatching | src/client.rs:127-174 | Closed system: every packet a non-subscribing client took for an answer answers that very request, with the same call id or object name; at most one packet is ever unread, none when it does not wait |
| Matching.EveryPacketTaken | src/client.rs:138-162 | Closed system: such a client has taken every packet it has read for an answer, in the order of its channel |
| Matching.NeverUnexpected | src/client.rs:303-317 | Closed system: `remote_call` and `has_object` never fail with "Unexpected response type" |
| Workers.RunWorker | src/worker.rs:243-341 | The loop registers all objects, then writes exactly the replies of `Serve`, and ends with an error on a lost connection or a failed write |
| Workers.WorkerIsHonest | src/worker.rs:243-334 | Closed system: from a worker's connection on, whatever the others do between its registrations and its turns, each turn reading the next packet of its channel, the state stays reachable; its stream, with what the broker has taken of it, is always its registrations so far and the replies `RunWorker` writes for its turns |
| Workers.NoUnknownObject | src/worker.rs:297-322 | Closed system: a call that reaches a peer names one of its objects, so the "Unknown object" branch is never taken |
| Workers.EveryCallAnswered | src/worker.rs:289-319 | Closed system: a worker that has read its channel from the start up to any point, and could write, has written for every call in it up to there, and nothing else, one result with the call's id, the called object and the value its method returned, in the order of the channel |
| Hub.ServerState.LoadServiceActivations | src/activate.rs:86-107 | The records of a file are inserted in order, other kinds skipped |
| Activation.LoadedExactly | src/activate.rs:86-107 | The initial table has exactly the objects of the accepted records, each stopped and idle under its last service name |
| Hub.ServerState.HandleRegisterObject | src/broker.rs:497-528 | The new state is that of `RegisterObjectAt`: ownership, running state, and the queue flushed before `Registered` |
| Hub.ServerState.HandlePublish | src/broker.rs:741-782 | Each connected subscriber of the topic gets the event once, and nobody else anything, in whatever order the senders are visited |
| Hub.ServerState.RetainActive | src/broker.rs:279-299 | Draining a queue and pushing back what is active is an order-preserving filter |
| Hub.ServerState.SweepServices | src/broker.rs:263-303 | Services of the client are reset, the queues of the others filtered, whatever the iteration order |
| Hub.ServerState.CleanupClient | src/broker.rs:222-306 | The new state is that of `Cleanup` |
| HubRuns.ArmsNeverTaken | src/broker.rs:624-684 | Atomic handlers: in every reachable state the "worker id without sender" fall-through and the `_ => {}` arm cannot be taken |
| HubRuns.TablesAgree | src/broker.rs:403-707 | Atomic handlers, any replies: cross-table agreement is kept along every run |
| HubHistory.TablesFromHistory | src/broker.rs:222-782 | Atomic handlers: in every reachable state the tables are what the list of events says: connected are those who joined and have not left, an object belongs to the last to register it and not left, topics list who subscribed and has not left, a call is recorded until a reply to it or its caller's departure, services bear the name last announced, and one is starting exactly from a call that nobody owned on until it is announced or taken |
| HubHistory.ReplyReachesCaller | src/broker.rs:457-484 | Atomic handlers: in every reachable state a reply is enqueued, unchanged, to the client that awaits it by the history and to nobody else, or to nobody if none does; then its call is recorded no more, and nothing else changes |
| HubHistory.OthersIgnored | src/broker.rs:489-492 | Atomic handlers: a response that carries no call id changes nothing |
| HubHistory.QueryAnsweredRight | src/broker.rs:446-453 | Atomic handlers: in every reachable state `HasObject` enqueues to the asking client one answer, true if and only if some client registered the name and the last to do so has not left; nothing else changes |
| HubHistory.SubscriptionAcknowledged | src/broker.rs:725-738 | Atomic handlers: a subscription enqueues `Subscribed` to the client and adds it to that topic's subscribers only |
| HubHistory.EventReachesListeners | src/broker.rs:741-782 | Atomic handlers: an event is enqueued, once, to exactly the clients that have subscribed to its topic and not left |
| HubHistory.RegistrationAcknowledged | src/broker.rs:497-528 | Atomic handlers: a registrant is enqueued the whole queue and then `Registered`, becomes the owner, and its service runs on it with nothing queued; other objects and services stay as they were |
| HubHistory.ServiceAnnounced | src/broker.rs:531-570 | Atomic handlers, any state: an announced service bears the new name; a new one is stopped, unowned and has nothing queued, an old one keeps owner and queue and is stopped unless it runs on the announcing client; nothing else changes and nothing is sent |
| HubHistory.CallFollowsHistory | src/broker.rs:587-699 | Atomic handlers: by the history alone, a call of an owned object goes to the owner; one of an unowned service is queued last and starts it, under the name last announced, unless it has been called while unowned since; any other is refused with one error that names the object |
| HubHistory.DepartureResets | src/broker.rs:263-277 | Atomic handlers: a departure stops and frees exactly the services the client owned, starts and sends nothing, and leaves state, name and owner of the others |
| CallFates.AgreementFromStart | src/broker.rs:222-707 | Atomic handlers: from the initial state on, owners, subscribers and callers are connected, a queued-for or starting service is unowned, a running one runs on the connected owner of its object, no call is queued twice, and with honest replies each queued call is recorded for its issuer |
| CallFates.EveryCallOneOutcome | src/broker.rs:624-699 | Atomic handlers: in every reachable state a call of a connected client is forwarded to the owner, queued last, or refused with one error: exactly one of the three; and it is recorded |
| Announcements.AnnouncerHearsNothing | src/broker.rs:531-570 | Lock steps, any peers: nothing is ever enqueued to a client that has sent `RegisterService` only (what that request does is `HubHistory.ServiceAnnounced`) |
| CallFates.ClearDiscardsNothing | src/broker.rs:265-277 | Atomic handlers: in every reachable state the `clear()` on an owner's disconnect finds an empty queue |
| CallFates.QueuedStayRecorded | src/broker.rs:258-299 | Atomic handlers, honest replies: along every run queued calls are recorded and have been forwarded to nobody |
| CallFates.NoQueuedCallLost | src/broker.rs:265-520 | Atomic handlers, honest replies: a queued call leaves its queue only by being forwarded to a registrant of its object, or because its caller left |
| Fifo.Backlog | src/broker.rs:660-684 | Atomic handlers: the queue of an unowned service is the calls issued for it, in issue order, without those of callers who left |
| Fifo.Delivery | src/broker.rs:587-645 | Atomic handlers: an owner is sent every call for its object, in issue order |
| Fifo.FifoAcrossActivation | src/broker.rs:497-528 | Atomic handlers: a registrant is sent the live backlog in issue order, then `Registered`, then every later call in issue order, until another client registers or it leaves |
| CleanupAlgebra.RetainedInOrder | src/broker.rs:282-299 | The drain-and-push loop acts on the two parts of a queue separately, in order |
| CleanupAlgebra.RetainedCounts | src/broker.rs:282-299 | It drops the inactive calls and keeps everything else as often as it was there |
| CleanupAlgebra.CleanupIdempotentAndCommuting | src/broker.rs:222-306 | From any state, a second cleanup changes nothing, and cleanups of two clients commute, queues included |
| SoloRuns.EveryHandlerRun | src/broker.rs:406-707 | For every packet (a reply's recorded caller being connected), every run of the lock steps of its handler alone that comes to rest has the effect of the atomic handler on tables and channels, which `HubHistory` states from the events |
| SoloRuns.HandlerAlone | src/broker.rs:406-707 | And there is such a run |
| SoloRuns.EveryCleanupRun | src/broker.rs:222-306 | Every run of a cleanup alone is at each point on its way to the tables of the atomic cleanup, has them at its end, and sends nothing |
| Solo.SoloCleanup | src/broker.rs:222-306 | And there is a run to its end |
| LockGap.CallDroppedAtLockGrain | src/broker.rs:587-683 | Lock steps: a reachable state in which an accepted call of a connected client is recorded but in no queue and on no channel, after a registration came between its lookup and its activation |
| LockGap.QueuedCallDroppedAtLockGrain | src/broker.rs:257-299 | Lock steps: a reachable state in which a queued call of a connected client has been dropped by a bystander's cleanup |
| LockGap.MessageDroppedAtLockGrain | src/broker.rs:587-645 | Lock steps: a reachable state in which a call of a connected client has been posted to a worker that left between the lookup and the posting |
| LockGap.DisagreementAtRest | src/broker.rs:236-514 | Lock steps: a reachable state with no mutex taken and every task idle or ended, in which a service runs on a connected client and nobody owns its object |
| RestStates.AgreementAtRest | src/broker.rs:497-514 | Lock steps, any peers: in every state at rest the owner of a service owns the object if and only if the last to take the service has left or was the last to put the object; and with no call queued since it was last taken, nothing is pending and it is not starting |
| RestStates.ConnectedAtRest | src/broker.rs:222-303 | Lock steps, any peers: in every reachable state at rest owners, subscribers and recorded callers are connected |
| CallJourneys.CallAccountedFor | src/broker.rs:497-707 | Lock steps, any peers: from its receipt on, in every later state of the run a call is in a handler, in a flush or letter on its way, in a queue or on a channel, or its refusal is on its caller's channel, unless a step in between was one of the three that lose a call |
| LockFates.QueuedCallLeaves | src/broker.rs:263-299 | Lock steps: a step takes a call off its queue if and only if it is a registration's flush, or a sweep by the service's owner or with a snapshot that lacks the call; a flushed call is about to be sent to the registrant |
| LockFates.CallDroppedExactly | src/broker.rs:587-707 | Lock steps, any peers: after a step of any task, a call in a handler is neither still in it, nor posted to a worker, nor appended to its object's queue, nor refused on its caller's channel, if and only if the step is its activation and finds the service running |
| LockFates.CallerNeverDisconnected | src/broker.rs:586-616 | Lock steps: in every reachable state the lookup has found the caller, so the "Caller disconnected" branch is never taken |
| LockFates.MessageEnqueued | src/broker.rs:642-644 | Lock steps: a message sent is the next on its addressee's channel, unless and only if the addressee's task has ended, and then nothing changes |
| LockFates.DocumentedOrderExactly | src/broker.rs:56-64 | Lock steps: in every reachable state a waiting task holds a mutex that the comment orders after the one it waits for if and only if it is about to look up the sender for a refusal; then it holds `services`, and the object of its call is no service |
| LockFates.OrderBrokenFor | src/broker.rs:591-699 | Lock steps: a step leads a task there if and only if it is an activation that finds no service for the object, and activation is reached exactly by calls whose lookup found no owner with a sender |
| LockGap.DocumentedOrderBroken | src/broker.rs:56-64 | Lock steps: a reachable state in which a task holds `services` and waits for `clients` |
| Framing.FrameLayout | src/broker.rs:117-123 | A frame is the length divided by 2^24, 2^16, 2^8 and 1, modulo 256, in this order, and then the payload |
| Framing.PacketLayout | src/broker.rs:87-100 | For any bytes: fewer than four are end of file; the length is the first times 2^24 and so on; over 65536 is an error with that length, too few bytes are end of file, otherwise just these bytes are the packet |
| Framing.LengthRoundTrip | src/broker.rs:117-119 | The 32-bit big-endian length is read back as written |
| Framing.BytesRoundTrip | src/broker.rs:88-90 | And four length bytes are written back as read |
| Framing.Reader.ReadPacket | src/broker.rs:87-100 | One packet, or an error: short stream, or a length over 65536 |
| Framing.Reader.ReaderLoop | src/broker.rs:330-345 | The packets of the whole stream, up to the error that ends it |
| Framing.Writer.WritePacket | src/broker.rs:102-127 | One frame is appended, or an oversized payload refused and nothing written |
| Framing.Writer.WriterLoop | src/broker.rs:365-380 | The frames of the queue up to the first payload that cannot be written |
| Framing.TruncatedStream | src/broker.rs:87-127 | A stream of frames cut anywhere yields exactly the complete packets, then an end-of-file error |
| Framing.FramesRoundTrip | src/broker.rs:87-127 | Every list of payloads of at most 65536 bytes is recovered from its frames |
| Framing.Rewrite | src/broker.rs:87-127 | For any byte stream, writing the packets read reproduces the bytes they were read from, and what follows is no packet |
| Signature.ParseI64Exactly | src/bin/rob.rs:206-209 | A text is read as `n` if and only if it is an optional sign and at least one digit and nothing else, `n` is their value by place, and -9223372036854775808 <= `n` <= 9223372036854775807 |
| Signature.IntegerRoundTrip | src/bin/rob.rs:206-209 | The decimal text of every i64 parses to it |
| Signature.Parser.ParseHere | src/bin/rob.rs:195-240 | The recursive code over two cursors computes `ParseValue`, both in its result and in what it leaves of signature and arguments |
| Signature.Parser.ParseMapHere | src/bin/rob.rs:211-223 | The loop over map entries computes `ParseMap` |
| Signature.Parser.ParseListHere | src/bin/rob.rs:224-234 | The loop over list items computes `ParseList` |
| Signature.ParseSignature | src/bin/rob.rs:192-246 | The outcome of a whole parse, and the arguments left |
| SignatureGrammar.AcceptsClosed | src/bin/rob.rs:199-240 | The parser reads a grammatical signature to its end and gives its denotation, or rejects when it has none |
| SignatureGrammar.AcceptsOpen | src/bin/rob.rs:213-234 | A signature that ends inside k brackets parses as if they were closed |
| SignatureGrammar.AcceptsOnly | src/bin/rob.rs:199-240 | A successful parse has read a grammatical prefix, and its value is what that denotes |
| SignatureLaws.DenotesFitting | src/bin/rob.rs:200-217 | A shape denotes a value exactly of arguments that are enough and are texts of 64-bit integers where integers are read, and takes just those |
| SignatureLaws.Characterised | src/bin/rob.rs:195-240 | `parse` succeeds if and only if the signature has a grammatical prefix, unclosed only at its end, and the arguments fit it |
| SignatureLaws.IntegersRead | src/bin/rob.rs:204-210 | "i" reads the next argument as `n` if and only if it is a text of `n`; any other argument is an error that names it, and so is none |
| SignatureLaws.ErrorsJustified | src/bin/rob.rs:195-240 | An error is right about its cause: the signature was empty; or a named character occurs in it and opens nothing; or a named argument is no integer text; or an argument was asked for by a character that occurs in it |
| SignatureLaws.Understood | src/bin/rob.rs:195-240 | Its result is the denotation, and the arguments taken are #s + #i + the number of map entries |
| SignatureLaws.RepeatedKeys | src/bin/rob.rs:211-222 | A parsed map has exactly the keys written, each with the value written last for it |
| SignatureLaws.AutoClosing | src/bin/rob.rs:213-234 | Appending the closers of the open brackets, as many as are open, gives the same value and leftover arguments, whatever follows |
| SignatureLaws.PrefixFree | src/bin/rob.rs:211-234 | No closed signature is a proper prefix of another, and a signature has one reading |
| SignatureLaws.RoundTrip | src/bin/rob.rs:192-246 | Writing a value as signature and arguments and parsing them gives it back, and leaves exactly what followed in either |
| SignatureLaws.ValuesRoundTrip | src/bin/rob.rs:192-246 | Every value of strings, i64 integers, null, lists and maps can be written so |
| LocalSubscribers.ClientActor.HandleSubscribe | src/client.rs:176-194 | The sender is pushed on its topic's list, and the subscription written |
| LocalSubscribers.ClientActor.Dispatch | src/client.rs:206-229 | Each listener of the topic is offered the event once; those that take it stay listed, in order |
| LocalSubscribers.ClientActor.Run | src/client.rs:123-246 | Any interleaving of the actor's turns and its receivers' computes `After` |
| LocalSubscribers.EverythingTold | src/client.rs:127-194 | In any run the actor writes to the broker exactly the requests of its handles and one `Subscribe` for each new subscription, in order |
| LocalSubscribers.EachOnItsOwn | src/client.rs:209-228 | In the state after any run each receiver is exactly as if it had been the only one: pruning one never affects another |
| LocalSubscribers.NoGaps | src/client.rs:206-229 | A receiver is sent every event dispatched since it subscribed, once and in order, up to the first at which it was closed or had 16 unread; it is pruned there and only there |
| LocalSubscribers.ListedMissNothing | src/client.rs:176-229 | Listed for a topic are exactly the receivers that subscribed to it and have never been refused, and each has been sent all that was due to it |

## Left out

- Channel capacity and backpressure in the broker: its 64-slot channels are unbounded logs, so a send never blocks, and deadlock through full channels is not modelled.
- Liveness: that calls are answered, that a starting service leaves that state, or that a task gets a mutex.
- JSON text: messages are datatypes, serialisation never fails, and floating point numbers do not occur.
- Sockets, pipes, listeners, signals, timers, reconnecting, logging, and all Windows branches.
- `spawn_service` and file reading in activation: a start is a recorded event, and the records of the readable files are a parameter.
- The iteration order of hash maps: a set or map in the model, visited in any order by the loops; the list that `handle_publish` collects is chosen by the environment at lock grain.
- The two-level subscription map is flattened to a map from (object, topic).
- A sender stored in `calls` or cloned by a handler is named by its client id, each client having one channel.
- When the writer stops: everything enqueued counts as sent, and a peer reads any prefix of it; messages to a channel whose task is gone are dropped.
- Packets that are not valid JSON, and the client's end on an empty packet, which the broker never writes.
- A peer whose I/O has failed does nothing more in the closed system, although the client actor goes on after a failed write.
- Clients that subscribe are outside the positional-matching theorem: an event can be read as a reply.
- Reads cancelled in the middle of a packet by `select!`.
- Peers that forge replies: at most one reply per call, and no queued call lost, are about peers that answer only what they were sent.
- Recursion depth of the signature parser, Unicode, `print_value`, argument counting and `main` in `rob`; `IntText` is this model's printing of integers.
- Concurrent updates in the classes: `Hub.ServerState` runs one handler at a time; the interleaving of tasks is in the lock-step model, on values.
- SoloRuns.EveryHandlerRun: for a reply, the recorded caller must be connected, as it is at the atomic grain and at rest (`RestStates.ConnectedAtRest`); to one in the middle of its cleanup the code still sends through the stored sender (`LockFates.MessageEnqueued`), and the atomic form drops the reply.
- LockOrder.NoMutexDeadlock: is about mutexes only, not about tasks blocked on a channel.
- Replies.AtMostOneReply: assumes peers that answer only calls they were sent, each once, because the broker does not check who replies.
