# Verified models of skp-go

This project models the two systems of the repository and proves properties of them with Dafny 4.11.
`dafny verify dfyconfig.toml` checks everything.

**The actor runtime and the message broker (skynet_go).**

- `rpc_server.dfy` is the worker core: N workers on one bounded channel, two counters, and a
  `Stop(true)` that must not return too early. One event is one atomic action of one goroutine; the four
  atomic loads of `isStopping` are four events, so every interleaving is a run.
- `rpc_call.dfy` is the life of a pooled `Msg`: pool, sender, queue, worker, reply slot.
- `mq_broker.dfy` is a call through the broker as a distributed state machine: clients, wires that break
  and lose data, queues named after topic and tag that deliver more than once, responses routed back by harbor.
- `mq_delivery.dfy` follows a message through that system: who may execute it, that no failed write loses
  it, that wires, queues and outboxes keep their order. `mq_names.dfy` says which queues two topics share.
- `mq_registry.dfy` holds the broker's indexes (instance, harbor, topic) and a queue producer as classes.
- `mq_framing.dfy` is the length-prefixed stream with short writes, chunked reads, timeouts and
  reconnects.

**The socket library (skpPublic, skpProxy, skpRoute, skpMonitor).**

- `skp_codec.dfy` holds the two binary headers; `skp_stream.dfy` says what a byte stream means.
- `skp_reader.dfy` is the receiving half on the heap: a buffer that is a slice of a shared array, frames
  that alias it, and the worker that writes into a frame after it was handed over.
- `skp_table.dfy` and `skp_registry.dfy` are the socket registry: 100 child maps and a parent map of
  shared agents refine one table. `skp_route.dfy` is the way of an answer back to the client's socket.
- `skp_close.dfy` is the shutdown protocol of a socket, statement by statement.
- `skp_addrs.dfy` prints and parses the address list.

`bytes.dfy`, `text.dfy` and `options.dfy` are shared: integers as bytes, the functions of Go's `strings` in use,
and optional values.

Protocols are a `State`, an `Event`, `Enabled` and `Apply`; `IsRun`/`After` are the runs. The fields that
the source updates in place are a class beside each protocol whose methods are the atomic actions, with
`View() == Apply(old(View()), event)`, so that what is proved of all runs holds of the object.

## Where the code does not do what it is for

Each of these is a theorem, not a remark.

- `Start(false)` zeroes the counters and keeps the queue. `Stop(true)` drains every epoch exactly if the
  epoch starts with nothing in flight (`RpcServer.DrainIffEmptyStart`); otherwise it can return too early
  (`LeftoverEscapes`) or never (`LeftoverHangs`, and exactly then: `StopReturnsIffEmptyStart`).
- `Msg.Init` keeps `Reply`. A `Call` returns the answer to its own request exactly if its handler does not
  panic (`RpcCall.OwnAnswerIffNoPanic`); after a panic it can return another call's reply
  (`PanicReturnsStaleReply`).
- A queue is filed under topic + "_" + tag, and serves the subscribers of the first pair that gave it this
  name. A request only ever reaches subscribers of its own topic and tag exactly if the name has no other
  underscore behind a possible topic (`MqNames.OwnSubscribersIff`); otherwise there is a run in which a client
  of another topic executes it (`MqNames.GoesAstray`).
- A registration refused for its name takes the name's owner out of the instance index
  (`MqRegistry.Server.Register`); the other two indexes are restored exactly.
- A message is seen by the reader of the broker protocol exactly if it is not empty and shorter than 2^31
  bytes. Otherwise its length is cut to a signed 32-bit integer: nothing is seen for zero, the reader panics
  for a negative one (from 2^31 bytes on), and sees too short a message for a positive one (from 2^32 on)
  (`MqFraming.LookSeesFrame`).
- A header that announces zero bytes makes the socket reader's inner loop run for ever; it ends exactly
  when there is none (`SkpStream.InnerLoopStops`).
- After a client has stopped its subscription a queue may still write to it, even behind the reply to the
  stop (`MqBroker.WriteAfterStop`); that is ruled out exactly if no queue producer is between its tests and its
  write (`MqBroker.SilentIffNotHeld`), and each one writes at most once (`MqBroker.StopSubscribeIsFinal`).
- A socket whose reader still has more frames than fit into the read channel can never finish closing
  (`SkpClose.CloseFinishesIff`).
- A worker that calls `SkpCloseChan` while a writer waits in the full write channel never comes back
  (`SkpClose.WorkerComesBackIff`).
- What `SkpWriteChan` accepted is all written exactly if the write channel is empty when the worker takes
  the close token and no write has fallen short (`SkpClose.AllWrittenIff`). After a failed write the worker may
  hand over the next item; what `Conn.Write` then does is arbitrary in the model, and the peer may see a gap
  (`SkpClose.GapAfterShortWrite`). It sees the accepted bytes in order exactly if nothing is written behind a
  write that fell short (`SkpClose.BytesInOrderIff`).
- A server that is first asked for after the listener was closed accepts sockets again; a shutdown lasts
  exactly for the servers known before it (`SkpTable.ShutdownHoldsIff`).
- The address list carries a server over exactly if its id is its port (`SkpAddrs.ListArrivesIff`).

## Model

| member | source | states |
|---|---|---|
| RpcServer.CounterAccounting | skynet_go/rpc/server.go:114-157 | in every reachable state `SendNumber - recvNumber` is queued + being handled + counted but not yet queued, less what `Start` carried in |
| RpcServer.DrainSafety | skynet_go/rpc/server.go:141-178 | for any number of workers and senders, when `Stop(true)` returns in an epoch that started empty, every message counted before the state became stopping has been handled |
| RpcServer.DrainIffEmptyStart | skynet_go/rpc/server.go:114-157 | the guarantee holds for all runs of an epoch if and only if the epoch starts with an empty queue and no sender between counting and sending |
| RpcServer.LeftoverEscapes | skynet_go/rpc/server.go:119-129 | with a carried-in message there is a run in which `Stop(true)` returns before a counted message was handled |
| RpcServer.LeftoverHangs | skynet_go/rpc/server.go:119-129 | and one after which `Stop(true)` cannot return however long the workers run |
| RpcServer.LeftoverReachable | skynet_go/rpc/server.go:119-129 | such an epoch is reachable: a message sent to a stopped actor that is started again with its channel |
| RpcServer.OvertakenRun | skynet_go/rpc/server.go:167-223 | once the receive counter is ahead of an unused send counter, no internal run changes that |
| RpcServer.InvStep | skynet_go/rpc/server.go:114-223 | every step of every goroutine keeps accounting, loaded values behind the counters, and the evidence that an exited worker saw the queue drained |
| RpcServer.MeasureStep | skynet_go/rpc/server.go:180-223 | no internal step adds work; every step other than a fruitless poll removes some |
| RpcServer.EffortsBounded | skynet_go/rpc/server.go:180-223 | whatever the scheduler chooses, an internal run has no more steps other than polls than the measure at its beginning |
| RpcServer.StopCanReturn | skynet_go/rpc/server.go:141-157 | from every draining state a run without new sends ends with all workers gone |
| RpcServer.DrainProgress | skynet_go/rpc/server.go:141-223 | the same for every reachable state in which `Stop(true)` waits in an epoch that started empty |
| RpcServer.StopReturnsIffEmptyStart | skynet_go/rpc/server.go:114-178 | in every state of an epoch in which `Stop(true)` waits it can still return, if and only if the epoch starts with nothing in flight |
| RpcServer.FirstInFirstOut | skynet_go/rpc/server.go:214-217 | over every run without a new channel, the queue and what was sent behind it are, in order, the messages that workers began with and the queue that is left |
| RpcServer.QueueIsBounded | skynet_go/rpc/server.go:124-128 | the queue never holds more than 1000 messages, and a sender gets on exactly when it holds fewer |
| RpcServer.RegisterWraps | skynet_go/rpc/server.go:167-178 | the workers compare the counters modulo 2^32 |
| RpcServer.StopWithoutWaiting | skynet_go/rpc/server.go:167-178 | after `Stop(false)` a worker that asks exits, whatever the counters say |
| RpcServer.NewChannelDrains | skynet_go/rpc/server.go:119-129 | an epoch with a new channel starts with nothing in flight, and every `Stop(true)` in it drains |
| RpcServer.StartsWithOneWorker | skynet_go/rpc/server.go:114-134 | an epoch starts with one worker at its select and the old queue or an empty one |
| RpcServer.AddedWorkerNotices | skynet_go/rpc/server.go:105-112 | an added worker takes part at once, and sees a stop that is under way |
| RpcServer.TimersAfterCancel | skynet_go/rpc/server.go:180-223 | in reachable states the done case and the timer fire only when the context has been cancelled |
| RpcServer.DoneThenTimer | skynet_go/rpc/server.go:180-223 | the done case fires once for a worker, and the timer only for workers for which it has fired |
| RpcServer.Server.constructor | skynet_go/rpc/server.go:71-103 | the state `Start(true)` leaves on a new server |
| RpcServer.Server.Start | skynet_go/rpc/server.go:114-134 | a start event on a stopped server, nothing otherwise |
| RpcServer.Server.AddRoutine | skynet_go/rpc/server.go:105-112 | one more worker at its select |
| RpcServer.Server.StopBegin | skynet_go/rpc/server.go:141-146 | only a started server begins to stop; the messages counted so far are noted |
| RpcServer.Server.StopStoreWait | skynet_go/rpc/server.go:147-151 | the wait flag is stored after the state |
| RpcServer.Server.StopCancel | skynet_go/rpc/server.go:152-152 | then the context is cancelled |
| RpcServer.Server.StopReturn | skynet_go/rpc/server.go:153-157 | `Stop` returns only when all workers have exited |
| RpcServer.Server.CountSend | skynet_go/rpc/rpcU/server.go:260-267 | a sender counts before it sends |
| RpcServer.Server.SendOnCache | skynet_go/rpc/rpcU/server.go:260-267 | then the message goes behind the queue, which has room |
| RpcServer.Server.RunReceive | skynet_go/rpc/server.go:180-223 | a worker takes the oldest message |
| RpcServer.Server.RunDoMsg | skynet_go/rpc/server.go:180-223 | its handler returns |
| RpcServer.Server.RunAddRecv | skynet_go/rpc/server.go:214-217 | the receive counter rises before the stop question |
| RpcServer.Server.RunDone | skynet_go/rpc/server.go:180-223 | the done case fires once and leads to the stop question |
| RpcServer.Server.RunTimer | skynet_go/rpc/server.go:180-223 | afterwards the timer does |
| RpcServer.Server.IsStoppingLoad | skynet_go/rpc/server.go:167-178 | one of the four loads: state, wait flag, receive counter, send counter |
| RpcCall.ExclusiveOwnership | skynet_go/rpc/rpcE/server.go:192-354 | in every reachable state a message is in at most one of pool, queue, worker, caller or reply slot, once; a pooled one has an empty slot; a slot holds only its own message |
| RpcCall.ExactlyOnePlace | skynet_go/rpc/rpcU/server.go:128-367 | in every reachable state every message is in exactly one of pool, caller, queue, worker and reply slot, or the pool has dropped it |
| RpcCall.ReplyNeverBlocks | skynet_go/rpc/rpcE/server.go:251-291 | the send on the reply channel always finds room |
| RpcCall.WokenByOwnMessage | skynet_go/rpc/rpcE/server.go:331-354 | what wakes a caller is its own message with its own request |
| RpcCall.OwnAnswerIffNoPanic | skynet_go/rpc/rpcE/server.go:192-354 | a finished `Call` has the answer to its own request if and only if its handler did not panic |
| RpcCall.ResultByOutcome | skynet_go/rpc/rpcE/server.go:192-354 | what a finished `Call` returned for each outcome of its handler; after a panic, no reply or that of another call |
| RpcCall.LeftInMessage | skynet_go/rpc/rpcE/server.go:192-292 | what the handler leaves in the message for each kind and outcome, also the reply beside an encoding error |
| RpcCall.FirstInFirstOut | skynet_go/rpc/server.go:214-217 | over every run the workers begin with the messages in the order in which they were sent |
| RpcCall.MessagesAreRecycled | skynet_go/rpc/rpcE/server.go:294-354 | a handled message that nobody waits for, and that of a finished `Call`, is back in the pool; a sender waits only for a queue of 1000 |
| RpcCall.PanicReturnsStaleReply | skynet_go/rpc/server.go:40-45 | a reachable state in which a `Call` has returned the reply of another one |
| RpcCall.InvStep | skynet_go/rpc/rpcU/server.go:128-367 | every step gives each message exactly one new place consistent with pool, queue, workers, callers and slot |
| RpcCall.MsgObject.Init | skynet_go/rpc/server.go:40-45 | type, request and error are reset; reply and slot are kept |
| RpcCall.MsgObject.Prepare | skynet_go/rpc/rpcE/server.go:294-345 | the message carries the new invocation and no error |
| RpcCall.MsgObject.DoMsg | skynet_go/rpc/rpcE/server.go:192-292 | what each outcome of the handler leaves in the message |
| MqBroker.CallCorrelation | skynet_go/mq/client/client.go:341-387 | in every reachable state of the whole system, an answered call has the result of an execution of exactly its own request (a call to the broker has the broker's reply, a registration a harbor given to this client) |
| MqBroker.PendingChannelIsEmpty | skynet_go/mq/client/hConsumer.go:47-68 | a pending call's one-slot channel is empty, so the reading goroutine never blocks on it |
| MqBroker.AnswerIsFinal | skynet_go/mq/client/client.go:159-168 | whatever is delivered again later, an answer that a call has got stays its answer |
| MqBroker.HarborsAreDistinct | skynet_go/mq/server/client.go:118-165 | no two clients have the same harbor |
| MqBroker.InvStep | skynet_go/mq/server/hConsumer.go:36-78 | every event keeps: each request behind the broker leads back to its caller, each response names a request that was executed, numbers are fresh, pending, answered and returned calls are apart |
| MqBroker.StopSubscribeIsFinal | skynet_go/mq/server/qProducer.go:26-48 | over every run without a new registration: once the stop is noted the bit stays, no queue gets past its test of that client, and each queue writes to it at most once, only with a connection it picked before |
| MqBroker.SilentIffNotHeld | skynet_go/mq/producer.go:86-108 | nothing is written to the client after the stop if and only if no queue producer is between its tests and its write at that moment |
| MqBroker.WriteAfterStop | skynet_go/mq/server/client.go:166-170 | a run in which a queue writes to the client behind the reply to its stop |
| MqBroker.LateWrites | skynet_go/mq/server/client.go:166-170 | such a run from the start of the system |
| MqBroker.HoldsStep | skynet_go/mq/server/qProducer.go:26-48 | one event: a queue that writes to an unsubscribed client held it before and then holds it no more |
| MqBroker.RepliesKeepFlowing | skynet_go/mq/server/hProducer.go:19-25 | from every reachable state in which an unsubscribed client is started and connected, over every run that does not disturb it, it stays served and everything queued for it can be delivered in order |
| MqBroker.ServedIffUndisturbed | skynet_go/mq/client.go:39-56 | over any run without a new registration the client is still served at the end if and only if no error was reported for it, which clears Start, and its connection did not break |
| MqBroker.RepliesDelivered | skynet_go/mq/producer.go:86-108 | the reply producer alone can empty the outbox onto the connection, in order, and changes nothing else |
| MqBroker.RepliesFlowIffStarted | skynet_go/mq/server/hProducer.go:19-25 | without a new registration some reply can still be written if and only if Start is set or the producer already has the connection |
| MqBroker.RegistrationCompletes | skynet_go/mq/client/client.go:233-248 | an accepted registration can bring client, connection and harbor index to agree on the next harbor, and changes nothing else |
| MqBroker.TwoHomes | skynet_go/mq/server/client.go:118-165 | from the start of the system, a run after which two clients are registered, one with any topic and tag |
| MqBroker.CallCompletes | skynet_go/mq/producer.go:86-108 | between registered clients a call can complete with whatever the handler returns |
| MqBroker.CallsComplete | skynet_go/mq/client/client.go:341-387 | a reachable state for any request on any topic and any result: its call has returned that result of an execution of it |
| MqDelivery.ExecutorWasRegistered | skynet_go/mq/server/server.go:46-56 | in every reachable state, whoever executed a request had been accepted under a topic, and under `*` or a list of tags with a tag, that give a queue the name of the request; nobody executes broker notices |
| MqDelivery.GrantStep | skynet_go/mq/server/client.go:118-165 | one event: a registration enters that history exactly when it is accepted, trimmed, and its client is sent the harbor |
| MqDelivery.OneExecutionForEachDelivery | skynet_go/mq/client/hConsumer.go:37-69 | over every run, for every client and request: as often as it was taken off the wire, its handler has ended or is still running |
| MqDelivery.ExecutingStep | skynet_go/mq/client/hConsumer.go:37-69 | the same for one event |
| MqDelivery.NoRequestIsLost | skynet_go/mq/producer.go:86-108 | over every run, for every queue: what was queued and what was enqueued are, in order, what error-free writes took and what is still queued |
| MqDelivery.MessagesStep | skynet_go/mq/producer.go:98-105 | one event: only a write without error takes a message out of a queue, the first one; enqueued ones go behind |
| MqDelivery.NoReplyIsLost | skynet_go/mq/server/hProducer.go:19-25 | the same for the replies to a client |
| MqDelivery.OutboxStep | skynet_go/mq/server/hConsumer.go:66-72 | one event: what the broker puts into the outbox of a client, its own answers and the responses for its harbor, and what leaves it |
| MqDelivery.WireStep | skynet_go/mq/mqConn.go:77-151 | one event: a wire loses its first message to its reader, its end to a break, or gains one message at its end |
| MqDelivery.ClientActsOnFirst | skynet_go/mq/client/hConsumer.go:37-69 | what a client does with the first message of its wire |
| MqDelivery.WriteArrives | skynet_go/mq/producer.go:98-105 | a write arrives exactly when it was done and the connection is whole |
| MqDelivery.HarborNeverReturns | skynet_go/mq/server/client.go:40-80 | over every run, a harbor that an error, a close or a violation of the protocol took out of the index never comes back |
| MqDelivery.OnlyRegisteredClientsAreHeard | skynet_go/mq/server/hConsumer.go:36-78 | requests are queued and responses routed exactly for registered clients; an unregistered one that does not register is closed |
| MqDelivery.RequestsToTheBroker | skynet_go/mq/server/client.go:118-179 | which of its own requests the broker serves, ignores or answers by closing |
| MqNames.OwnSubscribersIff | skynet_go/mq/server/server.go:176-190 | for every topic and tag: in all reachable states all executions of such requests are by clients registered for them, if and only if the queue name can be read in one way (or no such request is ever executed) |
| MqNames.GoesAstray | skynet_go/mq/server/qProducer.go:7-29 | for every other reading of the name, a run in which a client that was never registered for the topic executes the request |
| MqNames.UnambiguousIsSafe | skynet_go/mq/server/qProducer.go:26-29 | the if half of it |
| MqNames.PlainNames | skynet_go/mq/server/server.go:177-177 | names without underscores are not ambiguous |
| MqNames.Collision | skynet_go/mq/server/server.go:177-177 | "a_b" with "c" and "a" with "b_c" share a queue |
| MqBroker.CallClient.Call | skynet_go/mq/client/client.go:341-376 | the request carries the client's harbor and the next number, which becomes pending |
| MqBroker.CallClient.GetPendingMsg | skynet_go/mq/client/client.go:159-168 | finds and removes a pending entry |
| MqBroker.CallClient.Receive | skynet_go/mq/client/hConsumer.go:37-69 | a broker notice changes nothing; a response completes its pending call only; a request starts to execute |
| MqBroker.CallClient.Return | skynet_go/mq/client/client.go:233-248 | the call returns what its channel holds; a registration stores the harbor |
| MqRegistry.Client.Subscribe | skynet_go/mq/server/client.go:82-93 | topic and tag are trimmed; the parts of the tag are added to the tag map, nothing for `*`; on a client that never registered the map then holds exactly these |
| MqRegistry.Client.Error | skynet_go/mq/server/client.go:40-47 | the state bits after an error report, and whether it starts teardown |
| MqRegistry.TeardownOnce | skynet_go/mq/client.go:39-56 | any sequence of reports starts teardown once if one is about the current connection of a client that is neither stopping nor stopped nor failed, else never; it takes Start away and sets Err, and no other bit changes |
| MqRegistry.TopicClients.IsOk | skynet_go/mq/server/server.go:24-44 | a client is added if and only if none of its tags is taken; no tag is ever matched by two clients |
| MqRegistry.TopicClients.GetClient | skynet_go/mq/server/server.go:46-56 | the only client that matches, independent of the iteration order; nothing exactly when none matches |
| MqRegistry.TopicClients.Del | skynet_go/mq/server/server.go:58-62 | one entry goes, exclusivity stays |
| MqRegistry.SubscribedMeans | skynet_go/mq/server/client.go:82-108 | a client matches the tags between the bars of its subscription, or all |
| MqRegistry.OverlapIff | skynet_go/mq/server/server.go:24-44 | some tag is matched by both clients if and only if one subscribes to all or they have a part in common |
| MqRegistry.TakenIff | skynet_go/mq/server/server.go:24-44 | a subscription is refused if and only if it overlaps with one that the topic has |
| MqRegistry.EntriesAfter | skynet_go/mq/server/server.go:191-225 | adding and removing a client change its own entry of the topic index and no other |
| MqRegistry.Server.NoSharedTag | skynet_go/mq/server/server.go:24-44 | two registered clients of one topic never overlap |
| MqRegistry.Server.constructor | skynet_go/mq/server/server.go:64-79 | empty indexes |
| MqRegistry.Server.OnMqRegister | skynet_go/mq/server/server.go:200-225 | when it refuses, and the exact indexes afterwards, also after a late refusal that has already stored the client |
| MqRegistry.Server.OnMqDel | skynet_go/mq/server/server.go:191-198 | removal by name, by harbor and from the topic's table |
| MqRegistry.Server.Admit | skynet_go/mq/server/server.go:191-225 | registration with the removal after a refusal: harbor and topic index are restored exactly, the instance index loses the name |
| MqRegistry.Server.Register | skynet_go/mq/server/client.go:118-165 | the whole registration branch: granted iff name, harbor and tags are free; what each refusal leaves; the instance index survives a refusal iff the name was not registered |
| MqRegistry.Server.GetHarbor | skynet_go/mq/server/server.go:89-91 | a harbor larger than all given out |
| MqRegistry.Server.GetHarborClient | skynet_go/mq/server/server.go:166-174 | the client with that harbor |
| MqRegistry.Server.GetClient | skynet_go/mq/server/server.go:157-164 | the one registered client of the topic that matches the tag |
| MqRegistry.Server.ReportError | skynet_go/mq/server/client.go:40-47 | the first report takes the client out of all three indexes, later ones change nothing |
| MqRegistry.SQProducer.GetConn | skynet_go/mq/server/qProducer.go:26-48 | a producer without a client takes the one registered subscriber, if there is one that has not stopped; a stopped one is given up and no other; the connection is given exactly if that client is started |
| MqRegistry.SQProducer.Error | skynet_go/mq/server/qProducer.go:54-57 | the error is reported to the chosen client, which leaves the indexes on the first report, and is given up |
| MqFraming.IntRoundTrip | skynet_go/utility/utility.go:11-31 | a length survives exactly when it fits a signed 32-bit integer |
| MqFraming.BytesRoundTrip | skynet_go/utility/utility.go:11-31 | four bytes survive always |
| MqFraming.LookSeesFrame | skynet_go/mq/mqConn.go:153-193 | what the reader sees of a frame, for every length, by its signed 32-bit remainder; it sees the message if and only if that is not empty and shorter than 2^31 |
| MqFraming.LengthBytes | skynet_go/utility/utility.go:22-31 | a length is four bytes, the high one first and with its top bit for the sign |
| MqFraming.FrameBytes | skynet_go/mq/mqConn.go:77-109 | a frame is the length so spelled and the message |
| MqFraming.DecodeEncode | skynet_go/mq/mqConn.go:77-193 | the stream of a list of messages decodes to the non-empty ones, in order, with nothing left |
| MqFraming.DecodePrefix | skynet_go/mq/mqConn.go:153-193 | a part of the stream decodes to a prefix of the messages and keeps the beginning of the rest |
| MqFraming.DecodeAppend | skynet_go/mq/mqConn.go:129-151 | decoding can stop anywhere and go on when more bytes are there |
| MqFraming.PlainEncode | skynet_go/mq/mqConn.go:77-109 | a stream of non-empty messages holds no empty frame |
| MqFraming.CutMessagesWereSent | skynet_go/mq/mqConn.go:129-193 | whatever whole frames have been cut, they are the first messages sent, all of them at the end |
| MqFraming.DecodedWasSent | skynet_go/mq/mqConn.go:129-193 | the same for every sender whose stream begins with what was read |
| MqFraming.FailsDrained | skynet_go/mq/mqConn.go:129-151 | without empty frames, a look that finds no message means none is complete |
| MqFraming.Vector.Read | skynet_go/mq/vector.go:28-52 | the chunk read, of at most 4096 bytes, goes behind the buffer; nothing changes on an error |
| MqFraming.Vector.Put | skynet_go/mq/vector.go:54-56 | appends |
| MqFraming.Vector.Get | skynet_go/mq/vector.go:65-71 | it hands out a slice exactly if that is the beginning of the buffer of that size; nothing exactly when `CheckSize` refuses; the source panics exactly for a negative size |
| MqFraming.Vector.Skip | skynet_go/mq/vector.go:81-87 | drops the first bytes |
| MqFraming.MqConn.SetConn | skynet_go/mq/mqConn.go:28-54 | a different connection starts with an empty buffer; the same one keeps every byte |
| MqFraming.MqConn.Write | skynet_go/mq/mqConn.go:77-94 | exactly the frame is sent, or a beginning of it and the connection is marked bad |
| MqFraming.MqConn.WriteBytes | skynet_go/mq/mqConn.go:111-127 | short writes go on where they stopped |
| MqFraming.MqConn.GetMqMsg | skynet_go/mq/mqConn.go:153-193 | one look at the buffer; consumed and buffered bytes stay what was read |
| MqFraming.MqConn.ReadMqMsg | skynet_go/mq/mqConn.go:129-151 | one message, or a failure at any byte after which messages and buffer are what the bytes read decode to |
| MqFraming.OnReadMqMsg | skynet_go/mq/consumer.go:84-115 | with timeouts and reconnects to the same connection in between: one message for each round that does not fail, these are the first ones sent, and with the buffered ones they are all that have arrived |
| MqFraming.SendAll | skynet_go/mq/mqConn.go:60-127 | one writer sends exactly the frames of the list, or a beginning of them after a failure |
| MqFraming.ReceivedPart | skynet_go/mq/mqConn.go:129-193 | what was handed on and what is buffered are the first messages sent, all of them when everything was read |
| MqFraming.Transfer | skynet_go/mq/mqConn.go:77-193 | round trip: whatever the short writes, chunks, timeouts and reconnects, as many successful rounds as there are messages return exactly the list, and the reader never panics |
| Bytes.LittleRoundTrip | skpPublic/skpProtocol/skpProtocol.go:166-190 | little-endian encoding is undone by decoding |
| Bytes.LittleOnto | skpPublic/skpProtocol/skpProtocol.go:166-190 | and decoding by encoding |
| Bytes.BigRoundTrip | skynet_go/utility/utility.go:11-31 | the same in big-endian order |
| Bytes.BigOnto | skynet_go/utility/utility.go:11-31 | and back |
| Bytes.FourBytes | skpPublic/skpProtocol/skpProtocol.go:166-190 | four bytes in little-endian order, spelled out |
| Bytes.FourBigBytes | skynet_go/utility/utility.go:11-31 | in big-endian order the same bytes count from the other end |
| Bytes.UpperHalf | skpProxy/server/skpTcpSocketProxy.go:41-61 | the upper half of eight bytes is the number in the last four |
| Text.IndexOfIsFirst | skpPublic/skpSocket/skpTcpSocket.go:370-378 | the position found is the first one; -1 means that there is none |
| Text.SplitCuts | skynet_go/mq/server/client.go:82-93 | the parts joined are the text, none contains the separator, the first ends where the separator first begins |
| Text.TrimKeepsMiddle | skynet_go/mq/server/client.go:82-93 | exactly the tabs, newlines and spaces at both ends are taken away |
| SkpCodec.ConnHeadRoundTrip | skpPublic/skpProtocol/skpProtocol.go:50-62 | a connection header survives encoding and decoding, whatever follows it |
| SkpCodec.ConnHeadOnto | skpPublic/skpProtocol/skpProtocol.go:50-62 | its bytes survive decoding and encoding |
| SkpCodec.HeadRoundTrip | skpPublic/skpProtocol/skpProtocol.go:64-80 | an ordinary header survives encoding and decoding |
| SkpCodec.HeadOnto | skpPublic/skpProtocol/skpProtocol.go:64-80 | its bytes survive decoding and encoding |
| SkpCodec.ConnHeadLayout | skpPublic/skpProtocol/skpProtocol.go:50-62 | the bytes of a connection header that hold each of its fields |
| SkpCodec.HeadLayout | skpPublic/skpProtocol/skpProtocol.go:64-80 | the bytes of an ordinary header that hold each of its fields |
| SkpCodec.ChecksReadTheSizes | skpPublic/skpProtocol/skpProtocol.go:122-164 | both checks in bytes: the header is there, and as many bytes as bytes 0-1 and bytes 4-7 announce |
| SkpCodec.PackField | skpPublic/skpProtocol/skpProtocol.go:166-190 | changing one field changes exactly its bytes |
| SkpCodec.CheckStays | skpPublic/skpProtocol/skpProtocol.go:122-164 | a complete frame stays the same frame when more bytes arrive |
| SkpCodec.PatchMeetsCodec | skpPublic/skpSocket/skpTcpSocket.go:170-194 | patching bytes 24-27 and 32-39 is decoding, setting `ProxyID` and `AddrSocket`, and encoding; all else stays |
| SkpStream.ParseConserves | skpPublic/skpSocket/skpTcpSocket.go:297-343 | the frames and the leftover are the input; the leftover holds no complete frame |
| SkpStream.ParseAppend | skpPublic/skpSocket/skpTcpSocket.go:297-343 | what more bytes add depends on the leftover only |
| SkpStream.FragmentationIndependent | skpPublic/skpSocket/skpTcpSocket.go:297-343 | however the stream is cut into reads, the frames are those of one batch parse |
| SkpStream.InnerLoopStops | skpPublic/skpSocket/skpTcpSocket.go:316-340 | the inner loop ends if and only if no header at a frame boundary announces zero bytes, and then with the batch parse |
| SkpStream.StoppedIsParsed | skpPublic/skpSocket/skpTcpSocket.go:316-340 | when the loop has ended, after however many passes, it has cut the batch parse |
| SkpStream.ConversationParses | skpPublic/skpProtocol/skpProtocol.go:100-120 | a connection header and any packets are cut into exactly these |
| SkpStream.SecondCheck | skpPublic/skpSocket/skpTcpSocket.go:132-151 | the worker accepts a cut frame, as header or as packet, exactly when it is at least as long as an encoded header |
| SkpStream.WorkerLearns | skpPublic/skpSocket/skpTcpSocket.go:132-146 | the worker knows its connection if and only if some frame passed the check of a connection header, and acts on the connection type of the first such frame |
| SkpStream.DialledStays | skpPublic/skpSocket/skpTcpSocket.go:297-304 | a socket that dialled out knows its connection from the start |
| SkpStream.WorkerFollows | skpPublic/skpSocket/skpTcpSocket.go:210-241 | of a conversation the worker learns the connection type from the first frame, accepts every packet, and patches it if and only if that type is 0 |
| SkpReader.Socket.constructor | skpPublic/skpSocket/skpTcpSocket.go:84-109 | an empty buffer and no frames |
| SkpReader.Socket.AppendData | skpPublic/skpSocket/skpTcpSocket.go:111-122 | in place exactly if the array has more room than needed, else in a new array with 16384 bytes to spare; the held bytes grow by the data and no byte of any frame handed over changes |
| SkpReader.Socket.Receive | skpPublic/skpSocket/skpTcpSocket.go:307-315 | a read keeps every frame's bytes and the account of everything received |
| SkpReader.Socket.Deliver | skpPublic/skpSocket/skpTcpSocket.go:124-130 | a frame is the first bytes of the held slice, in the same array, and the rest is what follows |
| SkpReader.Socket.CutPass | skpPublic/skpSocket/skpTcpSocket.go:316-340 | one pass of the inner loop cuts what `PassOf` cuts |
| SkpReader.Socket.CutFrames | skpPublic/skpSocket/skpTcpSocket.go:316-340 | on any stream, so many passes of the loop cut what that many passes cut on values, and the result says whether it would go on |
| SkpReader.Socket.Read | skpPublic/skpSocket/skpTcpSocket.go:297-343 | after each read, when the inner loop ends the frames and the leftover are one batch parse of everything received; it ends unless that parse spins or there were too few passes; earlier frames are unchanged |
| SkpReader.Socket.SetAddrSocket | skpPublic/skpSocket/skpTcpSocket.go:170-194 | the patch in place changes that frame as `Patched` says, no held byte and no other frame |
| SkpReader.Socket.PatchIsLocal | skpPublic/skpSocket/skpTcpSocket.go:170-194 | a write inside one frame leaves all others and the held bytes alone |
| SkpReader.Socket.Take | skpPublic/skpSocket/skpTcpSocket.go:210-241 | the worker sees the bytes that were cut, in order; which frames it accepts and patches; nothing else changes |
| SkpReader.Socket.ShownHeader | skpPublic/skpSocket/skpTcpSocket.go:170-194 | a patched frame is the received one with the server's id and the socket's address |
| SkpReader.Socket.ConversationShown | skpPublic/skpSocket/skpTcpSocket.go:210-241 | reader and worker joined: of a conversation, packet k is handed on as it was sent, patched if and only if the header is that of a client |
| SkpTable.ChosenIsRight | skpPublic/skpSocket/skpManage.go:94-118 | with an address the lookup returns the socket that has it, another one only if none has, and nothing only if there is none; for address 0 the random one |
| SkpTable.EffectOn | skpPublic/skpSocket/skpManage.go:50-209 | what each operation does to each server: its sockets, whether it refuses more, whether it is known |
| SkpTable.AddThenDelete | skpPublic/skpSocket/skpManage.go:56-92 | deleting a just added socket restores the list |
| SkpTable.WithoutAt | skpPublic/skpSocket/skpManage.go:69-92 | deletion closes the gap at the first occurrence |
| SkpTable.TimesWithout | skpPublic/skpSocket/skpManage.go:69-92 | deletion takes one occurrence of that socket and of no other |
| SkpTable.ShutdownSticks | skpPublic/skpSocket/skpManage.go:50-67 | over any operations, a known server stays without sockets once the listener and its sockets were closed |
| SkpTable.LateServerIsOpen | skpPublic/skpSocket/skpManage.go:148-166 | a server first asked for afterwards accepts sockets |
| SkpTable.ShutdownHoldsIff | skpPublic/skpSocket/skpManage.go:148-166 | after a shutdown a server stays without sockets over all operations if and only if it was known before |
| SkpTable.OnlyAdded | skpPublic/skpSocket/skpManage.go:168-181 | a socket is listed at most as often as it was added there |
| SkpTable.OthersUntouched | skpPublic/skpSocket/skpManage.go:168-181 | operations on other servers and lookups leave a server's entry alone |
| SkpTable.RegisteredIsFound | skpPublic/skpSocket/skpManage.go:94-118 | until it is deleted or all are closed, a registered socket is found under its address |
| SkpTable.TcpSocket.CloseChan | skpPublic/skpSocket/skpTcpSocket.go:153-163 | the close flag is set |
| SkpTable.TcpSocket.WriteChan | skpPublic/skpSocket/skpTcpSocket.go:345-363 | data is queued exactly while the flag is not set |
| SkpRegistry.RemoveSliceElement | skpPublic/skpUtility/skpUtility.go:13-28 | the shifting loop leaves the elements before and after the index, in order |
| SkpRegistry.Agent.Add | skpPublic/skpSocket/skpManage.go:56-67 | appended unless the listener is closed |
| SkpRegistry.Agent.Del | skpPublic/skpSocket/skpManage.go:69-92 | search, shift and cut remove the first occurrence |
| SkpRegistry.Agent.Get | skpPublic/skpSocket/skpManage.go:94-118 | the chosen socket |
| SkpRegistry.Agent.CloseAll | skpPublic/skpSocket/skpManage.go:120-132 | the list is empty and every socket on it told to close |
| SkpRegistry.ManageAgent.GetAgent | skpPublic/skpSocket/skpManage.go:148-166 | child and parent remember the same agent, made once |
| SkpRegistry.ManageAgent.CloseAll | skpPublic/skpSocket/skpManage.go:193-200 | every agent of the map is emptied, its sockets told to close |
| SkpRegistry.ManageAgent.ListerClose | skpPublic/skpSocket/skpManage.go:202-209 | every agent of the map refuses from now on |
| SkpRegistry.Manage.constructor | skpPublic/skpSocket/skpManage.go:229-246 | 100 distinct children of one parent represent the empty table |
| SkpRegistry.Manage.GetAgent | skpPublic/skpSocket/skpManage.go:311-313 | a lookup in the child by remainder makes the server known; child maps stay a cache of the parent, distinct ids keep distinct agents |
| SkpRegistry.Manage.Add | skpPublic/skpSocket/skpManage.go:318-320 | the table after an add; refused exactly when the server is closing |
| SkpRegistry.Manage.Del | skpPublic/skpSocket/skpManage.go:322-324 | the table after a delete |
| SkpRegistry.Manage.Get | skpPublic/skpSocket/skpManage.go:326-328 | the table's own lookup |
| SkpRegistry.Manage.GetMax | skpPublic/skpSocket/skpManage.go:330-332 | nothing below 50 sockets, else the lookup |
| SkpRegistry.Manage.CloseAll | skpPublic/skpSocket/skpManage.go:334-336 | all lists empty, every listed socket told to close |
| SkpRegistry.Manage.ListerClose | skpPublic/skpSocket/skpManage.go:315-317 | every known server refuses from now on |
| SkpRegistry.Manage.Server | skpPublic/skpSocket/skpManage.go:338-346 | data is queued on the chosen socket unless it is closing, and on no other |
| SkpRoute.RequestFindsServer | skpProxy/server/skpTcpSocketProxy.go:41-61 | a request makes the proxy dial the server in the upper half of its receiver, patched or not; the route server refuses requests and dials the same server for frames between servers |
| SkpRoute.ProxyDispatch | skpProxy/server/skpTcpSocketProxy.go:41-61 | the proxy's choice by the bytes of the frame |
| SkpRoute.RouteDispatch | skpRoute/server/skpTcpSocketRoute.go:42-65 | the route server's choice by the bytes of the frame |
| SkpRoute.MonitorDispatch | skpMonitor/server/skpTcpSocketMonitor.go:40-63 | the monitor answers exactly the load request |
| SkpRoute.ListTravels | skpPublic/skpSocket/skpManage.go:401-420 | from the request to the map: the monitor cuts the request and answers with its list, proxy and route server cut the answer and read it, and then have its addresses besides their own |
| SkpRoute.AnswerComesBack | skpRoute/server/skpTcpSocketRoute.go:42-65 | an answer that keeps the patched fields goes to the proxy of the request and there to the client's socket, if and only if that is still registered |
| SkpRoute.AnswerComesBackUnlessClosed | skpProxy/server/skpTcpSocketProxy.go:41-61 | whatever else happened in the registry, unless that socket was deleted or all were closed |
| SkpRoute.ProxyData | skpProxy/server/skpTcpSocketProxy.go:41-61 | the proxy's dispatch on the registry's objects: queued on the chosen socket only |
| SkpRoute.AnswerArrives | skpProxy/server/skpTcpSocketProxy.go:41-61 | an answer to a request is queued on the very socket the request came in on if and only if that socket is still registered under the client and not closing |
| SkpClose.NeverSendsOnClosed | skpPublic/skpSocket/skpTcpSocket.go:282-289 | in every interleaving nobody sends on a closed write, close or read channel, even if the reader starts after the wait |
| SkpClose.OneToken | skpPublic/skpSocket/skpTcpSocket.go:153-163 | at most one close token, which never waits for room, and exactly one once the closing call has let the mutex go |
| SkpClose.HandedIsPrefix | skpPublic/skpSocket/skpTcpSocket.go:242-289 | what is handed to `Conn.Write` is a prefix of what was accepted, in order; accepted are exactly the calls that return true, each once |
| SkpClose.BytesInOrderIff | skpPublic/skpSocket/skpTcpSocket.go:252-256 | the bytes written are a prefix of the accepted bytes if and only if nothing was written behind a write that fell short (the only-if whenever no two accepted bytes have equal values) |
| SkpClose.GapAfterShortWrite | skpPublic/skpSocket/skpTcpSocket.go:252-260 | a run in which the worker goes on behind a short write and the peer sees a gap |
| SkpClose.DeadConnection | skpPublic/skpSocket/skpTcpSocket.go:252-260 | a run in which the write behind a short one writes nothing, and the bytes stay in order |
| SkpClose.FailedWriteCloses | skpPublic/skpSocket/skpTcpSocket.go:252-256 | when the worker is back in its loop after a failed write, the close flag is set |
| SkpClose.TroubleCloses | skpPublic/skpSocket/skpTcpSocket.go:210-278 | over every run, after a failed write, a bad frame or a timeout the close flag is set or the worker is still in the call that sets it |
| SkpClose.ClosedForGood | skpPublic/skpSocket/skpTcpSocket.go:345-363 | nothing is accepted after the flag, nothing handed over after the loop |
| SkpClose.AllWrittenIff | skpPublic/skpSocket/skpTcpSocket.go:242-289 | in every state after the token everything accepted has been written in full if and only if the write channel was empty when the token was taken and no write had fallen short |
| SkpClose.CloseFinishesIff | skpPublic/skpSocket/skpTcpSocket.go:282-289 | the worker can come to its end if and only if the reader's remaining frames fit into the read channel |
| SkpClose.WedgedStays | skpPublic/skpSocket/skpTcpSocket.go:297-343 | a reader with too many frames blocks the close in every further run |
| SkpClose.WedgedReachable | skpPublic/skpSocket/skpTcpSocket.go:297-343 | such a state is reachable with one frame for each read: a full read channel and one frame more |
| SkpClose.FramesAreKept | skpPublic/skpSocket/skpTcpSocket.go:297-343 | over every run each frame that the reader took in is with it, in the channel, or with the worker, once |
| SkpClose.ReaderTakesNoMore | skpPublic/skpSocket/skpTcpSocket.go:282-343 | over every run from the closing of the connection on, the reader takes in no more frames and the worker none |
| SkpClose.SendWaits | skpPublic/skpSocket/skpTcpSocket.go:84-109 | a send waits exactly for a write or read channel of 1000 places |
| SkpClose.StatementsInOrder | skpPublic/skpSocket/skpTcpSocket.go:282-289 | behind the loop one statement follows the other; only a counted reader that is not done holds them up |
| SkpClose.WorkerComesBackIff | skpPublic/skpSocket/skpTcpSocket.go:345-363 | a worker inside its own `SkpCloseChan` can come back to its loop if and only if it does not wait for a mutex whose holder waits for room in the full write channel |
| SkpClose.DeadlockReachable | skpPublic/skpSocket/skpTcpSocket.go:345-363 | that deadlock is reachable |
| SkpClose.DeadlockStays | skpPublic/skpSocket/skpTcpSocket.go:345-363 | and no further run resolves it |
| SkpClose.InvStep | skpPublic/skpSocket/skpTcpSocket.go:153-363 | every step keeps the mutex exclusive, flag and token together, the reader off closed channels, and accepted = written + queued |
| SkpClose.Socket.constructor | skpPublic/skpSocket/skpTcpSocket.go:84-109 | an open socket |
| SkpClose.Socket.Invoke | skpPublic/skpSocket/skpTcpSocket.go:345-363 | a caller arrives |
| SkpClose.Socket.Acquire | skpPublic/skpSocket/skpTcpSocket.go:345-348 | it gets the mutex when nobody has it |
| SkpClose.Socket.TestFlag | skpPublic/skpSocket/skpTcpSocket.go:153-163 | the flag decides; a close sets it |
| SkpClose.Socket.Push | skpPublic/skpSocket/skpTcpSocket.go:345-363 | the send on the write or close channel, both still open |
| SkpClose.Socket.Release | skpPublic/skpSocket/skpTcpSocket.go:345-363 | the call returns true |
| SkpClose.Socket.WriteNext | skpPublic/skpSocket/skpTcpSocket.go:242-256 | the next item goes to `Conn.Write`, which writes a part of it or all; after an error the worker calls `SkpCloseChan` |
| SkpClose.Socket.ReadNext | skpPublic/skpSocket/skpTcpSocket.go:210-241 | the next frame is taken; a bad one makes the worker call `SkpCloseChan` |
| SkpClose.Socket.Timeout | skpPublic/skpSocket/skpTcpSocket.go:261-278 | so does an idle timeout |
| SkpClose.Socket.Continue | skpPublic/skpSocket/skpTcpSocket.go:252-256 | the loop goes on only when that call has returned |
| SkpClose.Socket.TakeToken | skpPublic/skpSocket/skpTcpSocket.go:257-260 | the token ends the loop |
| SkpClose.Socket.Finish | skpPublic/skpSocket/skpTcpSocket.go:282-289 | the statements behind the loop, in their order |
| SkpClose.Socket.ReaderTurn | skpPublic/skpSocket/skpTcpSocket.go:297-343 | one step of the reader; its send finds the channel open |
| SkpAddrs.ListArrives | skpPublic/skpSocket/skpTcpSocket.go:365-387 | whatever the order of printing, the receiver ends with its own map and the sender's entries |
| SkpAddrs.ListArrivesIff | skpPublic/skpSocket/skpManage.go:276-292 | a receiver that knows nothing gets the sender's map if and only if every id is what its address is filed under |
| SkpAddrs.KeyOfAddress | skpPublic/skpSocket/skpManage.go:254-259 | an address is filed under its port when the ip has no colon |
| SkpAddrs.KeyOfParts | skpPublic/skpSocket/skpTcpSocket.go:378-382 | in general it is filed under the number between the first two colons, modulo 2^32 |
| SkpAddrs.LearnStops | skpPublic/skpSocket/skpTcpSocket.go:372-376 | nothing behind an empty part is read |
| SkpAddrs.LearnOneMore | skpPublic/skpSocket/skpTcpSocket.go:372-383 | each further part replaces what is filed under its number, or makes the loop panic if it has no colon |
| SkpAddrs.AtoiCases | skpPublic/skpSocket/skpTcpSocket.go:379-379 | digits, perhaps behind one sign, cut off at the ends of int64; all else counts as 0 |
| SkpAddrs.ItoaDigits | skpPublic/skpSocket/skpManage.go:254-259 | the decimal digits in their order |
| SkpAddrs.WrongIdIsLost | skpPublic/skpSocket/skpTcpSocket.go:374-382 | an id that is not the port is not carried over |
| SkpAddrs.AnswerCarriesList | skpMonitor/server/skpTcpSocketMonitor.go:45-58 | the monitor's answer is cut as one frame whose data is the list, and names the monitor and the request's order |
| SkpAddrs.AddrBook.SerializeAddr | skpPublic/skpSocket/skpManage.go:276-287 | printed once, in some order, each server once; later additions do not appear |
| SkpAddrs.AddrBook.AddMonitorIPList | skpPublic/skpSocket/skpTcpSocket.go:365-387 | the parsing loop is `Learn`, including where it reads past a slice; then the map is printed, unless it was before |
| SkpAddrs.AddrBook.AddServerAddr | skpPublic/skpSocket/skpManage.go:248-252 | one entry |

## Left out

Members whose statement is narrower than one might read into the source:

- RpcServer.DrainSafety: assumes fewer than 2^32 messages in the epoch; the source compares wrapped 32-bit counters, as the model does.
- RpcServer.StopReturnsIffEmptyStart: assumes fewer than 2^32 messages in flight at the start of the epoch.
- RpcServer.DrainProgress: some run without new sends lets `Stop(true)` return; that the scheduler takes such a run, and that handlers return, is not stated.
- RpcServer.Server.Start: resets the counters and replaces the channel in one step; a sender that counts in between and still sends on the old channel is not covered. In the repository only `NewServer` asks for a new channel (skynet_go/rpc/server.go:99), before the actor has senders.
- RpcServer.Server.AddRoutine: a routine added to a stopped server, which the source does not exclude, is not modelled.
- RpcCall.ExclusiveOwnership: the pool is the one of one server and drops objects at any time; the callbacks of `SendReq` run inside the handler.
- MqBroker.CallCorrelation: bodies are abstract and survive encoding; harbor numbers are unbounded, so an int32 wrap-around is not covered.
- MqBroker.PendingChannelIsEmpty: a `Call` whose hand-over to the producer fails returns an error and leaves its entry behind; in the model it stays pending.
- MqBroker.CallCompletes: some run completes the call; delivery is not promised, since connections may break at any point.
- MqBroker.StopSubscribeIsFinal: assumes that the client does not register again; the source clears the bit when it does.
- MqRegistry.Client.Subscribe: the tag map is allocated, which `NewClient` of the source forgets (skynet_go/mq/server/client.go:33, 89-92).
- MqRegistry.Server.Register: for a client that has not registered before on its connection; registrations and removals are taken one at a time, while the source may interleave them between its accesses to the three indexes.
- MqRegistry.SQProducer.GetConn: one call taken as a whole; `MqBroker` splits it into its tests.
- MqFraming.MqConn.Write: one writer per connection; the source holds no lock across length and body.
- MqFraming.MqConn.ReadMqMsg: what a failed read leaves is stated for streams without empty frames; after one, the source reads again before it looks at what is buffered.
- MqFraming.OnReadMqMsg: bounded by a number of rounds, which stands for the moment at which the actor is stopped.
- SkpReader.Socket.Read: the number of passes bounds a loop that the source may run for ever.
- SkpReader.Socket.Take: the registration of the socket and the closing after an error are in the other modules; the connection type of a dialling socket is a parameter.
- SkpRegistry.Manage.Server: registry operations are taken one at a time; the source holds one lock per map and per list.
- SkpClose.NeverSendsOnClosed: the reader's call of `SkpCloseChan` is one of the callers; that the reader waits for its return before it is done is not modelled.
- SkpClose.CloseFinishesIff: from the moment the connection is closed; it says that the worker can finish, not that it is scheduled.
- SkpTable.RegisteredIsFound: addresses of listed sockets are distinct, as those of live objects are.
- SkpAddrs.ListArrivesIff: addresses are not empty, have a colon and no comma; texts are one-byte characters.

Not modelled:

- Dialling, listening, accepting, signals, configuration files, profiling, logging: input and output only.
- Protobuf, gob and JSON bodies, and reflection on handlers: a handler is any function, a body any value.
- Local connections over a channel (`ConnChan`): items longer than the reader's buffer and the read from a closed channel.
- Several producers on one connection at the level of bytes; in the broker model one framed message on a wire is atomic.
- Freedom from deadlock of the broker's mutexes, which are taken in both orders.
- Idle timeouts and timers other than the one of the worker loop; the random choice of a socket is a parameter.
- Making a connection in `SkpServerConn`: the action names the server, the dialling is outside.
- Consumers of a frame that would append to the slice they receive; none in the repository does.
- `RunOnce`, `Ticker` and the lists and pools copied from Go's standard library.
