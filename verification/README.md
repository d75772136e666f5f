# FlowDriver verification

A Dafny model of the stateful parts of FlowDriver, a desktop tool that sends REST, gRPC, WebSocket
and ZeroMQ requests, with proofs of what they keep. `dafny verify dfyconfig.toml` checks it all.

| file | what it models |
|---|---|
| `ZmqProtocol.dfy` | what one ZeroMQ node does with one message, as functions of its role |
| `ZeroMqHandler.dfy` | `ZeroMQHandler` and a libzmq socket as classes, proved against those functions |
| `DealerRouterNetwork.dfy` | any number of DEALERs and one ROUTER, over every interleaving, with losses |
| `RequestReplyNetwork.dfy` | any number of REQUESTERs and one REPLIER, over every interleaving |
| `PollThreadLifecycle.dfy` | `configure`, `cancel` and the destructor against the poll thread, statement by statement |
| `RequestManagerSpec.dfy`, `RequestManager.dfy` | the event loop of `RequestManager`: as functions with their invariants, and as the class |
| `Benchmark.dfy` | `BenchmarkEngine`: worker threads, counters, stop, join and the reported rate |
| `RestRequest.dfy` | `parseUrl` and the header fields of a REST request |
| `Endpoints.dfy` | the wildcard rewrite of bind addresses |
| `CsvExport.dfy` | the CSV export of a JSON array |
| `ListModels.dfy` | the headers and query list models and their change notifications |
| `Outcomes.dfy`, `Strings.dfy`, `Lists.dfy` | optional values and errors; find, split and join; increasing lists |

A system of several threads or nodes is a state with a total function `Do`: an action that is not
possible leaves the state alone, so a sequence of actions is an interleaving, and a theorem over
all sequences is a theorem over all runs. The network models take their steps from `OnMessage`,
`Outgoing` and `ExecuteResult`, the functions the handler class is proved against.

What is assumed of the environment:

- one call of a message handler and one send or receive on a socket is one step; libzmq gives no
  meaning to two threads in the middle of one message;
- dealer identities are never used twice, and queues stay below the high-water mark of 1000;
- peers are FlowDriver peers that send one body frame; the answers that the handlers of a REPLIER and
  a ROUTER send do not block;
- libzmq may lose any messages between a ROUTER and a dealer when the ROUTER is reconfigured, but
  doubles and reorders none;
- a blocking receive may time out at any moment, which includes every moment libzmq allows;
- at most one `execute` at a time on a node, and none while it is being reconfigured;
- user-interface events do not interrupt one another, and making a handler object does not fail;
- overwriting or dropping a `std::async` future waits for its worker (section [futures.async] of
  the C++ standard);
- `benchmark_engine.cpp` names its field `m_handler` and its header `handler_`; they are one field.

Some properties one might expect are false of the code. The model keeps the code, proves when exactly
they hold, and gives an input for which they do not:

- a DEALER call gets the answer to its own message: exactly if nothing was under way when it was
  made (`OwnAnswerIff`, `StaleAnswerHappens`);
- `close` names the address that was bound: exactly if there was no host to rewrite or it was "*"
  (`Close`, `LocalhostIsRewritten`);
- URL parts survive printing and parsing: exactly if there is a scheme or the host spells none
  (`UrlRoundTrip`, `SpelledSchemeHappens`);
- exported CSV reads back: exactly without commas and newlines in the cells, because values are not
  quoted (`CsvRoundTrip`, `CommaIsLost`);
- m_isConnected tells whether there is a connection: exactly if no cancel while loading and no failed
  connect has closed it (`FlagTrueThroughoutIff`, `FlagNotTrue`);
- the user interface knows the role: exactly if no connect has set another one
  (`RoleShownThroughoutIff`, `RoleNotShown`);
- the benchmark's rate is close to the true one: exactly if the clock went on by a second; it does not
  exist exactly if the two readings are less than a second apart (`RateIff`, `NoRateHappens`).

## Model

| member | source | states |
|---|---|---|
| `DealerRouterNetwork.Conservation` | src/core/zeromq_handler.cpp:493-552 | in every reachable state of any number of dealers, with a reconfigured ROUTER and any losses, for each open one: responses received, responses on the way and messages on the way belong to different messages it sent, in order, each response to its own message; with the losses they are as many as were sent; the ROUTER saw its messages in order |
| `DealerRouterNetwork.LosslessConservation` | src/core/zeromq_handler.cpp:493-552 | where nothing was lost: the texts of the responses received, then of those on the way, then the answers to the messages still on the way up are, for every sent body in order, "Response to: " and that body; and the ROUTER has emitted every sent body that is not still on the way, in order |
| `DealerRouterNetwork.NothingLost` | src/core/zeromq_handler.cpp:493-552 | nothing was lost for a dealer after every run in which no step loses a message or response of it, restarts of the ROUTER included |
| `DealerRouterNetwork.ResponsesInOrder` | src/core/zeromq_handler.cpp:511-545 | with any losses the responses a dealer receives, by `execute` or by the poll thread, answer messages of its own in strictly increasing order; without losses the k-th answers its k-th message |
| `DealerRouterNetwork.Attribution` | src/core/zeromq_handler.cpp:314-338 | with any losses every finished `execute` returned its own body (time-out), an operator's text, or "Response to: " and a body the dealer sent no later than its own, which is its own if nothing was under way when it sent |
| `DealerRouterNetwork.AttributionWithoutOperator` | src/core/zeromq_handler.cpp:314-360 | without sends by the ROUTER's operator: its own body after a time-out only, otherwise the response to a message sent no later; with nothing under way when it sent, otherwise the response to its own body |
| `DealerRouterNetwork.CallsAccounted` | src/core/zeromq_handler.cpp:314-338 | over every run a dealer has sent the bodies of its `execute` calls, in order, and every call finishes once or still waits |
| `DealerRouterNetwork.AnswersRise` | src/core/zeromq_handler.cpp:327-335 | over every run no response is returned twice: of two calls of a dealer that received responses, the later one received the later response |
| `DealerRouterNetwork.OwnAnswerIff` | src/core/zeromq_handler.cpp:324-337 | the next call of a dealer is certain not to be handed an older answer exactly when no message of it and no response to it is under way |
| `DealerRouterNetwork.AllAnswered` | src/core/zeromq_handler.cpp:324-337 | where nothing was lost that is so exactly when as many responses were received as messages sent |
| `DealerRouterNetwork.StaleAnswer` | src/core/zeromq_handler.cpp:327-335 | with something under way there is a run in which the next call gets an older answer |
| `DealerRouterNetwork.StaleAnswerHappens` | src/core/zeromq_handler.cpp:327-337 | such a state is reached by one call that times out, and the next call returns the answer to the first |
| `DealerRouterNetwork.OperatorNeedsASender` | src/core/zeromq_handler.cpp:209-212 | under the default identity an operator send reaches nobody |
| `DealerRouterNetwork.OperatorAnswersLastSender` | src/core/zeromq_handler.cpp:340-354 | after a dealer's message was handled, an operator send goes to that dealer and to no other |
| `DealerRouterNetwork.OperatorReaches` | src/core/zeromq_handler.cpp:340-354 | wherever a run has got to, an operator send goes to the dealer whose message the ROUTER handled last since it was configured, if that is still open, and otherwise to nobody |
| `DealerRouterNetwork.LeftStaysAway` | src/core/zeromq_handler.cpp:42-82 | a dealer that is closed neither sends nor receives anything more over any further run, and at most the first `kept` of its messages under way remain |
| `DealerRouterNetwork.AnythingCanBeLost` | src/core/zeromq_handler.cpp:107-122 | of what is under way between a dealer and a ROUTER that is reconfigured any one message or response can be lost alone, so that the results above cover it |
| `DealerRouterNetwork.StepKeeps` | src/core/zeromq_handler.cpp:493-552 | every step of every node keeps the invariant |
| `RequestReplyNetwork.Attribution` | src/core/zeromq_handler.cpp:362-386 | over every interleaving, with losses, time-outs and reconfigurations, an `execute` that returns normally returns "Reply to: " and its own body |
| `RequestReplyNetwork.TimeOutIsFinal` | src/core/zeromq_handler.cpp:375-386 | after a time-out every later `execute` on the same socket fails, so no late reply is handed out |
| `RequestReplyNetwork.CallGoesOutIff` | src/core/zeromq_handler.cpp:363-369 | an idle REQUESTER's next call sends and waits exactly when it has a socket on which nothing timed out |
| `RequestReplyNetwork.ReconfigureRecovers` | src/core/zeromq_handler.cpp:218-227 | from any reachable state, reconfiguring an idle REQUESTER lets its next call return the reply to its body |
| `RequestReplyNetwork.ReplyIsReceived` | src/core/zeromq_handler.cpp:453-454 | a reply that has arrived stays for the `execute` that waits, whatever the poll thread and the others do, and its receive returns it |
| `RequestReplyNetwork.CallsAccounted` | src/core/zeromq_handler.cpp:362-386 | over every run the finished calls of a REQUESTER, and the one that waits, are those that were made, in order |
| `RequestReplyNetwork.LostIsLost` | src/core/zeromq_handler.cpp:375-386 | if the request of a call or the reply to it is lost, no `execute` on that socket returns normally any more, over any further run |
| `RequestReplyNetwork.TimeOutFails` | src/core/zeromq_handler.cpp:375-386 | a waiting call can time out at any moment; it fails and the socket stays |
| `RequestReplyNetwork.CancelledFails` | src/core/zeromq_handler.cpp:292-300 | after a `cancel` every call fails |
| `RequestReplyNetwork.StepKeeps` | src/core/zeromq_handler.cpp:453-468 | every step keeps at most one request of a socket on its way |
| `PollThreadLifecycle.NeverCrashes` | src/core/zeromq_handler.cpp:406-451 | no interleaving dereferences a null socket, destroys a joinable thread or takes the exit for a null socket: a thread that polls or handles a message has a socket, and one that is destroyed has been joined and has finished |
| `PollThreadLifecycle.AtMostOneThread` | src/core/zeromq_handler.cpp:406-415 | at most one poll thread is alive, and m_pollThread holds it |
| `PollThreadLifecycle.SettingsHoldWhileAlive` | src/core/zeromq_handler.cpp:107-122 | while it is alive, socket, pattern, role and endpoint are those it was started for and nobody writes them |
| `PollThreadLifecycle.AtMostOneMoreBody` | src/core/zeromq_handler.cpp:418-449 | once m_running is cleared a thread completes at most one more loop body, counted over the actions of the run |
| `PollThreadLifecycle.JoinReturns` | src/core/zeromq_handler.cpp:595-606 | while the caller waits to join, four more statements of the thread, however interleaved, let the join return |
| `PollThreadLifecycle.CallerAdvances` | src/core/zeromq_handler.cpp:42-82 | the caller never waits for anything but that join, and every other statement brings its operation exactly one statement nearer the end |
| `PollThreadLifecycle.OperationEnds` | src/core/zeromq_handler.cpp:42-168 | from every reachable state `configure`, `cancel` and the destructor end under every interleaving of 16 rounds, each giving the held thread four statements and then the caller one: `configure` with the requested settings, a socket and one live thread for them, or, if bind or connect fails, no thread; the others with neither |
| `ZeroMqHandler.ZmqSocket.Send` | src/core/zeromq_handler.cpp:346-366 | a socket's send: frames are staged until the last one; REQ and REP refuse it out of turn |
| `ZeroMqHandler.ZmqSocket.Recv` | src/core/zeromq_handler.cpp:498-507 | a socket's receive takes the next frame of the oldest message |
| `ZeroMqHandler.ZeroMQHandler.constructor` | src/core/zeromq_handler.cpp:29-36 | the initial fields |
| `ZeroMqHandler.ZeroMQHandler.StopPolling` | src/core/zeromq_handler.cpp:595-606 | the flag is cleared and the thread has finished and is gone |
| `ZeroMqHandler.ZeroMQHandler.Close` | src/core/zeromq_handler.cpp:42-82 | thread and socket are gone; the configured endpoint is unbound for PUBLISHER, PULLER, REPLIER and ROUTER and disconnected for the other four; it is the address the socket has exactly if the role connects, or there is no host to rewrite, or it is "*" |
| `ZeroMqHandler.ZeroMQHandler.StartPolling` | src/core/zeromq_handler.cpp:406-451 | a fresh thread runs exactly if there is a socket |
| `ZeroMqHandler.ZeroMQHandler.CreateSocket` | src/core/zeromq_handler.cpp:114-136 | the settings are written and a fresh socket is made for the role: at the rewritten address for PUBLISHER, PULLER, REPLIER and ROUTER, at the given one for the other four |
| `ZeroMqHandler.ZeroMQHandler.CollectFrames` | src/core/zeromq_handler.cpp:494-507 | the loop takes exactly the frames of the oldest message, or nothing |
| `ZeroMqHandler.ZeroMQHandler.Configure` | src/core/zeromq_handler.cpp:107-216 | the whole state after success and after a failed bind; the old socket is detached under the old settings; the new one has the address of its role as in `CreateSocket`, and the remembered identity is "Client" |
| `ZeroMqHandler.RouterBinds` | src/core/zeromq_handler.cpp:124-155 | a ROUTER configured for "tcp://localhost:5555" is bound to "tcp://*:5555", a DEALER connected to the text as given |
| `ZeroMqHandler.ZeroMQHandler.HandleDealerRouterMessage` | src/core/zeromq_handler.cpp:493-552 | a ROUTER takes the oldest message, remembers its first frame, emits the second and sends it back behind "Response to: ", after any frame left staged; a DEALER emits the one frame; both as `OnMessage` says |
| `ZeroMqHandler.ZeroMQHandler.HandleReqRepMessage` | src/core/zeromq_handler.cpp:453-468 | a REPLIER takes one request, emits it and sends "Reply to: " and the request; a REQUESTER consumes nothing; out of turn an error and no change |
| `ZeroMqHandler.ZeroMQHandler.HandleOneWayMessage` | src/core/zeromq_handler.cpp:470-491 | SUBSCRIBER and PULLER take the oldest message, emit its text and send nothing; PUBLISHER and PUSHER do nothing |
| `ZeroMqHandler.ZeroMQHandler.PollBody` | src/core/zeromq_handler.cpp:418-447 | one loop body reacts to the oldest waiting message as `OnMessage` says for the role, emitting exactly the first frame for DEALER, REPLIER, SUBSCRIBER and PULLER; a refused receive is reported once and changes nothing |
| `ZeroMqHandler.ZeroMQHandler.SendBody` | src/core/zeromq_handler.cpp:340-369 | one message goes out, the body, for a ROUTER behind the identity it answers or "Game" if there is none; a ROUTER whose identity frame goes out and whose body does not leaves that frame staged |
| `ZeroMqHandler.ZeroMQHandler.ReceiveAnswer` | src/core/zeromq_handler.cpp:314-386 | the blocking receive returns and takes the oldest message; after a time-out a DEALER returns the body it sent, a REQUESTER fails |
| `ZeroMqHandler.ZeroMQHandler.Execute` | src/core/zeromq_handler.cpp:292-394 | for every role: when nothing is sent and what a ROUTER then leaves staged, the frames that are sent, and what is returned on an answer or a time-out; the network models take the same |
| `RequestManagerSpec.Conservation` | src/models/request_manager.cpp:111-165 | over every sequence of events each accepted request is delivered, superseded or in the slot, and only one of these; outcomes come once and in order, and for each there is an event in which the worker of that request, still running, ended with exactly that outcome; superseded requests do not outnumber cancels |
| `RequestManagerSpec.WithoutCancels` | src/models/request_manager.cpp:440-478 | without cancels the i-th outcome delivered is the one with which the worker of the i-th request ended |
| `RequestManagerSpec.TimersPending` | src/models/request_manager.cpp:141-146 | at an event boundary loading implies a request in the slot; a request in the slot implies a pending timer; timers are bounded by the cancels |
| `RequestManagerSpec.FinishedIsCollected` | src/models/request_manager.cpp:440-478 | when the worker of the request in the slot has finished, the next timer to fire delivers the outcome it ended with, reports an error exactly if that is one, and ends the loading |
| `RequestManagerSpec.AtMostTwoWorkers` | src/models/request_manager.cpp:141-364 | of the workers of `executeRequest` and `sendWebSocketMessage` at most two are unfinished in any state, at an event boundary at most that of the slot, and inside a slot besides it only the one just started |
| `RequestManagerSpec.TwoWorkersRun` | src/models/request_manager.cpp:141-165 | two do run after a request, a cancel and another request |
| `RequestManagerSpec.SlotHoldsOn` | src/models/request_manager.cpp:141-364 | while a slot waits for a worker, nothing but workers moves over any further events until that worker has finished |
| `RequestManagerSpec.LaunchWaitsForSuperseded` | src/models/request_manager.cpp:141-144 | once the worker of the superseded request has finished, and it alone, the new request is in the slot, the old one superseded, and only the new worker can still run |
| `RequestManagerSpec.MessageWaitsForItsWorker` | src/models/request_manager.cpp:354-370 | once the worker of a WebSocket message has finished the slot returns, leaves no worker behind and has not touched the REST request |
| `RequestManagerSpec.MessageStarts` | src/models/request_manager.cpp:354-370 | in every reachable state a message under a connected WebSocket starts one worker of its own, which the slot then waits for |
| `RequestManagerSpec.Ownership` | src/models/request_manager.cpp:167-235 | m_handler is never dangling; the REST, WebSocket and ZeroMQ handlers exist exactly under "REST", "WebSocket" and "ZeroMQ", a gRPC handler under "gRPC", each of its own kind; and a connection belongs to the one WebSocket or ZeroMQ handler |
| `RequestManagerSpec.NoConnectionLeaks` | src/models/request_manager.cpp:30-50 | every connection that was opened and not closed since, by a reconnect too, belongs to an owned WebSocket or ZeroMQ handler; there is at most one, and then m_isConnected is set |
| `RequestManagerSpec.ReleasedWereCancelled` | src/models/request_manager.cpp:30-50 | every WebSocket and ZeroMQ handler ever made is still owned or was told to cancel |
| `RequestManagerSpec.FlagTrueThroughoutIff` | src/models/request_manager.cpp:159-165 | over every sequence of events m_isConnected tells the truth in every state exactly if no event in it is a cancel while loading on the connected handler or a connect that fails while connected |
| `RequestManagerSpec.FlagNotTrue` | src/models/request_manager.cpp:480-499 | after a connect and a failed connect the flag is set and no connection is open |
| `RequestManagerSpec.RestHandlerExists` | src/models/request_manager.cpp:125-141 | `executeRequest` never calls a null REST handler |
| `RequestManagerSpec.DisplayIsCurrent` | src/models/request_manager.cpp:30-71 | every change of loading, protocol or connection is announced |
| `RequestManagerSpec.RoleShownThroughoutIff` | src/models/request_manager.cpp:73-79 | over every sequence of events the role the user interface knows is the current one in every state exactly if no connect in it succeeds under another role |
| `RequestManagerSpec.RoleNotShown` | src/models/request_manager.cpp:480-495 | a connect as REPLIER leaves DEALER shown, and choosing REPLIER afterwards changes nothing |
| `RequestManagerSpec.CallsAccounted` | src/models/request_manager.cpp:111-157 | over every sequence of events the calls of `executeRequest` are those accepted, the one just being put into the slot, and those that reported an error |
| `RequestManagerSpec.AcceptedInOrder` | src/models/request_manager.cpp:88-141 | over every sequence of events the configurations accepted are, in order, those of the `executeRequest` calls that found nothing loading, named one of the seven methods, had an http or https URL and started a worker |
| `RequestManagerSpec.LoadingStep` | src/models/request_manager.cpp:111-165 | which events begin and end the loading, for every state and event |
| `RequestManagerSpec.TimersAccounted` | src/models/request_manager.cpp:141-146 | over every sequence of events each accepted request has set one timer, and those pending are the ones that have not fired for the last time |
| `RequestManagerSpec.ErrorsReported` | src/models/request_manager.cpp:88-602 | over every sequence of events as many errors are reported as there are events that call for one, told per event |
| `RequestManagerSpec.ChosenLast` | src/models/request_manager.cpp:30-602 | over every sequence of events the role is the one chosen last, by name or by a connect, the protocol the one chosen last, or REST since an `executeRequest` that came past its checks, and the proto file the one set last |
| `RequestManagerSpec.ConnectedAsSaid` | src/models/request_manager.cpp:30-499 | over every sequence of events m_isConnected is what the last event that says so has said: a switch, a connect, the WebSocket's notifications, a disconnect |
| `RequestManagerSpec.HandlersMade` | src/models/request_manager.cpp:30-532 | over every sequence of events the handlers made are the first one and one for each event that calls for one, in order |
| `RequestManagerSpec.NamesConvert` | include/models/request_manager.hpp:119-137 | the pattern and the role each known pair of names stands for |
| `RequestManagerSpec.EveryRoleConnects` | src/models/request_manager.cpp:480-499 | in every reachable state under ZeroMQ each role of each pattern connects if its `configure` works: one connection, of the ZeroMQ handler, under that role and without an error |
| `RequestManagerSpec.OtherConnectsFail` | src/models/request_manager.cpp:480-499 | in every reachable state a connect with an unknown name, or under another protocol, reports one error and changes nothing |
| `RequestManagerSpec.ApplyKeeps` | src/models/request_manager.cpp:111-532 | every event keeps the invariants of requests, workers, handlers and display |
| `RequestManagerSpec.SwitchKeeps` | src/models/request_manager.cpp:30-71 | a protocol switch keeps the ownership invariant |
| `RequestManager.RequestManager.constructor` | src/models/request_manager.cpp:17-28 | the state is that of the initial REST protocol |
| `RequestManager.RequestManager.InitializeProtocolHandler` | src/models/request_manager.cpp:167-235 | does what `Initialize` says |
| `RequestManager.RequestManager.SetCurrentProtocol` | src/models/request_manager.cpp:30-71 | does what the event says: handlers cancelled and released, one made, the change announced, a proto file that does not load reported |
| `RequestManager.RequestManager.PrepareConfig` | src/models/request_manager.cpp:129-139 | user headers in order, then authentication headers |
| `RequestManager.RequestManager.ExecuteRequest` | src/models/request_manager.cpp:111-157 | does what the event, the end of the superseded worker and the assignment do, refusals and failed launches included |
| `RequestManager.RequestManager.CancelRequest` | src/models/request_manager.cpp:159-165 | does what `Cancel` says: the current handler is cancelled, the slot and the timer stay |
| `RequestManager.RequestManager.CheckRequest` | src/models/request_manager.cpp:440-478 | does what `Fire` says: collect the finished request and report its error, look again later, or end the loading |
| `RequestManager.RequestManager.SetCurrentRole` | src/models/request_manager.cpp:73-79 | does what the event says: a different role is set and announced |
| `RequestManager.RequestManager.ConnectZmq` | src/models/request_manager.cpp:480-499 | connected, under the given role, only for valid names, an existing handler and a successful `configure`; otherwise one error; a `configure` that fails has closed the old connection, and the flag stays |
| `RequestManager.RequestManager.OnWebSocketConnected` | include/models/request_manager.hpp:184-188 | the handler has a connection, the flag is set and announced |
| `RequestManager.RequestManager.OnWebSocketDisconnected` | include/models/request_manager.hpp:190-194 | the handler has none, the flag is cleared and announced |
| `RequestManager.RequestManager.Disconnect` | src/models/request_manager.cpp:341-352 | does what the event says: the handlers are cancelled and stay |
| `RequestManager.RequestManager.SendWebSocketMessage` | src/models/request_manager.cpp:354-370 | does what the event, the end of its worker and the dropped future do: an error unless connected, a worker only if m_handler is a WebSocket handler |
| `RequestManager.RequestManager.LoadGrpcProtoFile` | src/models/request_manager.cpp:501-532 | does what `LoadProto` says: makes a gRPC handler if there is none and points m_handler at it, under any protocol, and reports at most one error |
| `RequestManager.RequestManager.SetProtoFilePath` | src/models/request_manager.cpp:590-602 | does what `SetPath` says |
| `RequestManager.RequestManager.ExecuteGrpcRequest` | src/models/request_manager.cpp:372-438 | the flag is clear again afterwards and the REST request is untouched |
| `Benchmark.CountersExact` | src/testing/benchmark_engine.cpp:31-46 | for any number of workers, schedule and stop time, the two counters hold exactly the responses the schedule has given the workers, split by whether they are a 2xx, less those about to be counted |
| `Benchmark.ReportExact` | src/testing/benchmark_engine.cpp:51-60 | the report made after the joins counts exactly the responses the schedule has given the workers, and as successful exactly those that are a 2xx |
| `Benchmark.RunningIff` | src/testing/benchmark_engine.cpp:28-49 | the flag is set exactly until `run` has slept or `stop` was called |
| `Benchmark.WorkerGoesRound` | src/testing/benchmark_engine.cpp:33-44 | in every reachable state with the flag set, three statements of a worker send a request, receive its response and count it once, where it belongs |
| `Benchmark.WorkerLeaves` | src/testing/benchmark_engine.cpp:33 | once the flag is cleared a worker at its test leaves the loop |
| `Benchmark.AtMostOneMore` | src/testing/benchmark_engine.cpp:33-44 | counted over the actions of the run, each worker counts at most one request while the stop flag is cleared |
| `Benchmark.RunReturns` | src/testing/benchmark_engine.cpp:31-60 | from every reachable state `run` joins all its workers and makes its report under every interleaving of 2 * users + 3 rounds, each giving the worker it waits for three statements and then `run` one |
| `Benchmark.RateBound` | src/testing/benchmark_engine.cpp:62-65 | with a clock that goes on by the configured duration the divisor is at least that duration; the rate is at least the true one and less than twice it |
| `Benchmark.RateIff` | src/testing/benchmark_engine.cpp:62-65 | for any two clock readings the division is by zero exactly if they are less than a second apart, either way; with anything counted the rate is at least the true one and less than twice it exactly if the clock went on by at least a second |
| `Benchmark.NoRateHappens` | src/testing/benchmark_engine.cpp:62-65 | with readings half a second apart, as after a run of one second during which the clock is set back by half of one, there is no rate |
| `Benchmark.ClockSetBack` | src/testing/benchmark_engine.cpp:62-65 | if the second reading is not after the first, there is no rate exactly if they are less than a second apart, and otherwise it is not positive |
| `Benchmark.ValidateConfig` | src/testing/benchmark_engine.cpp:80-92 | accepts exactly positive users and duration and a URL |
| `Benchmark.BenchmarkEngine.Run` | src/testing/benchmark_engine.cpp:18-68 | for every interleaving, calls of `stop` by others included, `run` returns; its fields are where the history of its actions leads; all workers have exited; total and successful are the number of responses in that history and of the 2xx among them; the rate is the one for its two clock readings |
| `Benchmark.BenchmarkEngine.Stop` | src/testing/benchmark_engine.cpp:76-78 | clears the flag and nothing else |
| `RestRequest.ParseUrl` | src/core/rest_handler.cpp:27-62 | computes `Parse` |
| `RestRequest.PartsOfAnyText` | src/core/rest_handler.cpp:41-59 | the parts of any text concatenate to it, up to a default port and a default target |
| `RestRequest.UrlRoundTrip` | src/core/rest_handler.cpp:27-62 | well-formed parts survive printing and parsing exactly when there is a scheme or the host spells none |
| `RestRequest.SpelledSchemeHappens` | src/core/rest_handler.cpp:27-62 | the parts host "http", no port and target "//x" are printed as "http://x" and not recovered |
| `RestRequest.ParseIsStable` | src/core/rest_handler.cpp:27-62 | printing and parsing the parts of any text changes nothing more |
| `RestRequest.SetHeaders` | src/core/rest_handler.cpp:129-135 | the fields are two defaults and then the configured headers, set one after the other |
| `RestRequest.SameNameIff` | src/core/rest_handler.cpp:129-135 | two names are the same exactly if they have equal length and each pair of characters is equal or the two cases of one ASCII letter |
| `RestRequest.HostReplaced` | src/core/rest_handler.cpp:129-135 | a configured header "host" replaces the default "Host": one field, with the configured value |
| `RestRequest.LastEntryWins` | src/core/rest_handler.cpp:133-135 | each name, compared without case, has at most one field, with the value of its last entry |
| `RestRequest.FieldPrecedence` | src/models/request_manager.cpp:129-139 | authentication headers win over user headers and these over the defaults |
| `Endpoints.BindIdempotent` | src/core/zeromq_handler.cpp:124-136 | rewriting twice is rewriting once |
| `Endpoints.BindPreserves` | src/core/zeromq_handler.cpp:124-136 | everything through the first "//" and from the first ':' after it survives around one '*'; other texts are unchanged |
| `Endpoints.BindForgetsHost` | src/core/zeromq_handler.cpp:199-207 | two addresses with a host bind to the same place exactly when they agree outside it |
| `Endpoints.TcpIsRewritten` | src/core/zeromq_handler.cpp:124-136 | "tcp://host:port" is bound as "tcp://*:port" whatever the host |
| `Endpoints.LocalhostIsRewritten` | src/core/zeromq_handler.cpp:57-60 | "tcp://localhost:5555" is bound as "tcp://*:5555", so what `close` then unbinds was not bound (`Close`) |
| `CsvExport.WriteLine` | src/models/request_manager.cpp:631-637 | the cells with commas between them and a newline |
| `CsvExport.WriteTable` | src/models/request_manager.cpp:630-648 | the text of the table of keys and values |
| `CsvExport.SaveAsCsv` | src/models/request_manager.cpp:624-653 | nothing is written unless the body is an array that starts with an object; an error only if it does not parse |
| `CsvExport.CsvRoundTrip` | src/models/request_manager.cpp:628-649 | the table reads back exactly when no item is empty and no cell holds a comma or newline |
| `CsvExport.CommaIsLost` | src/models/request_manager.cpp:640-647 | an item whose value is the list [1,2] does not read back |
| `CsvExport.ColumnsMatch` | src/models/request_manager.cpp:640-647 | the values of an object stand under their own keys exactly when it has the keys of the first one |
| `CsvExport.BeforeIsLexicographic` | src/models/request_manager.cpp:632-642 | the order of keys is the lexicographic one |
| `ListModels.HeadersViewIsCurrent` | src/models/headers_model.cpp:31-122 | after any calls, a view that applies only the notifications shows the contents |
| `ListModels.QueryViewIsCurrent` | src/models/query_model.cpp:39-87 | the same for the query model |
| `ListModels.QueryNotifiesChanges` | src/models/query_model.cpp:53-71 | a call is announced exactly when it changes something, or clears |
| `ListModels.HeadersModel.Append` | src/models/headers_model.cpp:107-112 | the row is added at the end and announced |
| `ListModels.HeadersModel.Remove` | src/models/headers_model.cpp:114-122 | a row in range is removed and announced |
| `ListModels.HeadersModel.UpdateValue` | src/models/headers_model.cpp:95-105 | both columns are set and announced |
| `ListModels.HeadersModel.SetData` | src/models/headers_model.cpp:31-51 | one column is set and announced, other roles are refused |
| `ListModels.HeadersModel.Clear` | src/models/headers_model.cpp:88-93 | a reset is announced |
| `ListModels.QueryModel.SetKey` | src/models/query_model.cpp:53-61 | the key is set and announced only if it differs |
| `ListModels.QueryModel.SetValue` | src/models/query_model.cpp:63-71 | the value likewise |

## Left out

- Real sockets, TLS, name resolution, Beast, gRPC and protobuf calls, Qt signal delivery and QML: their effects are steps of the environment.
- `execute` by the operator of a REPLIER inside its handler: the handler is one step, outside of which the REP socket refuses a send (`Execute` states this).
- Delivery between PUB and SUB and between PUSH and PULL sockets: libzmq behaviour; only what a node does with a message it has is modelled.
- Connections that the peer drops silently: a connection is open from the moment it is reported until this side closes it or it is reported closed.
- Time: time-outs, sleeps and polling intervals are steps that may happen at any moment; `m_timeout` is not modelled.
- Role and pattern pairs outside `getAvailableRoles`: `configure` has no socket then; they are excluded by a precondition.
- `m_status` after `cancel`, and the error texts of thrown errors: only that there is an error, and its code where the code is looked at.
- Lifetime of a replaced REST handler while its worker still uses it, and of protobuf descriptors: outside a functional model.
- The gRPC service, method and endpoint settings, JSON formatting, Base64, query-string encoding, HTML export, `AuthModel`, `BodyModel` and `ResponseModel`: library calls or plain setters.
- `m_routerQueues`, `m_outgoingQueue`, `sendMessage`, the message metrics: never read or never reached.
- The field names that Beast's `prepare_payload` rewrites when there is a body; 64-bit wrap-around of the request counters.
- `addHeader` and `removeHeader`: the same as `append` with empty texts and `remove`.
- RequestManager.RequestManager.LoadGrpcProtoFile: the list of services, their methods and the choice of the first one are not part of the state; an error in any of it is the one error that is reported.
- A `std::async` that cannot start a thread for a WebSocket message: the exception leaves the slot.
