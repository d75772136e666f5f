/** `RequestManager` (src/models/request_manager.cpp) as a class whose slots update its fields in
    the order of the source. Each slot is proved to do what its function in RequestManagerSpec
    says. */
module RequestManager {
  import opened Outcomes
  import opened RestRequest
  import opened RequestManagerSpec

  /** A protocol handler object. */
  class Handler {
    const kind: Kind
    const id: nat

    constructor (kind: Kind, id: nat)
      ensures this.kind == kind && this.id == id
    {
      this.kind, this.id := kind, id;
    }
  }

  ghost function Ref(h: Handler?): Option<HandlerRef> {
    if h == null then None else Some(HandlerRef(h.kind, h.id))
  }

  class RequestManager {
    var isLoading: bool
    var currentProtocol: string
    var handler: Handler?
    var restHandler: Handler?
    var wsHandler: Handler?
    var zmqHandler: Handler?
    var grpcHandler: Handler?
    var isConnected: bool
    var currentRole: string
    var protoFilePath: string
    var currentRequest: Option<nat>
    // The event queue, the std::async workers, and which of them the thread waits for.
    var timers: nat
    var running: set<Worker>
    var outcomes: map<nat, Outcome>
    var phase: Phase
    // What has happened.
    var handlersMade: seq<Kind>
    ghost var cancelled: seq<HandlerRef>
    ghost var open: set<HandlerRef>
    var log: Log
    ghost var errors: nat
    ghost var shown: Shown

    ghost function RequestsView(): Requests
      reads this`phase, this`isLoading, this`currentRequest, this`timers, this`running, this`outcomes, this`log
    {
      Requests(phase, isLoading, currentRequest, timers, running, outcomes, log)
    }

    ghost function HandlersView(): Handlers
      reads this`currentProtocol, this`handler, this`restHandler, this`wsHandler, this`zmqHandler,
            this`grpcHandler, this`isConnected, this`currentRole, this`protoFilePath,
            this`handlersMade, this`cancelled, this`open
    {
      Handlers(currentProtocol, Ref(handler), Ref(restHandler), Ref(wsHandler), Ref(zmqHandler), Ref(grpcHandler),
               isConnected, currentRole, protoFilePath, handlersMade, cancelled, open)
    }

    ghost function View(): State
      reads this
    {
      State(RequestsView(), HandlersView(), errors, shown)
    }

    constructor ()
      ensures View() == Init()
    {
      isLoading, currentProtocol, isConnected, protoFilePath, currentRequest := false, REST_NAME, false, "", None;
      handler, restHandler, wsHandler, zmqHandler, grpcHandler := null, null, null, null, null;
      currentRole, handlersMade, cancelled, open := DEFAULT_ROLE, [], [], {};
      timers, running, outcomes, phase := 0, {}, map[], Boundary;
      log, errors := Log([], [], [], [], 0, 0), 0;
      shown := Shown(false, "", false, DEFAULT_ROLE);
      new;
      InitializeProtocolHandler();
    }

    method EmitError()
      modifies this`errors
      ensures errors == old(errors) + 1 && View() == Fail(old(View()))
    {
      errors := errors + 1;
    }

    method EmitLoadingChanged()
      modifies this`shown
      ensures View() == old(View()).(shown := old(shown).(loading := isLoading))
    {
      shown := shown.(loading := isLoading);
    }

    method BeginLoading()
      modifies this`isLoading, this`shown
      ensures View() == WithRequests(old(View()), old(RequestsView()).(loading := true))
    {
      isLoading := true;
      EmitLoadingChanged();
    }

    method EndLoading()
      modifies this`isLoading, this`shown
      ensures !isLoading && shown == old(shown).(loading := false)
      ensures View() == WithRequests(old(View()), old(RequestsView()).(loading := false))
    {
      isLoading := false;
      EmitLoadingChanged();
    }

    method EmitProtocolChanged()
      modifies this`shown
      ensures View() == old(View()).(shown := old(shown).(protocol := currentProtocol))
    {
      shown := shown.(protocol := currentProtocol);
    }

    method EmitConnectionStatusChanged()
      modifies this`shown
      ensures View() == old(View()).(shown := old(shown).(connected := isConnected))
    {
      shown := shown.(connected := isConnected);
    }

    method MakeHandler(kind: Kind) returns (h: Handler)
      modifies this`handlersMade
      ensures fresh(h) && h.kind == kind && h.id == |old(handlersMade)| && handlersMade == old(handlersMade) + [kind]
    {
      h := new Handler(kind, |handlersMade|);
      handlersMade := handlersMade + [kind];
    }

    /** `h->cancel()`, if there is such a handler. */
    method CancelHandler(h: Handler?)
      modifies this`cancelled, this`open
      ensures View() == old(View()).(handlers := CancelOn(old(HandlersView()), Ref(h)))
    {
      if h != null {
        cancelled := cancelled + [HandlerRef(h.kind, h.id)];
      }
      open := open - Single(Ref(h));
    }

    method ReleaseZmqHandler()
      modifies this`zmqHandler, this`cancelled, this`open
      ensures View() == old(View()).(handlers := CancelOn(old(HandlersView()), Ref(old(zmqHandler))).(zeroMq := None))
    {
      CancelHandler(zmqHandler);
      zmqHandler := null;
    }

    method ReleaseWebSocketHandler()
      modifies this`wsHandler, this`cancelled, this`open
      ensures View() == old(View()).(handlers := CancelOn(old(HandlersView()), Ref(old(wsHandler))).(webSocket := None))
    {
      CancelHandler(wsHandler);
      wsHandler := null;
    }

    method ReleaseRestHandler()
      modifies this`restHandler, this`isConnected
      ensures View() == old(View()).(handlers := old(HandlersView()).(rest := None, connected := false))
    {
      restHandler := null;
      isConnected := false;
    }

    /** The ZeroMQ and WebSocket handlers are closed and released, the REST handler is released. */
    method ReleaseHandlers()
      modifies this
      ensures View() == old(View()).(handlers := Released(old(HandlersView())))
    {
      ReleaseZmqHandler();
      ReleaseWebSocketHandler();
      ReleaseRestHandler();
    }

    method MakeCurrentHandler()
      modifies this`handler, this`restHandler, this`wsHandler, this`zmqHandler, this`handlersMade
      ensures HandlersView() == MakeCurrent(old(HandlersView()))
    {
      match KindOf(currentProtocol) {
        case Some(Rest) =>
          restHandler := MakeHandler(Rest);
          handler := restHandler;
        case Some(WebSocket) =>
          wsHandler := MakeHandler(WebSocket);
          handler := wsHandler;
        case Some(ZeroMq) =>
          zmqHandler := MakeHandler(ZeroMq);
          handler := zmqHandler;
        case _ =>
      }
    }

    method InitializeProtocolHandler()
      modifies this
      ensures View() == old(View()).(handlers := Initialize(old(HandlersView())),
                                     shown := old(shown).(protocol := old(currentProtocol)))
    {
      ReleaseHandlers();
      handler := null;
      MakeCurrentHandler();
      EmitProtocolChanged();
    }

    method LoadGrpcProtoFile(loads: bool)
      modifies this`grpcHandler, this`handler, this`handlersMade, this`errors
      ensures View() == LoadProto(old(View()), loads)
    {
      if grpcHandler == null {
        grpcHandler := MakeHandler(Grpc);
        handler := grpcHandler;
      }
      if !loads {
        EmitError();
      }
    }

    method LeaveProtocol(name: string)
      modifies this
      ensures View() == old(View()).(handlers := Left(old(HandlersView()), name))
    {
      ReleaseHandlers();
      grpcHandler := null;
      currentProtocol := name;
    }

    /** The gRPC branch of a switch; a stored proto file is loaded at once. */
    method InitializeGrpcHandler(protoLoads: bool)
      requires grpcHandler == null
      modifies this
      ensures View() == FailUnless(old(View()).(handlers := NeedGrpc(old(HandlersView()))),
                                   protoFilePath != "" ==> protoLoads)
    {
      grpcHandler := MakeHandler(Grpc);
      handler := grpcHandler;
      if protoFilePath != "" {
        LoadGrpcProtoFile(protoLoads);
      }
    }

    /** Makes the handler of the protocol just gone over to; a REST, WebSocket or ZeroMQ one is announced. */
    method EnterProtocol(protoLoads: bool)
      requires grpcHandler == null
      modifies this
      ensures RequestsView() == old(RequestsView()) && HandlersView() == Entered(old(HandlersView()))
      ensures errors == if KindOf(currentProtocol) == Some(Grpc) && protoFilePath != "" && !protoLoads
                        then old(errors) + 1 else old(errors)
      ensures currentProtocol == old(currentProtocol)
      ensures shown.loading == old(shown).loading && shown.role == old(shown).role
    {
      if KindOf(currentProtocol) == Some(Grpc) {
        InitializeGrpcHandler(protoLoads);
      } else {
        InitializeProtocolHandler();
      }
    }

    /** Leaves the current protocol, goes over to another one and announces the switch. */
    method SwitchProtocol(name: string, protoLoads: bool)
      requires currentProtocol != name
      modifies this
      ensures RequestsView() == old(RequestsView()) && HandlersView() == Switch(old(HandlersView()), name)
      ensures shown == old(shown).(protocol := name, connected := isConnected)
      ensures errors == if LoadsProto(old(View()), name) && !protoLoads then old(errors) + 1 else old(errors)
    {
      LeaveProtocol(name);
      EnterProtocol(protoLoads);
      EmitProtocolChanged();
      EmitConnectionStatusChanged();
    }

    method SetCurrentProtocol(name: string, protoLoads: bool)
      modifies this
      ensures View() == RequestManagerSpec.SetCurrentProtocol(old(View()), name, protoLoads)
    {
      if currentProtocol != name {
        SwitchProtocol(name, protoLoads);
      }
    }

    /** User headers first, authentication headers after them. */
    method PrepareConfig(verb: string, url: string, headers: seq<Header>, body: string, auth: seq<Header>)
      returns (config: RequestConfig)
      ensures config == RequestConfig(verb, url, headers + auth, body)
    {
      var all: seq<Header> := [];
      for i := 0 to |headers|
        invariant all == headers[..i]
      {
        all := all + [headers[i]];
      }
      for i := 0 to |auth|
        invariant all == headers + auth[..i]
      {
        all := all + [auth[i]];
      }
      config := RequestConfig(verb, url, all, body);
    }

    /** A background worker ends; a step of the environment. */
    method WorkerFinishes(worker: Worker, outcome: Outcome)
      modifies this`running, this`outcomes
      ensures RequestsView() == FinishWorker(old(RequestsView()), worker, outcome)
      ensures View() == Apply(old(View()), Event.WorkerFinishes(worker, outcome))
    {
      if worker in running {
        running := running - {worker};
        if worker.ForRequest? {
          outcomes := outcomes[worker.id := outcome];
        }
      }
    }

    /** executeAsync() of the REST handler. */
    method StartWorker(config: RequestConfig)
      requires restHandler != null
      modifies this`running, this`phase
      ensures View() == old(View()).(requests := RequestManagerSpec.StartRequest(old(RequestsView()), config))
    {
      running := running + {ForRequest(|log.accepted|)};
      phase := Assigning(config);
    }

    /** Puts the new future into the slot. */
    method FillSlot(config: RequestConfig)
      requires phase == Assigning(config) && !SlotBusy(RequestsView())
      modifies this`currentRequest, this`timers, this`log, this`phase
      ensures RequestsView() == Assign(old(RequestsView()))
    {
      if currentRequest.Some? {
        log := log.(superseded := log.superseded + [currentRequest.value]);
      }
      currentRequest := Some(|log.accepted|);
      log := log.(accepted := log.accepted + [config]);
      timers := timers + 1;
      phase := Boundary;
    }

    /** Assigns the new future, once the worker of the old one has finished. */
    method AssignFuture(config: RequestConfig)
      requires phase == Assigning(config) && !SlotBusy(RequestsView())
      modifies this`currentRequest, this`timers, this`log, this`phase
      ensures View() == Apply(old(View()), Event.AssignFuture)
    {
      FillSlot(config);
    }

    /** Starts the worker and assigns its future to the slot, which waits for the worker of the old
        one. */
    method LaunchRequest(config: RequestConfig, ending: Outcome)
      requires isLoading && phase == Boundary && restHandler != null
      modifies this`currentRequest, this`timers, this`running, this`outcomes, this`log, this`phase
      ensures View() == Launched(old(View()), config, ending)
    {
      StartWorker(config);
      if currentRequest.Some? {
        WorkerFinishes(ForRequest(currentRequest.value), ending);
      }
      AssignFuture(config);
    }

    /** Sets the flag and goes over to REST. */
    method BeginRequest()
      modifies this
      ensures View() == Begun(old(View()))
    {
      BeginLoading();
      if currentProtocol != REST_NAME {
        SetCurrentProtocol(REST_NAME, true);
      }
    }

    /** Takes the flag back when the request could not be launched. */
    method AbandonRequest()
      modifies this`isLoading, this`errors, this`shown
      ensures View() == Abandoned(old(View()))
    {
      EndLoading();
      EmitError();
    }

    /** The part of executeRequest behind its checks. */
    method StartRequest(config: RequestConfig, launched: bool, ending: Outcome)
      requires phase == Boundary && Begun(View()).handlers.rest.Some?
      modifies this
      ensures View() == if launched then Launched(Begun(old(View())), config, ending) else Abandoned(Begun(old(View())))
    {
      BeginRequest();
      if launched {
        assert restHandler != null;
        LaunchRequest(config, ending);
      } else {
        AbandonRequest();
      }
    }

    /** `ending` is how the worker of the request that is superseded ends, if it still runs. */
    method ExecuteRequest(verb: string, url: string, headers: seq<Header>, body: string, auth: seq<Header>,
                          launched: bool, ending: Outcome)
      requires HandlersOk(HandlersView()) && phase == Boundary
      modifies this
      ensures View() == ExecuteCall(old(View()), RequestConfig(verb, url, headers + auth, body), launched, ending)
    {
      if isLoading {
        EmitError();
        return;
      }
      if !ValidRestRequest(verb, url) {
        EmitError();
        return;
      }
      var config := PrepareConfig(verb, url, headers, body, auth);
      RestAfterSwitch(HandlersView());
      ExecuteCallLaunches(View(), config, launched, ending);
      StartRequest(config, launched, ending);
    }

    /** Counts a cancel and ends the loading. */
    method MarkCancelled()
      modifies this`isLoading, this`log, this`shown
      ensures View() == WithRequests(old(View()), Cancelled(old(RequestsView())))
    {
      log := log.(cancels := log.cancels + 1);
      EndLoading();
    }

    method CancelRequest()
      modifies this
      ensures View() == Cancel(old(View()))
    {
      if handler != null && isLoading {
        CancelHandler(handler);
        MarkCancelled();
      }
    }

    /** Delivers the outcome of the finished request and empties the slot. */
    method Collect(id: nat)
      requires currentRequest == Some(id) && id in outcomes
      modifies this`isLoading, this`currentRequest, this`log, this`errors, this`shown
      ensures RequestsView() == old(RequestsView()).(
                loading := false, slot := None,
                log := old(log).(delivered := old(log).delivered + [id], results := old(log).results + [outcomes[id]]))
      ensures errors == old(errors) + (if outcomes[id].Err? then 1 else 0)
      ensures shown == old(shown).(loading := false)
    {
      currentRequest := None;
      log := log.(delivered := log.delivered + [id], results := log.results + [outcomes[id]]);
      if outcomes[id].Err? {
        EmitError();
      }
      EndLoading();
    }

    /** The timer finds no request: the loading ends. */
    method EndWithoutRequest()
      requires timers > 0 && currentRequest.None?
      modifies this`timers, this`isLoading, this`shown
      ensures RequestsView() == Check(old(RequestsView())) && shown == old(shown).(loading := false)
    {
      timers := timers - 1;
      EndLoading();
    }

    /** The timer finds a finished request. */
    method CollectRequest()
      requires timers > 0 && currentRequest.Some? && currentRequest.value in outcomes
      modifies this`timers, this`isLoading, this`currentRequest, this`log, this`errors, this`shown
      ensures RequestsView() == Check(old(RequestsView()))
      ensures errors == old(errors) + (if outcomes[old(currentRequest).value].Err? then 1 else 0)
      ensures shown == old(shown).(loading := false)
    {
      timers := timers - 1;
      Collect(currentRequest.value);
    }

    /** One pending timer fires; if the request is not ready the timer is set again. */
    method CheckRequest()
      requires timers > 0
      modifies this`timers, this`isLoading, this`currentRequest, this`log, this`errors, this`shown
      ensures View() == Fire(old(View()))
    {
      if currentRequest.None? {
        EndWithoutRequest();
      } else if currentRequest.value in outcomes {
        CollectRequest();
      }
    }

    method SetCurrentRole(name: string)
      modifies this`currentRole, this`shown
      ensures View() == RequestManagerSpec.SetCurrentRole(old(View()), name)
    {
      if currentRole != name {
        currentRole := name;
        shown := shown.(role := name);
      }
    }

    method SetConnected(connected: bool)
      modifies this`isConnected, this`shown
      ensures View() == WithConnected(old(View()), connected)
    {
      isConnected := connected;
      EmitConnectionStatusChanged();
    }

    method ConnectZmq(pattern: string, role: string, configured: bool)
      requires Configurable(pattern, role)
      modifies this`isConnected, this`currentRole, this`open, this`errors, this`shown
      ensures View() == Connect(old(View()), pattern, role, configured)
    {
      if ConvertPattern(pattern).Err? || ConvertRole(role).Err? {
        EmitError();
      } else if zmqHandler == null {
        EmitError();
      } else if !configured {
        open := open - Single(Ref(zmqHandler));
        EmitError();
      } else {
        open := open + Single(Ref(zmqHandler));
        currentRole := role;
        SetConnected(true);
      }
    }

    method OnWebSocketConnected()
      requires wsHandler != null && phase == Boundary
      modifies this`isConnected, this`open, this`shown
      ensures View() == Apply(old(View()), WebSocketConnected)
    {
      open := open + Single(Ref(wsHandler));
      SetConnected(true);
    }

    method OnWebSocketDisconnected()
      requires wsHandler != null && phase == Boundary
      modifies this`isConnected, this`open, this`shown
      ensures View() == Apply(old(View()), WebSocketDisconnected)
    {
      open := open - Single(Ref(wsHandler));
      SetConnected(false);
    }

    method Disconnect()
      modifies this`isConnected, this`cancelled, this`open, this`shown
      ensures View() == Disconnected(old(View()))
    {
      CancelHandler(wsHandler);
      CancelHandler(zmqHandler);
      SetConnected(false);
    }

    /** executeAsync() of the WebSocket handler. */
    method StartMessageWorker()
      modifies this`running, this`log, this`phase
      ensures RequestsView() == StartMessage(old(RequestsView()))
    {
      var number := log.messages;
      running := running + {ForMessage(number)};
      log := log.(messages := number + 1);
      phase := Discarding(number);
    }

    /** Drops the future of a message whose worker has finished. */
    method DropFuture()
      requires phase.Discarding? && ForMessage(phase.message) !in running
      modifies this`phase
      ensures RequestsView() == Discard(old(RequestsView()))
    {
      phase := Boundary;
    }

    /** Starts the worker of a message and drops its future, which waits for it. */
    method WaitForMessage(ending: Outcome)
      requires phase == Boundary
      modifies this`running, this`outcomes, this`log, this`phase
      ensures RequestsView() == WithMessage(old(RequestsView()), ending)
    {
      StartMessageWorker();
      WorkerFinishes(ForMessage(phase.message), ending);
      DropFuture();
    }

    /** The future of the worker is not kept, so the call waits for it; `ending` is how it ends. */
    method SendWebSocketMessage(ending: Outcome)
      requires phase == Boundary
      modifies this`running, this`outcomes, this`log, this`errors, this`phase
      ensures View() == MessageCall(old(View()), ending)
    {
      if !isConnected {
        EmitError();
        return;
      }
      MessageCallWaits(View(), ending);
      if handler != null && handler.kind == WebSocket {
        WaitForMessage(ending);
      }
    }

    method SetProtoFilePath(path: string, loads: bool)
      modifies this`protoFilePath, this`grpcHandler, this`handler, this`handlersMade, this`errors
      ensures View() == SetPath(old(View()), path, loads)
    {
      if protoFilePath != path {
        protoFilePath := path;
        if grpcHandler != null {
          LoadGrpcProtoFile(loads);
        }
      }
    }

    method ExecuteGrpcRequest(endpointSet: bool, succeeds: bool)
      modifies this`isLoading, this`errors, this`shown
      ensures View() == CallGrpc(old(View()), endpointSet, succeeds)
    {
      if grpcHandler == null || !endpointSet || isLoading {
        EmitError();
        return;
      }
      BeginLoading();
      if !succeeds {
        EmitError();
      }
      EndLoading();
    }
  }
}
