/** The event loop of `RequestManager` (src/models/request_manager.cpp) as functions on its state:
    one slot for a REST request in flight, a loading flag, self-rearming timers, background workers
    that the user-interface thread sometimes waits for, and the protocol handlers it owns next to the
    pointer that aliases one of them. The class in RequestManager.dfy is proved against these
    functions; what holds over every sequence of events is proved here. */
module RequestManagerSpec {
  import opened Lists
  import opened Outcomes
  import opened RestRequest
  import opened ZmqProtocol

  // ----- pure parts

  predicate ValidMethod(verb: string) {
    verb in ["GET", "POST", "PUT", "DELETE", "PATCH", "HEAD", "OPTIONS"]
  }

  predicate ValidRestRequest(verb: string, url: string) {
    url != "" && (HTTP <= url || HTTPS <= url) && ValidMethod(verb)
  }

  function ConvertPattern(name: string): Result<Pattern> {
    if name == "REQ-REP" then Ok(ReqRep)
    else if name == "PUB-SUB" then Ok(PubSub)
    else if name == "PUSH-PULL" then Ok(PushPull)
    else if name == "DEALER-ROUTER" then Ok(DealerRouter)
    else Err(InvalidConfig)
  }

  function ConvertRole(name: string): Result<Role> {
    if name == "REQUESTER" then Ok(Requester)
    else if name == "REPLIER" then Ok(Replier)
    else if name == "PUBLISHER" then Ok(Publisher)
    else if name == "SUBSCRIBER" then Ok(Subscriber)
    else if name == "PUSHER" then Ok(Pusher)
    else if name == "PULLER" then Ok(Puller)
    else if name == "DEALER" then Ok(Dealer)
    else if name == "ROUTER" then Ok(Router)
    else Err(InvalidConfig)
  }

  /** `configure` is given only roles of the pattern. */
  predicate Configurable(pattern: string, role: string) {
    ConvertPattern(pattern).Ok? && ConvertRole(role).Ok? ==>
      ConvertRole(role).value in AvailableRoles(ConvertPattern(pattern).value)
  }

  // ----- the request in flight

  /** What a finished background request holds: a response body or a thrown error. */
  type Outcome = Result<string>

  /** A std::async worker: of a REST request, or of a WebSocket message, whose future is not kept. */
  datatype Worker = ForRequest(id: nat) | ForMessage(message: nat)

  /** Where the user-interface thread is: at an event boundary, or inside a slot, waiting for a worker.
      `Assigning` has started the worker of a new request and overwrites m_currentRequest, `Discarding`
      has started that of a message and drops its future. Overwriting and dropping a std::async future
      wait for its worker (section [futures.async] of the C++ standard). */
  datatype Phase = Boundary | Assigning(config: RequestConfig) | Discarding(message: nat)

  /** What has happened: requests accepted, outcomes delivered by `checkRequest` with the number of
      their request, requests whose slot was overwritten, cancels that took effect, and messages
      given to a WebSocket worker. */
  datatype Log = Log(
    accepted: seq<RequestConfig>,
    delivered: seq<nat>,
    results: seq<Outcome>,
    superseded: seq<nat>,
    cancels: nat,
    messages: nat)

  /** The slot, the flag, the pending timers and the workers. */
  datatype Requests = Requests(
    phase: Phase,
    loading: bool,
    slot: Option<nat>,              // m_currentRequest, by request number; None is not valid()
    timers: nat,
    running: set<Worker>,
    outcomes: map<nat, Outcome>,
    log: Log)

  /** executeAsync(): the worker of the next request starts. */
  function StartRequest(q: Requests, config: RequestConfig): Requests {
    q.(phase := Assigning(config), running := q.running + {ForRequest(|q.log.accepted|)})
  }

  /** The request in the slot, if there is one, is still being worked on. */
  predicate SlotBusy(q: Requests) {
    q.slot.Some? && ForRequest(q.slot.value) in q.running
  }

  /** The new future is assigned once the worker of the old one has finished. */
  function Assign(q: Requests): Requests {
    if !q.phase.Assigning? || SlotBusy(q) then q
    else
      q.(phase := Boundary,
         slot := Some(|q.log.accepted|),
         timers := q.timers + 1,
         log := q.log.(accepted := q.log.accepted + [q.phase.config],
                       superseded := if q.slot.Some? then q.log.superseded + [q.slot.value] else q.log.superseded))
  }

  function StartMessage(q: Requests): Requests {
    q.(phase := Discarding(q.log.messages),
       running := q.running + {ForMessage(q.log.messages)},
       log := q.log.(messages := q.log.messages + 1))
  }

  /** The future of a message is dropped once its worker has finished. */
  function Discard(q: Requests): Requests {
    if !q.phase.Discarding? || ForMessage(q.phase.message) in q.running then q else q.(phase := Boundary)
  }

  /** checkRequest(), called by a timer: it collects a finished request, or looks again later. */
  function Check(q: Requests): Requests {
    if q.timers == 0 then q
    else if q.slot.None? then q.(timers := q.timers - 1, loading := false)
    else if q.slot.value in q.outcomes then
      q.(timers := q.timers - 1, loading := false, slot := None,
         log := q.log.(delivered := q.log.delivered + [q.slot.value],
                       results := q.log.results + [q.outcomes[q.slot.value]]))
    else q
  }

  /** A cancel that takes effect. */
  function Cancelled(q: Requests): Requests {
    q.(loading := false, log := q.log.(cancels := q.log.cancels + 1))
  }

  function FinishWorker(q: Requests, w: Worker, outcome: Outcome): Requests {
    if w !in q.running then q
    else q.(running := q.running - {w}, outcomes := if w.ForRequest? then q.outcomes[w.id := outcome] else q.outcomes)
  }

  // ----- the handlers

  datatype Kind = Rest | WebSocket | ZeroMq | Grpc

  /** A handler object: what it is and when it was made. */
  datatype HandlerRef = HandlerRef(kind: Kind, id: nat)

  datatype Handlers = Handlers(
    protocol: string,
    pointer: Option<HandlerRef>,      // m_handler
    rest: Option<HandlerRef>,
    webSocket: Option<HandlerRef>,
    zeroMq: Option<HandlerRef>,
    grpc: Option<HandlerRef>,
    connected: bool,
    role: string,                     // m_currentRole
    protoPath: string,
    made: seq<Kind>,                  // the handlers made so far
    cancelled: seq<HandlerRef>,       // those told to cancel, which closes a WebSocket or ZeroMQ connection
    open: set<HandlerRef>)            // those with a connection that was not closed since

  const REST_NAME := "REST"
  const DEFAULT_ROLE := "DEALER"

  /** The handler a protocol name stands for; any other name is accepted and has none. */
  function KindOf(protocol: string): Option<Kind> {
    if protocol == REST_NAME then Some(Rest)
    else if protocol == "WebSocket" then Some(WebSocket)
    else if protocol == "ZeroMQ" then Some(ZeroMq)
    else if protocol == "gRPC" then Some(Grpc)
    else None
  }

  function Listed(h: Option<HandlerRef>): seq<HandlerRef> {
    if h.Some? then [h.value] else []
  }

  function Single(h: Option<HandlerRef>): set<HandlerRef> {
    if h.Some? then {h.value} else {}
  }

  /** cancel() on a handler, if there is one. */
  function CancelOn(h: Handlers, target: Option<HandlerRef>): Handlers {
    h.(cancelled := h.cancelled + Listed(target), open := h.open - Single(target))
  }

  /** The ZeroMQ and WebSocket handlers are cancelled and released, the REST handler is released. */
  function Released(h: Handlers): Handlers {
    CancelOn(CancelOn(h, h.zeroMq), h.webSocket).(zeroMq := None, webSocket := None, rest := None, connected := false)
  }

  /** The next handler to be made. */
  function Next(h: Handlers, kind: Kind): Option<HandlerRef> {
    Some(HandlerRef(kind, |h.made|))
  }

  /** The handler of the current protocol is made, unless that is gRPC or has none. */
  function MakeCurrent(h: Handlers): Handlers {
    match KindOf(h.protocol)
    case Some(Rest) => h.(rest := Next(h, Rest), pointer := Next(h, Rest), made := h.made + [Rest])
    case Some(WebSocket) =>
      h.(webSocket := Next(h, WebSocket), pointer := Next(h, WebSocket), made := h.made + [WebSocket])
    case Some(ZeroMq) => h.(zeroMq := Next(h, ZeroMq), pointer := Next(h, ZeroMq), made := h.made + [ZeroMq])
    case _ => h
  }

  /** initializeProtocolHandler(): everything but a gRPC handler goes, and one handler is made. */
  function Initialize(h: Handlers): Handlers {
    MakeCurrent(Released(h).(pointer := None))
  }

  /** loadGrpcProtoFile(): a gRPC handler is made if there is none, under any protocol. */
  function NeedGrpc(h: Handlers): Handlers {
    if h.grpc.Some? then h
    else h.(grpc := Next(h, Grpc), pointer := Next(h, Grpc), made := h.made + [Grpc])
  }

  /** The current protocol is left for another one. */
  function Left(h: Handlers, name: string): Handlers {
    Released(h).(grpc := None, protocol := name)
  }

  /** The handler of a protocol just gone over to. */
  function Entered(h: Handlers): Handlers {
    if KindOf(h.protocol) == Some(Grpc) then NeedGrpc(h) else Initialize(h)
  }

  /** setCurrentProtocol(). */
  function Switch(h: Handlers, name: string): Handlers {
    if h.protocol == name then h else Entered(Left(h, name))
  }

  // ----- the whole state

  /** What the user interface read at the last change notification of each property. */
  datatype Shown = Shown(loading: bool, protocol: string, connected: bool, role: string)

  datatype State = State(requests: Requests, handlers: Handlers, errors: nat, shown: Shown)

  /** The calls of the user interface, and what the environment does. A flag says whether the
      foreign call inside works; `protoLoads`, whether loading a proto file and choosing its first
      service report no error. */
  datatype Event =
    | ExecuteRequest(config: RequestConfig, launched: bool)
    | AssignFuture
    | DiscardFuture
    | CancelRequest
    | TimerFires
    | WorkerFinishes(worker: Worker, outcome: Outcome)
    | SetProtocol(name: string, protoLoads: bool)
    | SetRole(name: string)
    | ConnectZmq(pattern: string, role: string, configured: bool)
    | WebSocketConnected
    | WebSocketDisconnected
    | Disconnect
    | SendWebSocketMessage
    | LoadProtoFile(protoLoads: bool)
    | SetProtoPath(path: string, protoLoads: bool)
    | ExecuteGrpc(endpointSet: bool, succeeds: bool)

  function Fail(s: State): State {
    s.(errors := s.errors + 1)
  }

  function FailUnless(s: State, ok: bool): State {
    if ok then s else Fail(s)
  }

  /** A change of the flag, followed by loadingChanged. */
  function WithRequests(s: State, q: Requests): State {
    s.(requests := q, shown := s.shown.(loading := q.loading))
  }

  function WithConnected(s: State, connected: bool): State {
    s.(handlers := s.handlers.(connected := connected), shown := s.shown.(connected := connected))
  }

  /** protocolChanged and connectionStatusChanged follow a switch. */
  function SwitchTo(s: State, name: string): State {
    if s.handlers.protocol == name then s
    else
      var h := Switch(s.handlers, name);
      s.(handlers := h, shown := s.shown.(protocol := name, connected := h.connected))
  }

  /** executeRequest() up to the started worker. */
  function Execute(s: State, config: RequestConfig, launched: bool): State {
    if s.requests.loading || !ValidRestRequest(config.verb, config.url) then Fail(s)
    else if launched then WithRequests(SwitchTo(s, REST_NAME), StartRequest(s.requests.(loading := true), config))
    else Fail(WithRequests(SwitchTo(s, REST_NAME), s.requests))
  }

  /** cancelRequest(): the slot keeps its future and the timer stays pending. */
  function Cancel(s: State): State {
    if s.handlers.pointer.Some? && s.requests.loading
    then WithRequests(s.(handlers := CancelOn(s.handlers, s.handlers.pointer)), Cancelled(s.requests))
    else s
  }

  /** A timer fires. A request that is not ready changes nothing: the timer is set again. */
  function Fire(s: State): State {
    if s.requests.timers == 0 then s
    else if s.requests.slot.None? then WithRequests(s, Check(s.requests))
    else if s.requests.slot.value in s.requests.outcomes then
      FailUnless(WithRequests(s, Check(s.requests)), s.requests.outcomes[s.requests.slot.value].Ok?)
    else s
  }

  /** A switch to gRPC loads the stored proto file. */
  predicate LoadsProto(s: State, name: string) {
    s.handlers.protocol != name && KindOf(name) == Some(Grpc) && s.handlers.protoPath != ""
  }

  /** setCurrentProtocol(); a stored proto file is loaded into a new gRPC handler. */
  function SetCurrentProtocol(s: State, name: string, protoLoads: bool): State {
    FailUnless(SwitchTo(s, name), LoadsProto(s, name) ==> protoLoads)
  }

  /** setCurrentRole(). */
  function SetCurrentRole(s: State, name: string): State {
    if s.handlers.role == name then s
    else s.(handlers := s.handlers.(role := name), shown := s.shown.(role := name))
  }

  /** The names are known and there is a ZeroMQ handler: connectZMQ() comes to its `configure`. */
  predicate Configures(s: State, pattern: string, role: string) {
    ConvertPattern(pattern).Ok? && ConvertRole(role).Ok? && s.handlers.zeroMq.Some?
  }

  /** connectZMQ(): `configure` closes the old connection before it tries the new one; the role is set
      without currentRoleChanged. */
  function Connect(s: State, pattern: string, role: string, configured: bool): State {
    var h := s.handlers;
    if !Configures(s, pattern, role) then Fail(s)
    else if !configured then Fail(s.(handlers := h.(open := h.open - Single(h.zeroMq))))
    else WithConnected(s.(handlers := h.(role := role, open := h.open + Single(h.zeroMq))), true)
  }

  /** onWebSocketConnected() and onWebSocketDisconnected(). */
  function WebSocketOpened(s: State): State {
    WithConnected(s.(handlers := s.handlers.(open := s.handlers.open + Single(s.handlers.webSocket))), true)
  }

  function WebSocketClosed(s: State): State {
    WithConnected(s.(handlers := s.handlers.(open := s.handlers.open - Single(s.handlers.webSocket))), false)
  }

  /** disconnect(): the handlers stay. */
  function Disconnected(s: State): State {
    var h := CancelOn(CancelOn(s.handlers, s.handlers.webSocket), s.handlers.zeroMq);
    WithConnected(s.(handlers := h), false)
  }

  /** sendWebSocketMessage() up to the started worker, if m_handler is a WebSocket handler. */
  function SendMessage(s: State): State {
    if !s.handlers.connected then Fail(s)
    else if s.handlers.pointer.Some? && s.handlers.pointer.value.kind == WebSocket
    then s.(requests := StartMessage(s.requests))
    else s
  }

  function LoadProto(s: State, protoLoads: bool): State {
    FailUnless(s.(handlers := NeedGrpc(s.handlers)), protoLoads)
  }

  function SetPath(s: State, path: string, protoLoads: bool): State {
    if path == s.handlers.protoPath then s
    else
      var s1 := s.(handlers := s.handlers.(protoPath := path));
      if s1.handlers.grpc.Some? then LoadProto(s1, protoLoads) else s1
  }

  /** executeGrpcRequest(): the flag is set and cleared around a synchronous call. */
  function CallGrpc(s: State, endpointSet: bool, succeeds: bool): State {
    if s.handlers.grpc.None? || !endpointSet || s.requests.loading then Fail(s)
    else FailUnless(WithRequests(s, s.requests), succeeds)
  }

  /** A call of the user interface or a timer, at an event boundary. */
  function Handle(s: State, e: Event): State {
    match e
    case ExecuteRequest(config, launched) => Execute(s, config, launched)
    case CancelRequest => Cancel(s)
    case TimerFires => Fire(s)
    case SetProtocol(name, protoLoads) => SetCurrentProtocol(s, name, protoLoads)
    case SetRole(name) => SetCurrentRole(s, name)
    case ConnectZmq(pattern, role, configured) =>
      if Configurable(pattern, role) then Connect(s, pattern, role, configured) else s
    case WebSocketConnected => if s.handlers.webSocket.Some? then WebSocketOpened(s) else s
    case WebSocketDisconnected => if s.handlers.webSocket.Some? then WebSocketClosed(s) else s
    case Disconnect => Disconnected(s)
    case SendWebSocketMessage => SendMessage(s)
    case LoadProtoFile(protoLoads) => LoadProto(s, protoLoads)
    case SetProtoPath(path, protoLoads) => SetPath(s, path, protoLoads)
    case ExecuteGrpc(endpointSet, succeeds) => CallGrpc(s, endpointSet, succeeds)
    case _ => s
  }

  /** One event. An event that is not possible in a state leaves it alone: while the user-interface
      thread waits inside a slot only workers go on. */
  function Apply(s: State, e: Event): State {
    match e
    case WorkerFinishes(worker, outcome) => s.(requests := FinishWorker(s.requests, worker, outcome))
    case AssignFuture => s.(requests := Assign(s.requests))
    case DiscardFuture => s.(requests := Discard(s.requests))
    case _ => if s.requests.phase == Boundary then Handle(s, e) else s
  }

  /** The worker of the request that is being superseded ends, if it still runs. */
  function Awaited(q: Requests, ending: Outcome): Requests {
    if q.slot.Some? then FinishWorker(q, ForRequest(q.slot.value), ending) else q
  }

  /** A launch from the started worker to the filled slot. */
  function Launch(q: Requests, config: RequestConfig, ending: Outcome): Requests {
    Assign(Awaited(StartRequest(q, config), ending))
  }

  /** executeRequest() as a whole: the event, the end of the superseded worker, and the assignment. */
  function ExecuteCall(s: State, config: RequestConfig, launched: bool, ending: Outcome): State {
    var started := Apply(s, ExecuteRequest(config, launched));
    if !started.requests.phase.Assigning? then started
    else
      var slot := started.requests.slot;
      var waited := if slot.Some? then Apply(started, WorkerFinishes(ForRequest(slot.value), ending)) else started;
      Apply(waited, AssignFuture)
  }

  /** The steps behind its checks: the flag and the protocol, then a launch or a step back. */
  function Begun(s: State): State {
    SwitchTo(WithRequests(s, s.requests.(loading := true)), REST_NAME)
  }

  function Launched(s: State, config: RequestConfig, ending: Outcome): State {
    s.(requests := Launch(s.requests, config, ending))
  }

  function Abandoned(s: State): State {
    Fail(WithRequests(s, s.requests.(loading := false)))
  }

  lemma ExecuteCallLaunches(s: State, config: RequestConfig, launched: bool, ending: Outcome)
    requires s.requests.phase == Boundary && !s.requests.loading && ValidRestRequest(config.verb, config.url)
    ensures ExecuteCall(s, config, launched, ending) ==
            if launched then Launched(Begun(s), config, ending) else Abandoned(Begun(s))
  {
  }

  /** A message from the started worker to the discarded future. */
  function WithMessage(q: Requests, ending: Outcome): Requests {
    Discard(FinishWorker(StartMessage(q), ForMessage(q.log.messages), ending))
  }

  /** sendWebSocketMessage() as a whole: the event, the end of its worker, and the discarded future. */
  function MessageCall(s: State, ending: Outcome): State {
    var started := Apply(s, SendWebSocketMessage);
    if !started.requests.phase.Discarding? then started
    else Apply(Apply(started, WorkerFinishes(ForMessage(started.requests.phase.message), ending)), DiscardFuture)
  }

  lemma MessageCallWaits(s: State, ending: Outcome)
    requires s.requests.phase == Boundary && s.handlers.connected
    ensures MessageCall(s, ending) ==
            if s.handlers.pointer.Some? && s.handlers.pointer.value.kind == WebSocket
            then s.(requests := WithMessage(s.requests, ending)) else s
  {
  }

  const NO_REQUESTS := Requests(Boundary, false, None, 0, {}, map[], Log([], [], [], [], 0, 0))
  const NO_HANDLERS := Handlers(REST_NAME, None, None, None, None, None, false, DEFAULT_ROLE, "", [], [], {})

  /** The state after the constructor. */
  function Init(): State {
    State(NO_REQUESTS, Initialize(NO_HANDLERS), 0, Shown(false, REST_NAME, false, DEFAULT_ROLE))
  }

  function Run(events: seq<Event>): State {
    if events == [] then Init() else Apply(Run(events[..|events| - 1]), events[|events| - 1])
  }

  // ----- what every event keeps of the requests

  /** Every accepted request is delivered, superseded or in the slot, and only one of these. */
  predicate Accounted(q: Requests, id: nat) {
    && (id in q.log.delivered || id in q.log.superseded || q.slot == Some(id))
    && !(id in q.log.delivered && id in q.log.superseded)
    && (q.slot == Some(id) ==> id !in q.log.delivered && id !in q.log.superseded)
  }

  predicate FateOk(q: Requests) {
    && Rising(q.log.delivered, |q.log.accepted|) && Rising(q.log.superseded, |q.log.accepted|)
    && (q.slot.Some? ==> q.slot.value + 1 == |q.log.accepted|)
    && forall id | 0 <= id < |q.log.accepted| :: Accounted(q, id)
  }

  predicate CountsOk(q: Requests) {
    && |q.log.accepted| == |q.log.delivered| + |q.log.superseded| + (if q.slot.Some? then 1 else 0)
    && |q.log.superseded| + (if q.slot.Some? && (!q.loading || q.phase.Assigning?) then 1 else 0) <= q.log.cancels
    && (q.phase.Assigning? ==> q.loading)
    && (q.loading ==> q.slot.Some? || q.phase.Assigning?)
    && (q.slot.Some? ==> q.timers >= 1)
    && q.timers <= q.log.cancels + (if q.loading && !q.phase.Assigning? then 1 else 0)
  }

  predicate ResultsOk(q: Requests) {
    && |q.log.results| == |q.log.delivered|
    && forall i | 0 <= i < |q.log.delivered| ::
         q.log.delivered[i] in q.outcomes && q.log.results[i] == q.outcomes[q.log.delivered[i]]
  }

  /** The workers that may be unfinished: that of the request in the slot, ... */
  function SlotWorker(q: Requests): set<Worker> {
    if q.slot.Some? then {ForRequest(q.slot.value)} else {}
  }

  /** ... and the one that the slot now running has started. */
  function StartedWorker(q: Requests): set<Worker> {
    match q.phase
    case Boundary => {}
    case Assigning(_) => {ForRequest(|q.log.accepted|)}
    case Discarding(message) => {ForMessage(message)}
  }

  /** The requests accepted, with the one just being put into the slot. */
  function Taken(q: Requests): nat {
    |q.log.accepted| + (if q.phase.Assigning? then 1 else 0)
  }

  /** A request that was started is being worked on or ready. */
  predicate Underway(q: Requests, id: nat) {
    ForRequest(id) in q.running || id in q.outcomes
  }

  predicate WorkersOk(q: Requests) {
    && q.running <= SlotWorker(q) + StartedWorker(q)
    && (forall id | id in q.outcomes :: id < Taken(q) && ForRequest(id) !in q.running)
    && (q.slot.Some? ==> Underway(q, q.slot.value))
    && (q.phase.Assigning? ==> Underway(q, |q.log.accepted|))
    && (q.phase.Discarding? ==> q.phase.message < q.log.messages)
  }

  predicate RequestsOk(q: Requests) {
    FateOk(q) && CountsOk(q) && ResultsOk(q) && WorkersOk(q)
  }

  lemma FateAfterAssign(q: Requests)
    requires FateOk(q)
    ensures FateOk(Assign(q))
  {
    var t := Assign(q);
    if q.slot.Some? {
      assert Accounted(q, q.slot.value);
      RisingPut(q.log.superseded, q.slot.value);
    }
    RisingRoom(q.log.delivered, |q.log.accepted|);
    RisingRoom(t.log.superseded, |q.log.accepted|);
    forall id | 0 <= id < |t.log.accepted|
      ensures Accounted(t, id)
    {
      if id < |q.log.accepted| {
        assert Accounted(q, id);
      }
    }
  }

  /** Changing nothing of the fates keeps them. */
  lemma FateUntouched(q: Requests, t: Requests)
    requires FateOk(q) && t.slot == q.slot && t.log.accepted == q.log.accepted
    requires t.log.delivered == q.log.delivered && t.log.superseded == q.log.superseded
    ensures FateOk(t)
  {
    forall id | 0 <= id < |t.log.accepted|
      ensures Accounted(t, id)
    {
      assert Accounted(q, id);
    }
  }

  lemma FateAfterCheck(q: Requests)
    requires FateOk(q)
    ensures FateOk(Check(q))
  {
    var t := Check(q);
    if q.slot.Some? {
      assert Accounted(q, q.slot.value);
      RisingPut(q.log.delivered, q.slot.value);
    }
    forall id | 0 <= id < |t.log.accepted|
      ensures Accounted(t, id)
    {
      assert Accounted(q, id);
    }
  }

  lemma StartKeeps(q: Requests, config: RequestConfig)
    requires RequestsOk(q) && !q.loading && q.phase == Boundary
    ensures RequestsOk(StartRequest(q.(loading := true), config))
  {
    FateUntouched(q, StartRequest(q.(loading := true), config));
  }

  lemma AssignKeeps(q: Requests)
    requires RequestsOk(q)
    ensures RequestsOk(Assign(q))
  {
    FateAfterAssign(q);
  }

  lemma MessageKeeps(q: Requests)
    requires RequestsOk(q) && q.phase == Boundary
    ensures RequestsOk(StartMessage(q))
  {
    FateUntouched(q, StartMessage(q));
  }

  lemma DiscardKeeps(q: Requests)
    requires RequestsOk(q)
    ensures RequestsOk(Discard(q))
  {
    FateUntouched(q, Discard(q));
  }

  lemma CheckKeeps(q: Requests)
    requires RequestsOk(q) && q.phase == Boundary
    ensures RequestsOk(Check(q))
  {
    FateAfterCheck(q);
  }

  lemma FinishKeeps(q: Requests, w: Worker, outcome: Outcome)
    requires RequestsOk(q)
    ensures RequestsOk(FinishWorker(q, w, outcome))
  {
    FateUntouched(q, FinishWorker(q, w, outcome));
    if w in q.running && w.ForRequest? {
      assert w.id !in q.outcomes;
    }
  }

  lemma CancelKeeps(q: Requests)
    requires RequestsOk(q) && q.loading && q.phase == Boundary
    ensures RequestsOk(Cancelled(q))
  {
    FateUntouched(q, Cancelled(q));
  }

  // ----- what every event keeps of the handlers

  predicate OwnedOk(owned: Option<HandlerRef>, kind: Kind, made: seq<Kind>) {
    owned.Some? ==> owned.value.kind == kind && owned.value.id < |made| && made[owned.value.id] == kind
  }

  /** A WebSocket or ZeroMQ handler that is no longer owned has been told to close. */
  predicate ClosedOk(h: Handlers, id: nat)
    requires id < |h.made|
  {
    h.made[id] == WebSocket || h.made[id] == ZeroMq ==>
      var ref := HandlerRef(h.made[id], id);
      ref in h.cancelled || h.webSocket == Some(ref) || h.zeroMq == Some(ref)
  }

  predicate NoneLeaked(h: Handlers) {
    forall id | 0 <= id < |h.made| :: ClosedOk(h, id)
  }

  /** Open connections belong to owned WebSocket and ZeroMQ handlers, and the flag is set then. */
  predicate OpenOk(h: Handlers) {
    && h.open <= Single(h.webSocket) + Single(h.zeroMq)
    && (h.open != {} ==> h.connected)
  }

  /** The handler of the current protocol. */
  function Current(h: Handlers): Option<HandlerRef> {
    match KindOf(h.protocol)
    case Some(Rest) => h.rest
    case Some(WebSocket) => h.webSocket
    case Some(ZeroMq) => h.zeroMq
    case Some(Grpc) => h.grpc
    case None => None
  }

  predicate HandlersOk(h: Handlers) {
    && OwnedOk(h.rest, Rest, h.made) && OwnedOk(h.webSocket, WebSocket, h.made)
    && OwnedOk(h.zeroMq, ZeroMq, h.made) && OwnedOk(h.grpc, Grpc, h.made)
    && (h.rest.Some? <==> KindOf(h.protocol) == Some(Rest))
    && (h.webSocket.Some? <==> KindOf(h.protocol) == Some(WebSocket))
    && (h.zeroMq.Some? <==> KindOf(h.protocol) == Some(ZeroMq))
    && (KindOf(h.protocol) == Some(Grpc) ==> h.grpc.Some?)
    && (h.pointer == Current(h) || (h.grpc.Some? && h.pointer == h.grpc))
    && (h.connected ==> h.webSocket.Some? || h.zeroMq.Some?)
  }

  lemma InitializeKeeps(h: Handlers)
    requires OwnedOk(h.grpc, Grpc, h.made) && KindOf(h.protocol) != Some(Grpc)
    ensures HandlersOk(Initialize(h)) && Initialize(h).protocol == h.protocol
  {
  }

  lemma ReleasedKeepsClosed(h: Handlers)
    requires NoneLeaked(h)
    ensures NoneLeaked(Released(h))
  {
    forall id | 0 <= id < |h.made|
      ensures ClosedOk(Released(h), id)
    {
      assert ClosedOk(h, id);
    }
  }

  lemma InitializeKeepsClosed(h: Handlers)
    requires NoneLeaked(h)
    ensures NoneLeaked(Initialize(h))
  {
    ReleasedKeepsClosed(h);
    var t := Initialize(h);
    forall id | 0 <= id < |t.made|
      ensures ClosedOk(t, id)
    {
      if id < |h.made| {
        assert ClosedOk(Released(h), id);
      }
    }
  }

  lemma NeedGrpcKeepsClosed(h: Handlers)
    requires NoneLeaked(h)
    ensures NoneLeaked(NeedGrpc(h))
  {
    var t := NeedGrpc(h);
    forall id | 0 <= id < |t.made|
      ensures ClosedOk(t, id)
    {
      if id < |h.made| {
        assert ClosedOk(h, id);
      }
    }
  }

  lemma SwitchKeepsClosed(h: Handlers, name: string)
    requires NoneLeaked(h)
    ensures NoneLeaked(Switch(h, name))
  {
    if h.protocol != name {
      ReleasedKeepsClosed(h);
      var cleared := Left(h, name);
      assert forall id | 0 <= id < |cleared.made| :: ClosedOk(Released(h), id) ==> ClosedOk(cleared, id);
      NeedGrpcKeepsClosed(cleared);
      InitializeKeepsClosed(cleared);
    }
  }

  /** Cancelling more handlers, and other fields, change nothing of it. */
  lemma MoreCancelledKeepsClosed(h: Handlers, t: Handlers)
    requires NoneLeaked(h) && t.made == h.made && t.webSocket == h.webSocket && t.zeroMq == h.zeroMq
    requires h.cancelled <= t.cancelled
    ensures NoneLeaked(t)
  {
    forall id | 0 <= id < |t.made|
      ensures ClosedOk(t, id)
    {
      assert ClosedOk(h, id);
    }
  }

  lemma SwitchKeeps(h: Handlers, name: string)
    requires HandlersOk(h)
    ensures HandlersOk(Switch(h, name)) && Switch(h, name).protocol == name
  {
    if h.protocol != name && KindOf(name) != Some(Grpc) {
      InitializeKeeps(Left(h, name));
    }
  }

  lemma SwitchKeepsOpen(h: Handlers, name: string)
    requires OpenOk(h)
    ensures OpenOk(Switch(h, name))
  {
    assert h.protocol != name ==> Released(h).open == {};
  }

  lemma RestAfterSwitch(h: Handlers)
    requires HandlersOk(h)
    ensures Switch(h, REST_NAME).rest.Some?
  {
    SwitchKeeps(h, REST_NAME);
  }

  lemma NeedGrpcKeeps(h: Handlers)
    requires HandlersOk(h)
    ensures HandlersOk(NeedGrpc(h)) && NeedGrpc(h).grpc.Some?
  {
  }

  // ----- what every event keeps

  predicate ShownOk(s: State) {
    && s.shown.loading == s.requests.loading
    && s.shown.protocol == s.handlers.protocol
    && s.shown.connected == s.handlers.connected
  }

  predicate Inv(s: State) {
    RequestsOk(s.requests) && HandlersOk(s.handlers) && NoneLeaked(s.handlers) && OpenOk(s.handlers) && ShownOk(s)
  }

  lemma SwitchToKeeps(s: State, name: string)
    requires Inv(s)
    ensures Inv(SwitchTo(s, name))
  {
    SwitchKeeps(s.handlers, name);
    SwitchKeepsClosed(s.handlers, name);
    SwitchKeepsOpen(s.handlers, name);
  }

  /** A change of the requests, announced. */
  lemma RequestsKeep(s: State, q: Requests)
    requires Inv(s) && RequestsOk(q)
    ensures Inv(WithRequests(s, q)) && Inv(Fail(WithRequests(s, q)))
  {
  }

  lemma ExecuteKeeps(s: State, config: RequestConfig, launched: bool)
    requires Inv(s) && s.requests.phase == Boundary
    ensures Inv(Execute(s, config, launched))
  {
    SwitchToKeeps(s, REST_NAME);
    RequestsKeep(SwitchTo(s, REST_NAME), s.requests);
    if !s.requests.loading {
      StartKeeps(s.requests, config);
      RequestsKeep(SwitchTo(s, REST_NAME), StartRequest(s.requests.(loading := true), config));
    }
  }

  lemma WebSocketKeeps(s: State)
    requires Inv(s) && s.handlers.webSocket.Some?
    ensures Inv(WebSocketOpened(s)) && Inv(WebSocketClosed(s))
  {
    MoreCancelledKeepsClosed(s.handlers, WebSocketOpened(s).handlers);
    MoreCancelledKeepsClosed(s.handlers, WebSocketClosed(s).handlers);
  }

  lemma CancelEventKeeps(s: State)
    requires Inv(s) && s.requests.phase == Boundary
    ensures Inv(Cancel(s))
  {
    if s.requests.loading {
      CancelKeeps(s.requests);
      MoreCancelledKeepsClosed(s.handlers, CancelOn(s.handlers, s.handlers.pointer));
    }
  }

  lemma FireKeeps(s: State)
    requires Inv(s) && s.requests.phase == Boundary
    ensures Inv(Fire(s))
  {
    CheckKeeps(s.requests);
    RequestsKeep(s, Check(s.requests));
  }

  lemma SetProtocolKeeps(s: State, name: string, protoLoads: bool)
    requires Inv(s)
    ensures Inv(SetCurrentProtocol(s, name, protoLoads))
  {
    SwitchToKeeps(s, name);
  }

  lemma LoadProtoKeeps(s: State, protoLoads: bool)
    requires Inv(s)
    ensures Inv(LoadProto(s, protoLoads))
  {
    NeedGrpcKeeps(s.handlers);
    NeedGrpcKeepsClosed(s.handlers);
  }

  lemma SetPathKeeps(s: State, path: string, protoLoads: bool)
    requires Inv(s)
    ensures Inv(SetPath(s, path, protoLoads))
  {
    var s1 := s.(handlers := s.handlers.(protoPath := path));
    MoreCancelledKeepsClosed(s.handlers, s1.handlers);
    LoadProtoKeeps(s1, protoLoads);
  }

  lemma SetRoleKeeps(s: State, name: string)
    requires Inv(s)
    ensures Inv(SetCurrentRole(s, name))
  {
    MoreCancelledKeepsClosed(s.handlers, SetCurrentRole(s, name).handlers);
  }

  lemma ConnectKeeps(s: State, pattern: string, role: string, configured: bool)
    requires Inv(s)
    ensures Inv(Connect(s, pattern, role, configured))
  {
    MoreCancelledKeepsClosed(s.handlers, Connect(s, pattern, role, configured).handlers);
  }

  lemma DisconnectKeeps(s: State)
    requires Inv(s)
    ensures Inv(Disconnected(s))
  {
    MoreCancelledKeepsClosed(s.handlers, Disconnected(s).handlers);
  }

  lemma SendMessageKeeps(s: State)
    requires Inv(s) && s.requests.phase == Boundary
    ensures Inv(SendMessage(s))
  {
    MessageKeeps(s.requests);
  }

  lemma CallGrpcKeeps(s: State, endpointSet: bool, succeeds: bool)
    requires Inv(s)
    ensures Inv(CallGrpc(s, endpointSet, succeeds))
  {
    RequestsKeep(s, s.requests);
  }

  lemma ConnectionEventKeeps(s: State, e: Event)
    requires Inv(s)
    requires e.ConnectZmq? || e.WebSocketConnected? || e.WebSocketDisconnected? || e.Disconnect? ||
             e.WorkerFinishes? || e.AssignFuture? || e.DiscardFuture?
    ensures Inv(Handle(s, e))
  {
    match e {
      case ConnectZmq(pattern, role, configured) => ConnectKeeps(s, pattern, role, configured);
      case Disconnect => DisconnectKeeps(s);
      case _ =>
        if s.handlers.webSocket.Some? {
          WebSocketKeeps(s);
        }
    }
  }

  lemma HandleKeeps(s: State, e: Event)
    requires Inv(s) && s.requests.phase == Boundary
    ensures Inv(Handle(s, e))
  {
    match e {
      case ExecuteRequest(config, launched) => ExecuteKeeps(s, config, launched);
      case CancelRequest => CancelEventKeeps(s);
      case TimerFires => FireKeeps(s);
      case SetProtocol(name, protoLoads) => SetProtocolKeeps(s, name, protoLoads);
      case SetRole(name) => SetRoleKeeps(s, name);
      case LoadProtoFile(protoLoads) => LoadProtoKeeps(s, protoLoads);
      case SetProtoPath(path, protoLoads) => SetPathKeeps(s, path, protoLoads);
      case SendWebSocketMessage => SendMessageKeeps(s);
      case ExecuteGrpc(endpointSet, succeeds) => CallGrpcKeeps(s, endpointSet, succeeds);
      case _ => ConnectionEventKeeps(s, e);
    }
  }

  /** The end of a worker, and a slot that goes on after waiting for one. */
  lemma WorkerEventKeeps(s: State, e: Event)
    requires Inv(s) && (e.WorkerFinishes? || e.AssignFuture? || e.DiscardFuture?)
    ensures Inv(Apply(s, e))
  {
    match e {
      case WorkerFinishes(worker, outcome) => FinishKeeps(s.requests, worker, outcome);
      case AssignFuture => AssignKeeps(s.requests);
      case DiscardFuture => DiscardKeeps(s.requests);
    }
  }

  lemma ApplyKeeps(s: State, e: Event)
    requires Inv(s)
    ensures Inv(Apply(s, e))
  {
    if e.WorkerFinishes? || e.AssignFuture? || e.DiscardFuture? {
      WorkerEventKeeps(s, e);
    } else if s.requests.phase == Boundary {
      HandleKeeps(s, e);
    }
  }

  lemma {:induction false} InvAlways(events: seq<Event>)
    ensures Inv(Run(events))
  {
    if events == [] {
    } else {
      InvAlways(events[..|events| - 1]);
      ApplyKeeps(Run(events[..|events| - 1]), events[|events| - 1]);
    }
  }

  // ----- what came of the events, told without the steps

  lemma RunSnoc(events: seq<Event>, e: Event)
    ensures Run(events + [e]) == Apply(Run(events), e)
  {
    assert (events + [e])[..|events|] == events;
  }

  /** Event k ends the running worker of a request with that outcome. */
  predicate EndsWorker(events: seq<Event>, k: nat, id: nat, outcome: Outcome)
    requires k < |events|
  {
    events[k] == WorkerFinishes(ForRequest(id), outcome) && ForRequest(id) in Run(events[..k]).requests.running
  }

  /** The outcome is what the request's own worker produced. */
  ghost predicate Produced(events: seq<Event>, id: nat, outcome: Outcome) {
    exists k: nat | k < |events| :: EndsWorker(events, k, id, outcome)
  }

  lemma ProducedStays(front: seq<Event>, e: Event, id: nat, outcome: Outcome)
    requires Produced(front, id, outcome)
    ensures Produced(front + [e], id, outcome)
  {
    var k: nat :| k < |front| && EndsWorker(front, k, id, outcome);
    assert (front + [e])[..k] == front[..k];
    assert EndsWorker(front + [e], k, id, outcome);
  }

  lemma ProducedNow(front: seq<Event>, id: nat, outcome: Outcome)
    requires ForRequest(id) in Run(front).requests.running
    ensures Produced(front + [WorkerFinishes(ForRequest(id), outcome)], id, outcome)
  {
    var events := front + [WorkerFinishes(ForRequest(id), outcome)];
    assert events[..|front|] == front;
    assert EndsWorker(events, |front|, id, outcome);
  }

  lemma OutcomeStep(s: State, e: Event, id: nat)
    requires id in Apply(s, e).requests.outcomes
    ensures var outcome := Apply(s, e).requests.outcomes[id];
            || (id in s.requests.outcomes && s.requests.outcomes[id] == outcome)
            || (e == WorkerFinishes(ForRequest(id), outcome) && ForRequest(id) in s.requests.running)
  {
  }

  lemma {:induction false} OutcomesProduced(events: seq<Event>, id: nat)
    ensures id in Run(events).requests.outcomes ==> Produced(events, id, Run(events).requests.outcomes[id])
  {
    if events == [] {
      assert Run(events).requests.outcomes == map[];
    } else {
      var front, e := events[..|events| - 1], events[|events| - 1];
      assert events == front + [e];
      OutcomesProduced(front, id);
      if id in Run(events).requests.outcomes {
        var outcome := Run(events).requests.outcomes[id];
        OutcomeStep(Run(front), e, id);
        if id in Run(front).requests.outcomes && Run(front).requests.outcomes[id] == outcome {
          ProducedStays(front, e, id, outcome);
        } else {
          ProducedNow(front, id, outcome);
        }
      }
    }
  }

  /** A call of `executeRequest` that is taken: nothing is loading, the method is one of seven, the URL has
      a scheme, and the worker starts. */
  predicate Admits(s: State, e: Event) {
    && s.requests.phase == Boundary && e.ExecuteRequest? && e.launched && !s.requests.loading
    && ("http://" <= e.config.url || "https://" <= e.config.url)
    && (e.config.verb == "GET" || e.config.verb == "POST" || e.config.verb == "PUT" || e.config.verb == "DELETE" ||
        e.config.verb == "PATCH" || e.config.verb == "HEAD" || e.config.verb == "OPTIONS")
  }

  lemma ValidMeans(verb: string, url: string)
    ensures ValidRestRequest(verb, url) <==>
            && ("http://" <= url || "https://" <= url)
            && (verb == "GET" || verb == "POST" || verb == "PUT" || verb == "DELETE" || verb == "PATCH" ||
                verb == "HEAD" || verb == "OPTIONS")
  {
  }

  /** The configurations of the calls taken, in order. */
  function Admitted(events: seq<Event>): seq<RequestConfig> {
    if events == [] then []
    else
      var front, e := events[..|events| - 1], events[|events| - 1];
      Admitted(front) + (if Admits(Run(front), e) then [e.config] else [])
  }

  /** The configurations accepted, with the one just being put into the slot. */
  function TakenConfigs(q: Requests): seq<RequestConfig> {
    q.log.accepted + (if q.phase.Assigning? then [q.phase.config] else [])
  }

  lemma AdmitStep(s: State, e: Event)
    ensures TakenConfigs(Apply(s, e).requests) ==
            TakenConfigs(s.requests) + (if Admits(s, e) then [e.config] else [])
  {
    if e.ExecuteRequest? {
      ValidMeans(e.config.verb, e.config.url);
    }
    var none: seq<RequestConfig> := [];
    assert s.requests.log.accepted + none == s.requests.log.accepted;
    assert TakenConfigs(s.requests) + none == TakenConfigs(s.requests);
  }

  /** An event that reports an error. */
  predicate Reports(s: State, e: Event) {
    && s.requests.phase == Boundary
    && match e
       case ExecuteRequest(_, _) => !Admits(s, e)
       case TimerFires =>
         && s.requests.timers > 0 && s.requests.slot.Some? && s.requests.slot.value in s.requests.outcomes
         && s.requests.outcomes[s.requests.slot.value].Err?
       case SetProtocol(name, protoLoads) =>
         name == "gRPC" && s.handlers.protocol != name && s.handlers.protoPath != "" && !protoLoads
       case ConnectZmq(pattern, role, configured) =>
         Configurable(pattern, role) && !(Configures(s, pattern, role) && configured)
       case SendWebSocketMessage => !s.handlers.connected
       case LoadProtoFile(protoLoads) => !protoLoads
       case SetProtoPath(path, protoLoads) => path != s.handlers.protoPath && s.handlers.grpc.Some? && !protoLoads
       case ExecuteGrpc(endpointSet, succeeds) =>
         s.handlers.grpc.None? || !endpointSet || s.requests.loading || !succeeds
       case _ => false
  }

  lemma ReportStep(s: State, e: Event)
    ensures Apply(s, e).errors == s.errors + (if Reports(s, e) then 1 else 0)
  {
    if e.ExecuteRequest? {
      ValidMeans(e.config.verb, e.config.url);
    }
  }

  function Reported(events: seq<Event>): nat {
    if events == [] then 0
    else
      var front, e := events[..|events| - 1], events[|events| - 1];
      Reported(front) + (if Reports(Run(front), e) then 1 else 0)
  }

  /** The role chosen last, by name or by a connect that succeeds. */
  function ChosenRole(events: seq<Event>): string {
    if events == [] then "DEALER"
    else
      var front, e := events[..|events| - 1], events[|events| - 1];
      if Run(front).requests.phase != Boundary then ChosenRole(front)
      else
        match e
        case SetRole(name) => name
        case ConnectZmq(pattern, role, configured) =>
          if Configurable(pattern, role) && Configures(Run(front), pattern, role) && configured then role
          else ChosenRole(front)
        case _ => ChosenRole(front)
  }

  /** The protocol chosen last, or REST since a call of `executeRequest` that came past its checks. */
  function ChosenProtocol(events: seq<Event>): string {
    if events == [] then "REST"
    else
      var front, e := events[..|events| - 1], events[|events| - 1];
      if Run(front).requests.phase != Boundary then ChosenProtocol(front)
      else
        match e
        case SetProtocol(name, _) => name
        case ExecuteRequest(config, _) =>
          if Admits(Run(front), ExecuteRequest(config, true)) then "REST" else ChosenProtocol(front)
        case _ => ChosenProtocol(front)
  }

  /** The proto file chosen last. */
  function ChosenPath(events: seq<Event>): string {
    if events == [] then ""
    else
      var front, e := events[..|events| - 1], events[|events| - 1];
      if e.SetProtoPath? && Run(front).requests.phase == Boundary then e.path else ChosenPath(front)
  }

  /** Whether the event says that there is a connection, or none; None is an event that says neither. */
  function SaysConnected(s: State, e: Event): Option<bool> {
    if s.requests.phase != Boundary then None
    else
      match e
      case SetProtocol(name, _) => if name != s.handlers.protocol then Some(false) else None
      case ExecuteRequest(config, _) =>
        if s.handlers.protocol != "REST" && Admits(s, ExecuteRequest(config, true)) then Some(false) else None
      case ConnectZmq(pattern, role, configured) =>
        if Configurable(pattern, role) && Configures(s, pattern, role) && configured then Some(true) else None
      case WebSocketConnected => if s.handlers.protocol == "WebSocket" then Some(true) else None
      case WebSocketDisconnected => if s.handlers.protocol == "WebSocket" then Some(false) else None
      case Disconnect => Some(false)
      case _ => None
  }

  /** What the last event that says so has said; none at first. */
  function SaidLast(events: seq<Event>): bool {
    if events == [] then false
    else
      var front, e := events[..|events| - 1], events[|events| - 1];
      if SaysConnected(Run(front), e).Some? then SaysConnected(Run(front), e).value else SaidLast(front)
  }

  lemma SwitchDisconnects(h: Handlers, name: string)
    ensures Switch(h, name).connected == (name == h.protocol && h.connected)
  {
  }

  /** The flag behind the event is as the event says. */
  predicate ConnectedAs(s: State, e: Event) {
    Apply(s, e).handlers.connected ==
    if SaysConnected(s, e).Some? then SaysConnected(s, e).value else s.handlers.connected
  }

  lemma SwitchEventConnects(s: State, e: Event)
    requires e.SetProtocol? || e.ExecuteRequest?
    ensures ConnectedAs(s, e)
  {
    match e {
      case SetProtocol(name, _) => SwitchDisconnects(s.handlers, name);
      case ExecuteRequest(config, _) =>
        SwitchDisconnects(s.handlers, "REST");
        ValidMeans(config.verb, config.url);
    }
  }

  lemma LinkEventConnects(s: State, e: Event)
    requires s.handlers.webSocket.Some? <==> s.handlers.protocol == "WebSocket"
    requires e.ConnectZmq? || e.WebSocketConnected? || e.WebSocketDisconnected? || e.Disconnect?
    ensures ConnectedAs(s, e)
  {
  }

  lemma OtherEventConnects(s: State, e: Event)
    requires !e.SetProtocol? && !e.ExecuteRequest?
    requires !e.ConnectZmq? && !e.WebSocketConnected? && !e.WebSocketDisconnected? && !e.Disconnect?
    ensures ConnectedAs(s, e)
  {
  }

  lemma PathChosenStep(s: State, e: Event)
    ensures Apply(s, e).handlers.protoPath ==
            if e.SetProtoPath? && s.requests.phase == Boundary then e.path else s.handlers.protoPath
  {
  }

  lemma RoleChosenStep(s: State, e: Event)
    ensures Apply(s, e).handlers.role ==
            if s.requests.phase != Boundary then s.handlers.role
            else
              match e
              case SetRole(name) => name
              case ConnectZmq(pattern, role, configured) =>
                if Configurable(pattern, role) && Configures(s, pattern, role) && configured then role
                else s.handlers.role
              case _ => s.handlers.role
  {
  }

  lemma SwitchNames(h: Handlers, name: string)
    ensures Switch(h, name).protocol == name
  {
  }

  lemma ProtocolChosenStep(s: State, e: Event)
    ensures Apply(s, e).handlers.protocol ==
            if s.requests.phase != Boundary then s.handlers.protocol
            else
              match e
              case SetProtocol(name, _) => name
              case ExecuteRequest(config, _) =>
                if Admits(s, ExecuteRequest(config, true)) then "REST" else s.handlers.protocol
              case _ => s.handlers.protocol
  {
    match e {
      case SetProtocol(name, _) => SwitchNames(s.handlers, name);
      case ExecuteRequest(config, _) =>
        SwitchNames(s.handlers, "REST");
        ValidMeans(config.verb, config.url);
      case _ =>
    }
  }

  /** A timer that fires for the last time: there is nothing to wait for, or the request is ready. */
  predicate TimerEnds(s: State, e: Event) {
    && s.requests.phase == Boundary && e.TimerFires? && s.requests.timers > 0
    && (s.requests.slot.None? || s.requests.slot.value in s.requests.outcomes)
  }

  function EndedTimers(events: seq<Event>): nat {
    if events == [] then 0
    else
      var front, e := events[..|events| - 1], events[|events| - 1];
      EndedTimers(front) + (if TimerEnds(Run(front), e) then 1 else 0)
  }

  lemma TimerStep(s: State, e: Event)
    ensures |s.requests.log.accepted| <= |Apply(s, e).requests.log.accepted|
    ensures Apply(s, e).requests.timers + (if TimerEnds(s, e) then 1 else 0) ==
            s.requests.timers + |Apply(s, e).requests.log.accepted| - |s.requests.log.accepted|
  {
  }

  /** The handlers that an event makes. */
  function MadeBy(s: State, e: Event): seq<Kind> {
    if s.requests.phase != Boundary then []
    else
      match e
      case SetProtocol(name, _) =>
        if name == s.handlers.protocol then []
        else if name == "REST" then [Rest]
        else if name == "WebSocket" then [WebSocket]
        else if name == "ZeroMQ" then [ZeroMq]
        else if name == "gRPC" then [Grpc]
        else []
      case ExecuteRequest(config, _) =>
        if s.handlers.protocol != "REST" && Admits(s, ExecuteRequest(config, true)) then [Rest] else []
      case LoadProtoFile(_) => if s.handlers.grpc.None? then [Grpc] else []
      case _ => []
  }

  lemma SwitchMakes(h: Handlers, name: string)
    ensures Switch(h, name).made == h.made +
            if name == h.protocol then []
            else if name == "REST" then [Rest]
            else if name == "WebSocket" then [WebSocket]
            else if name == "ZeroMQ" then [ZeroMq]
            else if name == "gRPC" then [Grpc]
            else []
  {
  }

  lemma MadeStep(s: State, e: Event)
    ensures Apply(s, e).handlers.made == s.handlers.made + MadeBy(s, e)
  {
    match e {
      case SetProtocol(name, _) => SwitchMakes(s.handlers, name);
      case ExecuteRequest(config, _) =>
        SwitchMakes(s.handlers, "REST");
        ValidMeans(config.verb, config.url);
      case _ =>
    }
  }

  function Made(events: seq<Event>): seq<Kind> {
    if events == [] then [Rest]
    else
      var front, e := events[..|events| - 1], events[|events| - 1];
      Made(front) + MadeBy(Run(front), e)
  }

  /** Which events begin and end the loading. */
  lemma LoadingStep(s: State, e: Event)
    requires s.requests.phase == Boundary
    ensures Apply(s, e).requests.loading ==
            match e
            case ExecuteRequest(_, _) => s.requests.loading || Admits(s, e)
            case CancelRequest => s.requests.loading && s.handlers.pointer.None?
            case TimerFires =>
              s.requests.loading &&
              !(s.requests.timers > 0 &&
                (s.requests.slot.None? || s.requests.slot.value in s.requests.outcomes))
            case _ => s.requests.loading
  {
    if e.ExecuteRequest? {
      ValidMeans(e.config.verb, e.config.url);
    }
  }

  // ----- the main results

  /** Every accepted request has exactly one fate: its outcome was delivered, its slot was
      overwritten, or it is in the slot. Outcomes are delivered at most once, in the order the
      requests were accepted, and each is what its own worker produced. */
  lemma {:induction false} Conservation(events: seq<Event>, id: nat)
    requires id < |Run(events).requests.log.accepted|
    ensures var q := Run(events).requests;
            && Accounted(q, id)
            && Rising(q.log.delivered, |q.log.accepted|)
            && |q.log.accepted| == |q.log.delivered| + |q.log.superseded| + (if q.slot.Some? then 1 else 0)
            && |q.log.superseded| <= q.log.cancels
            && |q.log.results| == |q.log.delivered|
            && forall i | 0 <= i < |q.log.delivered| ::
                 && q.log.delivered[i] in q.outcomes && q.log.results[i] == q.outcomes[q.log.delivered[i]]
                 && Produced(events, q.log.delivered[i], q.log.results[i])
  {
    InvAlways(events);
    var q := Run(events).requests;
    forall i | 0 <= i < |q.log.delivered|
      ensures Produced(events, q.log.delivered[i], q.log.results[i])
    {
      OutcomesProduced(events, q.log.delivered[i]);
    }
  }

  /** With nothing superseded, the numbers delivered have no gap. */
  lemma {:induction false} DensePrefix(q: Requests, i: nat)
    requires FateOk(q) && CountsOk(q) && q.log.superseded == [] && i < |q.log.delivered|
    ensures q.log.delivered[i] <= i
    decreases |q.log.delivered| - i
  {
    if i + 1 < |q.log.delivered| {
      DensePrefix(q, i + 1);
      RisingAt(q.log.delivered, |q.log.accepted|, i, i + 1);
    } else {
      RisingAt(q.log.delivered, |q.log.accepted|, i, i);
      if q.slot.Some? {
        assert Accounted(q, q.slot.value);
        assert q.log.delivered[i] in q.log.delivered;
      }
    }
  }

  /** Without cancels nothing is superseded, so outcomes come back for all requests in order. */
  lemma {:induction false} WithoutCancels(events: seq<Event>, i: nat)
    requires Run(events).requests.log.cancels == 0 && i < |Run(events).requests.log.delivered|
    ensures var log := Run(events).requests.log;
            && log.delivered[i] == i && log.superseded == []
            && i < |log.results| && Produced(events, i, log.results[i])
  {
    InvAlways(events);
    var q := Run(events).requests;
    RisingAt(q.log.delivered, |q.log.accepted|, i, i);
    DensePrefix(q, i);
    OutcomesProduced(events, i);
  }

  /** At every event boundary: while loading there is a request to wait for; while there is one a timer
      is pending; and the stale timers are no more than the cancels. */
  lemma {:induction false} TimersPending(events: seq<Event>)
    ensures var q := Run(events).requests;
            && (q.phase == Boundary && q.loading ==> q.slot.Some?)
            && (q.slot.Some? ==> q.timers >= 1)
            && q.timers <= q.log.cancels + (if q.loading then 1 else 0)
  {
    InvAlways(events);
  }

  /** Once the worker of the request in the slot has finished, a timer is pending and the next one
      to fire, stale or not, delivers exactly its outcome and ends the loading. */
  lemma {:induction false} FinishedIsCollected(events: seq<Event>)
    requires var q := Run(events).requests;
             q.phase == Boundary && q.slot.Some? && ForRequest(q.slot.value) !in q.running
    ensures var q := Run(events).requests;
            var t := Run(events + [TimerFires]).requests;
            && q.timers >= 1 && q.slot.value in q.outcomes
            && t.log.delivered == q.log.delivered + [q.slot.value]
            && var outcome := q.outcomes[q.slot.value];
               && t.log.results == q.log.results + [outcome] && Produced(events, q.slot.value, outcome)
               && t.slot.None? && !t.loading
               && Run(events + [TimerFires]).errors == Run(events).errors + (if outcome.Err? then 1 else 0)
  {
    InvAlways(events);
    OutcomesProduced(events, Run(events).requests.slot.value);
    RunSnoc(events, TimerFires);
  }

  lemma SubsetSize<T>(a: set<T>, b: set<T>)
    requires a <= b
    ensures |a| <= |b|
  {
    assert b == a + (b - a);
  }

  lemma SumSize<T>(a: set<T>, b: set<T>)
    ensures |a + b| <= |a| + |b|
  {
    assert a + b == a + (b - a);
    SubsetSize(b - a, b);
  }

  /** In every state at most two workers are unfinished; at an event boundary at most one, that of
      the request in the slot; inside a slot besides it only the one the slot has just started. */
  lemma {:induction false} AtMostTwoWorkers(events: seq<Event>)
    ensures var q := Run(events).requests;
            && |q.running| <= 2
            && (q.phase == Boundary ==> q.running == {} || (q.slot.Some? && q.running == {ForRequest(q.slot.value)}))
            && q.running <= SlotWorker(q) + StartedWorker(q)
  {
    InvAlways(events);
    var q := Run(events).requests;
    SubsetSize(q.running, SlotWorker(q) + StartedWorker(q));
    SumSize(SlotWorker(q), StartedWorker(q));
    if q.slot.Some? && q.running != {} && q.phase == Boundary {
      assert q.running == {ForRequest(q.slot.value)};
    }
  }

  /** A valid call under REST, with nothing loading, starts one worker. */
  lemma CallFrom(s: State, config: RequestConfig)
    requires ValidRestRequest(config.verb, config.url)
    requires s.requests.phase == Boundary && !s.requests.loading && s.handlers.protocol == REST_NAME
    ensures var t := Apply(s, ExecuteRequest(config, true));
            t.requests == StartRequest(s.requests.(loading := true), config) && t.handlers == s.handlers
  {
  }

  /** Two do run at once: a request is cancelled before its worker has finished, and the next one
      is started. */
  lemma TwoWorkersRun(config: RequestConfig)
    requires ValidRestRequest(config.verb, config.url)
    ensures var execute := ExecuteRequest(config, true);
            Run([execute] + [AssignFuture] + [CancelRequest] + [execute]).requests.running
            == {ForRequest(0), ForRequest(1)}
  {
    var execute := ExecuteRequest(config, true);
    RunSnoc([], execute);
    RunSnoc([execute], AssignFuture);
    RunSnoc([execute] + [AssignFuture], CancelRequest);
    RunSnoc([execute] + [AssignFuture] + [CancelRequest], execute);
    assert [] + [execute] == [execute];
    CallFrom(Init(), config);
    CallFrom(Run([execute] + [AssignFuture] + [CancelRequest]), config);
  }

  /** The worker a slot waits for: `executeRequest` for that of the request it supersedes,
      `sendWebSocketMessage` for the one it has started. */
  function AwaitedWorker(q: Requests): Option<Worker> {
    match q.phase
    case Boundary => None
    case Assigning(_) => if q.slot.Some? then Some(ForRequest(q.slot.value)) else None
    case Discarding(message) => Some(ForMessage(message))
  }

  /** Nothing has changed but that workers have finished. */
  predicate OnlyWorkersMoved(s: State, t: State) {
    && t.requests.running <= s.requests.running
    && t == s.(requests := s.requests.(running := t.requests.running, outcomes := t.requests.outcomes))
  }

  /** The number of the worker is used up. */
  predicate Numbered(q: Requests, w: Worker) {
    match w
    case ForRequest(id) => id < |q.log.accepted|
    case ForMessage(message) => message < q.log.messages
  }

  lemma NumberedStep(s: State, w: Worker, e: Event)
    requires Numbered(s.requests, w)
    ensures Numbered(Apply(s, e).requests, w)
    ensures w in Apply(s, e).requests.running ==> w in s.requests.running
  {
  }

  lemma WaitStep(s: State, w: Worker, e: Event)
    requires AwaitedWorker(s.requests) == Some(w) && w in s.requests.running
    ensures OnlyWorkersMoved(s, Apply(s, e))
  {
  }

  /** While a slot waits for a worker, whatever events come, nothing but workers moves until that one
      has finished. */
  lemma {:induction false} SlotHoldsOn(events: seq<Event>, w: Worker, more: seq<Event>)
    requires AwaitedWorker(Run(events).requests) == Some(w)
    ensures Numbered(Run(events + more).requests, w)
    ensures w in Run(events + more).requests.running ==> OnlyWorkersMoved(Run(events), Run(events + more))
  {
    if more == [] {
      InvAlways(events);
      assert events + more == events;
    } else {
      var front, e := more[..|more| - 1], more[|more| - 1];
      assert events + more == (events + front) + [e];
      RunSnoc(events + front, e);
      SlotHoldsOn(events, w, front);
      NumberedStep(Run(events + front), w, e);
      if w in Run(events + front).requests.running {
        WaitStep(Run(events + front), w, e);
      }
    }
  }

  /** As soon as the superseded worker has finished, `executeRequest` goes on: the new request is in
      the slot, the old one is superseded, and only the new worker can still be running. */
  lemma {:induction false} LaunchWaitsForSuperseded(events: seq<Event>, ending: Outcome)
    requires Run(events).requests.phase.Assigning?
    ensures var q := Run(events).requests;
            var before := if q.slot.Some? then events + [WorkerFinishes(ForRequest(q.slot.value), ending)] else events;
            var t := Run(before + [AssignFuture]).requests;
            && t.phase == Boundary && t.slot == Some(|q.log.accepted|)
            && t.log.accepted == q.log.accepted + [q.phase.config]
            && t.log.superseded == q.log.superseded + (if q.slot.Some? then [q.slot.value] else [])
            && t.running == q.running - SlotWorker(q) && t.running <= {ForRequest(|q.log.accepted|)}
  {
    InvAlways(events);
    var q := Run(events).requests;
    if q.slot.Some? {
      var finishes := WorkerFinishes(ForRequest(q.slot.value), ending);
      RunSnoc(events, finishes);
      RunSnoc(events + [finishes], AssignFuture);
    } else {
      RunSnoc(events, AssignFuture);
    }
  }

  /** As soon as the worker of the message has finished, `sendWebSocketMessage` returns and leaves
      none behind. */
  lemma {:induction false} MessageWaitsForItsWorker(events: seq<Event>, ending: Outcome)
    requires Run(events).requests.phase.Discarding?
    ensures var q := Run(events).requests;
            var own := ForMessage(q.phase.message);
            var t := Run(events + [WorkerFinishes(own, ending)] + [DiscardFuture]).requests;
            && t.phase == Boundary && t.running == q.running - {own} && t.running <= SlotWorker(q)
            && t.slot == q.slot && t.loading == q.loading && t.timers == q.timers && t.log == q.log
  {
    InvAlways(events);
    var finishes := WorkerFinishes(ForMessage(Run(events).requests.phase.message), ending);
    RunSnoc(events, finishes);
    RunSnoc(events + [finishes], DiscardFuture);
  }

  /** m_handler always points at a handler that is owned, or at none under a protocol that has
      none; the handler of the current protocol exists; of REST, WebSocket and ZeroMQ at most one
      is owned; and a connection belongs to an owned WebSocket or ZeroMQ handler. */
  lemma {:induction false} Ownership(events: seq<Event>)
    ensures var h := Run(events).handlers;
            && (h.pointer.Some? ==> h.pointer in {h.rest, h.webSocket, h.zeroMq, h.grpc})
            && (h.rest.Some? <==> h.protocol == "REST") && (h.webSocket.Some? <==> h.protocol == "WebSocket")
            && (h.zeroMq.Some? <==> h.protocol == "ZeroMQ") && (h.protocol == "gRPC" ==> h.grpc.Some?)
            && (h.rest.Some? ==> h.rest.value.kind == Rest) && (h.grpc.Some? ==> h.grpc.value.kind == Grpc)
            && (h.webSocket.Some? ==> h.webSocket.value.kind == WebSocket)
            && (h.zeroMq.Some? ==> h.zeroMq.value.kind == ZeroMq)
            && (h.protocol in {"REST", "WebSocket", "ZeroMQ", "gRPC"} ==> h.pointer.Some?)
            && (KindOf(h.protocol).Some? ==> Current(h).Some?)
            && (h.connected ==> (h.webSocket.Some? <==> h.zeroMq.None?))
  {
    InvAlways(events);
  }

  /** Every connection that was opened and not closed since belongs to an owned WebSocket or ZeroMQ
      handler, so there is at most one, and m_isConnected is set: no handler is ever released with its
      connection open, reconnected ones included. */
  lemma {:induction false} NoConnectionLeaks(events: seq<Event>)
    ensures var h := Run(events).handlers;
            && (forall ref | ref in h.open :: h.webSocket == Some(ref) || h.zeroMq == Some(ref))
            && |h.open| <= 1
            && (h.open != {} ==> h.connected)
  {
    InvAlways(events);
    var h := Run(events).handlers;
    SubsetSize(h.open, Single(h.webSocket) + Single(h.zeroMq));
    assert Single(h.webSocket) == {} || Single(h.zeroMq) == {};
    assert Single(h.webSocket) + {} == Single(h.webSocket) && {} + Single(h.zeroMq) == Single(h.zeroMq);
  }

  /** Every WebSocket and every ZeroMQ handler ever made is owned or has been told to cancel. */
  lemma {:induction false} ReleasedWereCancelled(events: seq<Event>, id: nat)
    requires id < |Run(events).handlers.made|
    requires Run(events).handlers.made[id] == WebSocket || Run(events).handlers.made[id] == ZeroMq
    ensures var h := Run(events).handlers;
            var ref := HandlerRef(h.made[id], id);
            ref in h.cancelled || h.webSocket == Some(ref) || h.zeroMq == Some(ref)
  {
    InvAlways(events);
    assert ClosedOk(Run(events).handlers, id);
  }

  /** m_isConnected tells the truth about the connection. */
  predicate FlagTrue(h: Handlers) {
    h.connected <==> h.open != {}
  }

  /** The event closes the connection and leaves the flag set: a cancel while loading, if m_handler is
      the connected handler, and a connect that fails while connected. */
  predicate ClosesUnseen(s: State, e: Event) {
    && s.requests.phase == Boundary && s.handlers.connected
    && match e
       case CancelRequest =>
         && s.requests.loading && s.handlers.pointer.Some?
         && (s.handlers.pointer == s.handlers.webSocket || s.handlers.pointer == s.handlers.zeroMq)
       case ConnectZmq(pattern, role, configured) =>
         Configurable(pattern, role) && Configures(s, pattern, role) && !configured
       case _ => false
  }

  /** The one connection that can be open. */
  lemma OpenIsOne(h: Handlers)
    requires HandlersOk(h) && OpenOk(h) && h.open != {}
    ensures h.open == Single(h.webSocket) + Single(h.zeroMq)
    ensures h.webSocket.None? <==> h.zeroMq.Some?
  {
    var ref :| ref in h.open;
    assert h.webSocket == Some(ref) || h.zeroMq == Some(ref);
  }

  lemma SwitchKeepsFlag(h: Handlers, name: string)
    requires OpenOk(h) && FlagTrue(h)
    ensures FlagTrue(Switch(h, name))
  {
    assert h.protocol != name ==> Released(h).open == {};
  }

  /** A cancel and a connect. */
  lemma FlagAfterClose(s: State, e: Event)
    requires HandlersOk(s.handlers) && OpenOk(s.handlers) && FlagTrue(s.handlers)
    requires s.requests.phase == Boundary && (e.CancelRequest? || e.ConnectZmq?)
    ensures FlagTrue(Handle(s, e).handlers) <==> !ClosesUnseen(s, e)
  {
    if s.handlers.open != {} {
      OpenIsOne(s.handlers);
    }
  }

  lemma FlagAfterOther(s: State, e: Event)
    requires HandlersOk(s.handlers) && OpenOk(s.handlers) && FlagTrue(s.handlers)
    requires !e.CancelRequest? && !e.ConnectZmq?
    ensures FlagTrue(Handle(s, e).handlers)
  {
    match e {
      case ExecuteRequest(_, _) => SwitchKeepsFlag(s.handlers, REST_NAME);
      case SetProtocol(name, _) => SwitchKeepsFlag(s.handlers, name);
      case _ =>
    }
  }

  /** The flag stays true over an event exactly unless the event closes the connection unseen. */
  lemma FlagStep(s: State, e: Event)
    requires Inv(s) && FlagTrue(s.handlers)
    ensures FlagTrue(Apply(s, e).handlers) <==> !ClosesUnseen(s, e)
  {
    if s.requests.phase == Boundary {
      if e.CancelRequest? || e.ConnectZmq? {
        FlagAfterClose(s, e);
      } else {
        FlagAfterOther(s, e);
      }
    }
  }

  /** m_isConnected has told the truth in every state of the run. */
  predicate FlagTrueThroughout(events: seq<Event>) {
    FlagTrue(Run(events).handlers) && (events == [] || FlagTrueThroughout(events[..|events| - 1]))
  }

  predicate NoneClosesUnseen(events: seq<Event>) {
    events == [] ||
    (!ClosesUnseen(Run(events[..|events| - 1]), events[|events| - 1]) && NoneClosesUnseen(events[..|events| - 1]))
  }

  /** Over every sequence of events m_isConnected tells the truth throughout exactly if no event in it
      closes the connection unseen. */
  lemma {:induction false} FlagTrueThroughoutIff(events: seq<Event>)
    ensures FlagTrueThroughout(events) <==> NoneClosesUnseen(events)
  {
    if events == [] {
      assert FlagTrue(Run([]).handlers);
    } else {
      var front := events[..|events| - 1];
      FlagTrueThroughoutIff(front);
      InvAlways(front);
      if FlagTrueThroughout(front) {
        FlagStep(Run(front), events[|events| - 1]);
      }
    }
  }

  lemma ZeroMqMade()
    ensures var s := Apply(Init(), SetProtocol("ZeroMQ", true));
            && s.requests.phase == Boundary && s.handlers.zeroMq.Some? && s.handlers.open == {}
            && s.shown.role == DEFAULT_ROLE
  {
    assert KindOf("ZeroMQ") == Some(ZeroMq);
  }

  lemma ReqRepNames()
    ensures ConvertPattern("REQ-REP") == Ok(ReqRep)
    ensures ConvertRole("REPLIER") == Ok(Replier) && Configurable("REQ-REP", "REPLIER")
    ensures ConvertRole("REQUESTER") == Ok(Requester) && Configurable("REQ-REP", "REQUESTER")
  {
    assert AvailableRoles(ReqRep)[0] == Requester && AvailableRoles(ReqRep)[1] == Replier;
  }

  /** A failed reconnect does close it unseen. */
  lemma FlagNotTrue()
    ensures var h := Run([SetProtocol("ZeroMQ", true)] + [ConnectZmq("REQ-REP", "REQUESTER", true)] +
                         [ConnectZmq("REQ-REP", "REQUESTER", false)]).handlers;
            h.connected && h.open == {}
  {
    var switch := SetProtocol("ZeroMQ", true);
    var works, fails := ConnectZmq("REQ-REP", "REQUESTER", true), ConnectZmq("REQ-REP", "REQUESTER", false);
    RunSnoc([], switch);
    RunSnoc([switch], works);
    RunSnoc([switch] + [works], fails);
    assert [] + [switch] == [switch];
    ZeroMqMade();
    ReqRepNames();
  }

  /** When `executeRequest` reaches its launch, the REST handler it calls exists. */
  lemma {:induction false} RestHandlerExists(events: seq<Event>)
    ensures Switch(Run(events).handlers, REST_NAME).rest.Some?
  {
    InvAlways(events);
    RestAfterSwitch(Run(events).handlers);
  }

  /** Whenever loading, protocol or connection changes, the change is announced: what the user
      interface read last is what holds. */
  lemma {:induction false} DisplayIsCurrent(events: seq<Event>)
    ensures var s := Run(events);
            && s.shown.loading == s.requests.loading
            && s.shown.protocol == s.handlers.protocol
            && s.shown.connected == s.handlers.connected
  {
    InvAlways(events);
  }

  predicate RoleShown(s: State) {
    s.shown.role == s.handlers.role
  }

  /** A connect that succeeds under another role. */
  predicate Renames(s: State, e: Event) {
    && s.requests.phase == Boundary && e.ConnectZmq? && Configurable(e.pattern, e.role)
    && Configures(s, e.pattern, e.role) && e.configured && e.role != s.handlers.role
  }

  lemma OtherEventsShowRole(s: State, e: Event)
    requires RoleShown(s) && !e.ConnectZmq?
    ensures RoleShown(Handle(s, e))
  {
  }

  lemma RoleStep(s: State, e: Event)
    requires RoleShown(s)
    ensures RoleShown(Apply(s, e)) <==> !Renames(s, e)
  {
    if s.requests.phase == Boundary && !e.ConnectZmq? {
      OtherEventsShowRole(s, e);
    }
  }

  predicate RoleShownThroughout(events: seq<Event>) {
    RoleShown(Run(events)) && (events == [] || RoleShownThroughout(events[..|events| - 1]))
  }

  predicate NoneRenames(events: seq<Event>) {
    events == [] ||
    (!Renames(Run(events[..|events| - 1]), events[|events| - 1]) && NoneRenames(events[..|events| - 1]))
  }

  /** With the role it is otherwise: over every sequence of events the role that is shown is the current
      one throughout exactly if no connect in it succeeds under another role. */
  lemma {:induction false} RoleShownThroughoutIff(events: seq<Event>)
    ensures RoleShownThroughout(events) <==> NoneRenames(events)
  {
    if events == [] {
      assert RoleShown(Run([]));
    } else {
      var front := events[..|events| - 1];
      RoleShownThroughoutIff(front);
      if RoleShownThroughout(front) {
        RoleStep(Run(front), events[|events| - 1]);
      }
    }
  }

  /** Such a connect leaves the old role shown, and choosing the new one by name changes nothing. */
  lemma RoleNotShown()
    ensures var connected := [SetProtocol("ZeroMQ", true)] + [ConnectZmq("REQ-REP", "REPLIER", true)];
            && Run(connected).handlers.connected
            && Run(connected).handlers.role == "REPLIER" && Run(connected).shown.role == "DEALER"
            && Run(connected + [SetRole("REPLIER")]) == Run(connected)
  {
    var switch, connect := SetProtocol("ZeroMQ", true), ConnectZmq("REQ-REP", "REPLIER", true);
    RunSnoc([], switch);
    RunSnoc([switch], connect);
    RunSnoc([switch] + [connect], SetRole("REPLIER"));
    assert [] + [switch] == [switch];
    ZeroMqMade();
    ReqRepNames();
  }

  /** How often `executeRequest` was called, and how many of these calls reported an error. */
  function Calls(events: seq<Event>): nat {
    if events == [] then 0
    else
      var front, e := events[..|events| - 1], events[|events| - 1];
      Calls(front) + (if e.ExecuteRequest? && Run(front).requests.phase == Boundary then 1 else 0)
  }

  function Refusals(events: seq<Event>): nat {
    if events == [] then 0
    else
      var front, e := events[..|events| - 1], events[|events| - 1];
      Refusals(front) + (if e.ExecuteRequest? && Run(events).errors > Run(front).errors then 1 else 0)
  }

  lemma AcceptedStep(s: State, e: Event)
    ensures Taken(Apply(s, e).requests) ==
            Taken(s.requests) +
            (if e.ExecuteRequest? && s.requests.phase == Boundary && Apply(s, e).errors == s.errors then 1 else 0)
    ensures e.ExecuteRequest? ==>
              Apply(s, e).errors == s.errors || (s.requests.phase == Boundary && Apply(s, e).errors == s.errors + 1)
  {
  }

  /** Over every sequence of events the requests accepted, with the one just being put into the slot, are
      exactly those of the calls that may be taken, in order and with their own configurations. */
  lemma {:induction false} AcceptedInOrder(events: seq<Event>)
    ensures TakenConfigs(Run(events).requests) == Admitted(events)
  {
    if events == [] {
      assert TakenConfigs(Run(events).requests) == [];
    } else {
      AcceptedInOrder(events[..|events| - 1]);
      AdmitStep(Run(events[..|events| - 1]), events[|events| - 1]);
    }
  }

  /** Over every sequence of events an error is reported for exactly the events that call for one. */
  lemma {:induction false} ErrorsReported(events: seq<Event>)
    ensures Run(events).errors == Reported(events)
  {
    if events == [] {
      assert Run(events).errors == 0;
    } else {
      ErrorsReported(events[..|events| - 1]);
      ReportStep(Run(events[..|events| - 1]), events[|events| - 1]);
    }
  }

  /** Over every sequence of events each accepted request has set one timer, and the timers pending are
      those that have not fired for the last time. */
  lemma {:induction false} TimersAccounted(events: seq<Event>)
    ensures Run(events).requests.timers + EndedTimers(events) == |Run(events).requests.log.accepted|
  {
    if events == [] {
      assert Run(events).requests.timers == 0;
    } else {
      TimersAccounted(events[..|events| - 1]);
      TimerStep(Run(events[..|events| - 1]), events[|events| - 1]);
    }
  }

  /** Over every sequence of events the handlers made are the first one and one for each event that calls
      for one, in order. */
  lemma {:induction false} HandlersMade(events: seq<Event>)
    ensures Run(events).handlers.made == Made(events)
  {
    if events == [] {
      assert Run(events).handlers.made == [Rest];
    } else {
      HandlersMade(events[..|events| - 1]);
      MadeStep(Run(events[..|events| - 1]), events[|events| - 1]);
    }
  }

  /** A message under a connected WebSocket starts one worker of its own and waits for it. */
  lemma {:induction false} MessageStarts(events: seq<Event>)
    requires var s := Run(events);
             s.requests.phase == Boundary && s.handlers.connected && s.handlers.pointer == s.handlers.webSocket
    ensures var q := Run(events).requests;
            var t := Run(events + [SendWebSocketMessage]).requests;
            && t.phase == Discarding(q.log.messages) && t.log.messages == q.log.messages + 1
            && t.running == q.running + {ForMessage(q.log.messages)} && ForMessage(q.log.messages) !in q.running
            && t.slot == q.slot && t.loading == q.loading && t.timers == q.timers
  {
    InvAlways(events);
    RunSnoc(events, SendWebSocketMessage);
  }

  /** Over every sequence of events m_isConnected is what was last said of a connection. */
  lemma {:induction false} ConnectedAsSaid(events: seq<Event>)
    ensures Run(events).handlers.connected == SaidLast(events)
  {
    if events == [] {
      assert !Run(events).handlers.connected;
    } else {
      var s, e := Run(events[..|events| - 1]), events[|events| - 1];
      ConnectedAsSaid(events[..|events| - 1]);
      Ownership(events[..|events| - 1]);
      if e.SetProtocol? || e.ExecuteRequest? {
        SwitchEventConnects(s, e);
      } else if e.ConnectZmq? || e.WebSocketConnected? || e.WebSocketDisconnected? || e.Disconnect? {
        LinkEventConnects(s, e);
      } else {
        OtherEventConnects(s, e);
      }
    }
  }

  /** Over every sequence of events role, protocol and proto file are those chosen last. */
  lemma {:induction false} ChosenLast(events: seq<Event>)
    ensures Run(events).handlers.role == ChosenRole(events)
    ensures Run(events).handlers.protocol == ChosenProtocol(events)
    ensures Run(events).handlers.protoPath == ChosenPath(events)
  {
    if events == [] {
      assert Run(events).handlers.protocol == "REST" && Run(events).handlers.role == "DEALER";
      assert Run(events).handlers.protoPath == "";
    } else {
      ChosenLast(events[..|events| - 1]);
      RoleChosenStep(Run(events[..|events| - 1]), events[|events| - 1]);
      ProtocolChosenStep(Run(events[..|events| - 1]), events[|events| - 1]);
      PathChosenStep(Run(events[..|events| - 1]), events[|events| - 1]);
    }
  }

  /** The names of the patterns with the roles they have. */
  predicate KnownNames(pattern: string, role: string) {
    || (pattern == "REQ-REP" && (role == "REQUESTER" || role == "REPLIER"))
    || (pattern == "PUB-SUB" && (role == "PUBLISHER" || role == "SUBSCRIBER"))
    || (pattern == "PUSH-PULL" && (role == "PUSHER" || role == "PULLER"))
    || (pattern == "DEALER-ROUTER" && (role == "DEALER" || role == "ROUTER"))
  }

  /** The pattern and the role that a pair of known names stands for. */
  lemma NamesConvert(pattern: string, role: string)
    requires KnownNames(pattern, role)
    ensures ConvertPattern(pattern) == Ok(if pattern == "REQ-REP" then ReqRep else if pattern == "PUB-SUB" then PubSub
                                          else if pattern == "PUSH-PULL" then PushPull else DealerRouter)
    ensures ConvertRole(role) == Ok(if role == "REQUESTER" then Requester else if role == "REPLIER" then Replier
                                    else if role == "PUBLISHER" then Publisher
                                    else if role == "SUBSCRIBER" then Subscriber
                                    else if role == "PUSHER" then Pusher else if role == "PULLER" then Puller
                                    else if role == "DEALER" then Dealer else Router)
  {
  }

  lemma KnownAreConfigurable(pattern: string, role: string)
    requires KnownNames(pattern, role)
    ensures Configurable(pattern, role)
  {
    NamesConvert(pattern, role);
    var roles := AvailableRoles(ConvertPattern(pattern).value);
    assert roles[0] == ConvertRole(role).value || roles[1] == ConvertRole(role).value;
  }

  /** Under ZeroMQ every role of each pattern connects if its `configure` works. */
  lemma {:induction false} EveryRoleConnects(events: seq<Event>, pattern: string, role: string)
    requires KnownNames(pattern, role)
    requires Run(events).requests.phase == Boundary && Run(events).handlers.protocol == "ZeroMQ"
    ensures var t := Run(events + [ConnectZmq(pattern, role, true)]);
            t.handlers.connected && t.handlers.role == role && t.handlers.open == Single(t.handlers.zeroMq) &&
            t.errors == Run(events).errors
  {
    Ownership(events);
    InvAlways(events);
    RunSnoc(events, ConnectZmq(pattern, role, true));
    NamesConvert(pattern, role);
    KnownAreConfigurable(pattern, role);
  }

  predicate KnownPattern(pattern: string) {
    pattern == "REQ-REP" || pattern == "PUB-SUB" || pattern == "PUSH-PULL" || pattern == "DEALER-ROUTER"
  }

  predicate KnownRole(role: string) {
    || role == "REQUESTER" || role == "REPLIER" || role == "PUBLISHER" || role == "SUBSCRIBER"
    || role == "PUSHER" || role == "PULLER" || role == "DEALER" || role == "ROUTER"
  }

  lemma OtherNamesFail(pattern: string, role: string)
    ensures ConvertPattern(pattern).Ok? <==> KnownPattern(pattern)
    ensures ConvertRole(role).Ok? <==> KnownRole(role)
  {
  }

  /** A connect with an unknown name, or under another protocol, reports an error and changes nothing. */
  lemma {:induction false} OtherConnectsFail(events: seq<Event>, pattern: string, role: string, configured: bool)
    requires Run(events).requests.phase == Boundary && Configurable(pattern, role)
    requires !KnownPattern(pattern) || !KnownRole(role) || Run(events).handlers.protocol != "ZeroMQ"
    ensures Run(events + [ConnectZmq(pattern, role, configured)]) == Fail(Run(events))
  {
    Ownership(events);
    OtherNamesFail(pattern, role);
    RunSnoc(events, ConnectZmq(pattern, role, configured));
  }

  /** Over every sequence of events: each call of `executeRequest` was accepted, is just being put into
      the slot, or has reported an error; and nothing else was accepted. */
  lemma {:induction false} CallsAccounted(events: seq<Event>)
    ensures Calls(events) == Taken(Run(events).requests) + Refusals(events)
  {
    if events == [] {
    } else {
      var front, e := events[..|events| - 1], events[|events| - 1];
      CallsAccounted(front);
      AcceptedStep(Run(front), e);
    }
  }
}
