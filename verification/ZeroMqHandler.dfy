/** `ZeroMQHandler` (src/core/zeromq_handler.cpp) and the libzmq socket it owns, as classes. */
module ZeroMqHandler {
  import opened Outcomes
  import opened ZmqProtocol
  import opened Endpoints

  /** An empty optional from libzmq is a time-out; `Refused` is a thrown `zmq::error_t`. */
  datatype SendResult = Sent | SendTimedOut | SendRefused

  datatype RecvResult = Got(frame: Frame) | RecvTimedOut | RecvRefused

  /** Which of send and recv a socket accepts. REQ and REP sockets alternate (sections "The REQ
      Socket Type" and "The REP Socket Type" of ZeroMQ RFC 28). */
  datatype Turn = SendOnly | RecvOnly | Both

  predicate Lockstep(role: Role) {
    role == Requester || role == Replier
  }

  function FirstTurn(role: Role): Turn {
    match role
    case Requester => SendOnly
    case Publisher => SendOnly
    case Pusher => SendOnly
    case Replier => RecvOnly
    case Subscriber => RecvOnly
    case Puller => RecvOnly
    case _ => Both
  }

  /** A libzmq socket: whole messages wait in `inbox`, `rest` is the unread part of the message
      being read, `staged` the frames sent with `sndmore`. */
  class ZmqSocket {
    const role: Role
    const address: string
    var turn: Turn
    var inbox: seq<Message>
    var rest: seq<Frame>
    var staged: seq<Frame>
    var outbox: seq<Message>

    constructor (role: Role, address: string)
      ensures this.role == role && this.address == address && turn == FirstTurn(role)
      ensures inbox == [] && rest == [] && staged == [] && outbox == []
    {
      this.role, this.address, turn := role, address, FirstTurn(role);
      inbox, rest, staged, outbox := [], [], [], [];
    }

    ghost predicate Valid()
      reads this
    {
      && (forall i | 0 <= i < |inbox| :: inbox[i] != [])
      && (if Lockstep(role) then turn != Both else turn == FirstTurn(role))
    }

    /** Between two calls of the handler no message is half read, only a ROUTER may have left a message
        half sent, and only it sees more than the one body frame. */
    ghost predicate AtRest()
      reads this
    {
      && Valid() && rest == []
      && (role != Router ==> staged == [])
      && (role != Router ==> forall i | 0 <= i < |inbox| :: |inbox[i]| == 1)
    }

    /** `ready` says whether the send finds room before it times out. */
    method Send(frame: Frame, more: bool, ready: bool) returns (r: SendResult)
      requires Valid()
      modifies this`turn, this`staged, this`outbox
      ensures Valid()
      ensures r == if old(turn) == RecvOnly then SendRefused else if ready then Sent else SendTimedOut
      ensures r != Sent ==> unchanged(this)
      ensures r == Sent && more ==> staged == old(staged) + [frame] && outbox == old(outbox) && turn == old(turn)
      ensures r == Sent && !more ==>
                && staged == [] && outbox == old(outbox) + [old(staged) + [frame]]
                && turn == if Lockstep(role) then RecvOnly else old(turn)
    {
      if turn == RecvOnly {
        return SendRefused;
      }
      if !ready {
        return SendTimedOut;
      }
      if more {
        staged := staged + [frame];
      } else {
        outbox, staged := outbox + [staged + [frame]], [];
        turn := if Lockstep(role) then RecvOnly else turn;
      }
      return Sent;
    }

    method Recv() returns (r: RecvResult)
      requires Valid()
      modifies this`turn, this`inbox, this`rest
      ensures Valid()
      ensures old(turn) == SendOnly ==> r == RecvRefused
      ensures old(turn) != SendOnly && old(rest) == [] && old(inbox) == [] ==> r == RecvTimedOut
      ensures !r.Got? ==> unchanged(this)
      ensures old(turn) != SendOnly && old(rest) != [] ==>
                r == Got(old(rest)[0]) && rest == old(rest)[1..] && inbox == old(inbox)
      ensures old(turn) != SendOnly && old(rest) == [] && old(inbox) != [] ==>
                r == Got(old(inbox)[0][0]) && rest == old(inbox)[0][1..] && inbox == old(inbox)[1..]
      ensures r.Got? ==> turn == if Lockstep(role) && rest == [] then SendOnly else old(turn)
    {
      if turn == SendOnly {
        return RecvRefused;
      }
      if rest != [] {
        r, rest := Got(rest[0]), rest[1..];
      } else if inbox != [] {
        var m := inbox[0];
        r, rest, inbox := Got(m[0]), m[1..], inbox[1..];
      } else {
        return RecvTimedOut;
      }
      if Lockstep(role) && rest == [] {
        turn := SendOnly;
      }
    }
  }

  /** The background thread; `join` waits until it has finished. */
  class PollThread {
    var finished: bool

    constructor ()
      ensures !finished
    {
      finished := false;
    }
  }

  datatype ConnectionStatus = Disconnected | Connected

  /** What the environment does during one `execute`: whether the send of a ROUTER's identity frame and
      that of the body find room, and what waits on the socket when the blocking receive looks, after
      arrivals and the poll thread. */
  datatype Environment = Environment(identityReady: bool, bodyReady: bool, inboxAtRecv: seq<Message>)

  /** A socket taken from the address it was bound or connected to: `unbind` or `disconnect`, and the
      address given. */
  datatype Detachment = Detachment(unbinds: bool, address: string)

  /** The address that a socket of the role is bound or connected to. */
  function AttachedTo(role: Role, endpoint: string): string {
    if Binds(role) then BindAddress(endpoint) else endpoint
  }

  /** A ROUTER is bound to the rewritten address, a DEALER connected to the given one. */
  lemma RouterBinds()
    ensures AttachedTo(Router, "tcp://localhost:5555") == "tcp://*:5555"
    ensures AttachedTo(Dealer, "tcp://localhost:5555") == "tcp://localhost:5555"
  {
    LocalhostIsRewritten();
  }

  /** The messages sent, the first one behind the frames that are already staged. */
  function Behind(staged: seq<Frame>, messages: seq<Message>): seq<Message> {
    if messages == [] then [] else [staged + messages[0]] + messages[1..]
  }

  lemma NothingStaged(messages: seq<Message>)
    ensures Behind([], messages) == messages
  {
    if messages != [] {
      assert [] + messages[0] == messages[0];
    }
  }

  class ZeroMQHandler {
    var socket: ZmqSocket?
    var pattern: Pattern
    var role: Role
    var endpoint: string
    var status: ConnectionStatus
    var running: bool
    var pollThread: PollThread?
    var identity: string
    var emitted: seq<string>  // messageReceived signals
    var errorSignals: nat     // errorOccurred signals of the poll thread
    var detached: seq<Detachment>

    constructor ()
      ensures socket == null && pollThread == null && !running && status == Disconnected
      ensures pattern == ReqRep && role == Requester && endpoint == "" && identity == "" && emitted == []
      ensures errorSignals == 0 && detached == []
    {
      socket, pollThread, running, status := null, null, false, Disconnected;
      pattern, role, endpoint, identity, emitted := ReqRep, Requester, "", "", [];
      errorSignals, detached := 0, [];
    }

    /** A socket was created for the current role and endpoint and is between two calls; the thread
        object is there exactly while the thread may run. */
    ghost predicate Valid()
      reads this, socket
    {
      && (socket != null ==> socket.role == role && socket.address == AttachedTo(role, endpoint) && socket.AtRest())
      && (running ==> pollThread != null && socket != null)
      && (pollThread != null ==> running)
      && role in AvailableRoles(pattern)
    }

    method StopPolling()
      modifies this`running, this`pollThread, pollThread
      ensures !running && pollThread == null
      ensures old(pollThread) != null ==> old(pollThread).finished
    {
      running := false;
      if pollThread != null {
        pollThread.finished := true;  // join
      }
      pollThread := null;
    }

    /** Unbinds or disconnects the configured endpoint. That is the address the socket has exactly if
        the role connects or there was no host to rewrite. */
    method Close()
      requires Valid()
      modifies this`running, this`pollThread, this`socket, this`detached, pollThread
      ensures Valid() && !running && pollThread == null && socket == null
      ensures old(pollThread) != null ==> old(pollThread).finished
      ensures old(socket) == null ==> detached == old(detached)
      ensures old(socket) != null && (role == Publisher || role == Puller || role == Replier || role == Router) ==>
                && detached == old(detached) + [Detachment(true, endpoint)]
                && (endpoint == old(socket).address <==>
                      || HostOf(endpoint).None?
                      || endpoint[HostOf(endpoint).value.start..HostOf(endpoint).value.end] == "*")
      ensures old(socket) != null && (role == Requester || role == Subscriber || role == Pusher || role == Dealer) ==>
                && detached == old(detached) + [Detachment(false, endpoint)]
                && endpoint == old(socket).address
    {
      StopPolling();
      if socket != null {
        SameAddressIff(endpoint);
        detached := detached + [Detachment(Binds(role), endpoint)];
        socket := null;
      }
    }

    method StartPolling()
      modifies this`running, this`pollThread, pollThread
      ensures old(pollThread) != null ==> old(pollThread).finished
      ensures running == (socket != null)
      ensures socket == null ==> pollThread == null
      ensures socket != null ==> pollThread != null && fresh(pollThread) && !pollThread.finished
    {
      StopPolling();
      if socket == null {
        return;
      }
      running := true;
      pollThread := new PollThread();
    }

    /** A fresh socket that does not run yet. */
    ghost predicate Fresh(role: Role, endpoint: string)
      reads this, socket
    {
      && socket != null && socket.role == role
      && socket.inbox == [] && socket.outbox == [] && socket.staged == []
      && (role == Publisher || role == Puller || role == Replier || role == Router ==>
            socket.address == BindAddress(endpoint))
      && (role == Requester || role == Subscriber || role == Pusher || role == Dealer ==>
            socket.address == endpoint)
      && (role == Requester || role == Publisher || role == Pusher ==> socket.turn == SendOnly)
      && (role == Replier || role == Subscriber || role == Puller ==> socket.turn == RecvOnly)
      && (role == Dealer || role == Router ==> socket.turn == Both)
    }

    /** Writes the settings and creates the socket for them. */
    method CreateSocket(pattern: Pattern, role: Role, endpoint: string, dealerId: string)
      requires !running && pollThread == null && role in AvailableRoles(pattern)
      modifies this`socket, this`pattern, this`role, this`endpoint, this`status, this`identity
      ensures status == Disconnected && this.pattern == pattern && this.role == role && this.endpoint == endpoint
      ensures identity == if role == Dealer then dealerId else if role == Router then "Client" else old(identity)
      ensures Fresh(role, endpoint) && fresh(socket) && socket.AtRest() && socket.address == AttachedTo(role, endpoint)
    {
      status := Disconnected;
      this.pattern := pattern;
      this.role := role;
      this.endpoint := endpoint;
      if role == Dealer {
        identity := dealerId;
      } else if role == Router {
        identity := ROUTER_DEFAULT_IDENTITY;
      }
      var address := endpoint;
      if Binds(role) {
        address := BindAddress(endpoint);
      }
      socket := new ZmqSocket(role, address);
    }

    /** Closes the old socket and creates the one for the new settings. */
    method Reopen(pattern: Pattern, role: Role, endpoint: string, dealerId: string)
      requires Valid() && role in AvailableRoles(pattern)
      modifies this`socket, this`pattern, this`role, this`endpoint, this`status, this`running,
               this`pollThread, this`identity, this`detached, pollThread
      ensures Valid() && Fresh(role, endpoint) && fresh(socket)
      ensures old(pollThread) != null ==> old(pollThread).finished
      ensures !running && pollThread == null && status == Disconnected
      ensures this.pattern == pattern && this.role == role && this.endpoint == endpoint
      ensures identity == if role == Dealer then dealerId else if role == Router then "Client" else old(identity)
      ensures detached == old(detached) +
                (if old(socket) == null then []
                 else [Detachment(old(this.role) == Publisher || old(this.role) == Puller ||
                                  old(this.role) == Replier || old(this.role) == Router, old(this.endpoint))])
    {
      Close();
      CreateSocket(pattern, role, endpoint, dealerId);
    }

    /** `dealerId` stands for the random identity, `bound` for the outcome of bind or connect.
        A bind failure leaves the socket behind, with no thread and status Disconnected. */
    method Configure(pattern: Pattern, role: Role, endpoint: string, dealerId: string, bound: bool)
      returns (r: Result<()>)
      requires Valid() && role in AvailableRoles(pattern)
      modifies this`socket, this`pattern, this`role, this`endpoint, this`status, this`running,
               this`pollThread, this`identity, this`detached, pollThread
      ensures Valid() && Fresh(role, endpoint) && fresh(socket)
      ensures old(pollThread) != null ==> old(pollThread).finished
      ensures this.pattern == pattern && this.role == role && this.endpoint == endpoint
      ensures identity == if role == Dealer then dealerId else if role == Router then "Client" else old(identity)
      ensures detached == old(detached) +
                (if old(socket) == null then []
                 else [Detachment(old(this.role) == Publisher || old(this.role) == Puller ||
                                  old(this.role) == Replier || old(this.role) == Router, old(this.endpoint))])
      ensures r == if bound then Ok(()) else Err(ZmqError)
      ensures bound ==> running && fresh(pollThread) && !pollThread.finished && status == Connected
      ensures !bound ==> !running && pollThread == null && status == Disconnected
    {
      Reopen(pattern, role, endpoint, dealerId);
      if !bound {
        return Err(ZmqError);
      }
      StartPolling();
      status := Connected;
      return Ok(());
    }

    /** The frame-collecting loop: all frames of the oldest message, or none. */
    method CollectFrames() returns (messages: seq<Frame>)
      requires Valid() && pattern == DealerRouter && socket != null
      modifies socket
      ensures Valid() && socket.turn == old(socket.turn) && socket.outbox == old(socket.outbox)
      ensures socket.staged == old(socket.staged)
      ensures old(socket.inbox) == [] ==> messages == [] && unchanged(socket)
      ensures old(socket.inbox) != [] ==>
                messages == old(socket.inbox)[0] && socket.inbox == old(socket.inbox)[1..]
    {
      messages := [];
      var more := true;
      while more
        invariant socket.Valid() && socket.staged == old(socket.staged) && socket.outbox == old(socket.outbox)
        invariant socket.turn == Both
        invariant messages == [] ==> more && unchanged(socket)
        invariant messages != [] ==>
                    && old(socket.inbox) != [] && socket.inbox == old(socket.inbox)[1..]
                    && messages + socket.rest == old(socket.inbox)[0]
                    && more == (socket.rest != [])
        decreases more, messages == [], |socket.rest|
      {
        var received := socket.Recv();
        if received.Got? {
          messages := messages + [received.frame];
          more := socket.rest != [];
        } else {
          break;
        }
      }
    }

    /** Reads one message, then reacts to it: the ROUTER remembers the sender and answers it, the
        DEALER reports the text. */
    method HandleDealerRouterMessage()
      requires Valid() && pattern == DealerRouter && socket != null
      modifies this`identity, this`emitted, socket
      ensures Valid() && socket.turn == old(socket.turn)
      ensures old(socket.inbox) == [] ==> unchanged(this) && unchanged(socket)
      ensures old(socket.inbox) != [] ==>
                var reaction := OnMessage(role, old(identity), old(socket.inbox)[0]);
                && socket.inbox == old(socket.inbox)[1..]
                && identity == reaction.identity
                && emitted == old(emitted) + reaction.emitted
                && socket.outbox == old(socket.outbox) + Behind(old(socket.staged), reaction.sent)
                && socket.staged == if reaction.sent == [] then old(socket.staged) else []
      ensures role == Dealer && old(socket.inbox) != [] ==>
                && emitted == old(emitted) + [old(socket.inbox)[0][0]]
                && identity == old(identity) && socket.outbox == old(socket.outbox)
      ensures role == Router && old(socket.inbox) != [] && |old(socket.inbox)[0]| >= 2 ==>
                var sender, body := old(socket.inbox)[0][0], old(socket.inbox)[0][1];
                && identity == sender && emitted == old(emitted) + [body]
                && socket.outbox == old(socket.outbox) +
                   (if sender == "" then [] else [old(socket.staged) + [sender, "Response to: " + body]])
      ensures role == Router && old(socket.inbox) != [] && |old(socket.inbox)[0]| < 2 ==>
                identity == old(identity) && emitted == old(emitted) && socket.outbox == old(socket.outbox)
    {
      var messages := CollectFrames();
      if messages == [] {
        return;
      }
      if role == Router {
        if |messages| >= 2 {
          identity := messages[0];
          emitted := emitted + [messages[1]];
          if identity != "" {
            var _ := socket.Send(identity, true, true);
            assert socket.staged + [ResponseTo(messages[1])] ==
                   old(socket.staged) + [messages[0], ResponseTo(messages[1])];
            var _ := socket.Send(ResponseTo(messages[1]), false, true);
          }
        }
      } else if role == Dealer {
        emitted := emitted + [messages[0]];
      }
    }

    /** Returns whether a `zmq::error_t` was thrown. A REPLIER answers the request it has read; in
        the REQUESTER role nothing is consumed. */
    method HandleReqRepMessage() returns (error: bool)
      requires Valid() && pattern == ReqRep && socket != null
      modifies this`emitted, socket
      ensures Valid() && socket.turn == old(socket.turn)
      ensures error <==> role == Replier && old(socket.turn) == SendOnly
      ensures error || old(socket.inbox) == [] ==> unchanged(this) && unchanged(socket)
      ensures !error && old(socket.inbox) != [] ==>
                var reaction := OnMessage(role, identity, old(socket.inbox)[0]);
                && socket.inbox == (if reaction.consumed then old(socket.inbox)[1..] else old(socket.inbox))
                && emitted == old(emitted) + reaction.emitted
                && socket.outbox == old(socket.outbox) + reaction.sent
      ensures role == Replier && !error && old(socket.inbox) != [] ==>
                var request := old(socket.inbox)[0][0];
                && socket.inbox == old(socket.inbox)[1..] && emitted == old(emitted) + [request]
                && socket.outbox == old(socket.outbox) + [["Reply to: " + request]]
      ensures role == Requester ==> unchanged(this) && unchanged(socket)
    {
      error := false;
      if role == Replier {
        var received := socket.Recv();
        if received.RecvRefused? {
          return true;
        }
        if received.Got? {
          emitted := emitted + [received.frame];
          assert socket.staged + [ReplyTo(received.frame)] == [ReplyTo(received.frame)];
          var _ := socket.Send(ReplyTo(received.frame), false, true);
        }
      }
    }

    /** The SUBSCRIBER and PULLER handlers report the text they receive and answer nothing. */
    method HandleOneWayMessage()
      requires Valid() && (pattern == PubSub || pattern == PushPull) && socket != null
      modifies this`emitted, socket
      ensures Valid() && socket.turn == old(socket.turn) && socket.outbox == old(socket.outbox)
      ensures old(socket.inbox) == [] ==> unchanged(this) && unchanged(socket)
      ensures old(socket.inbox) != [] ==>
                var reaction := OnMessage(role, identity, old(socket.inbox)[0]);
                && socket.inbox == (if reaction.consumed then old(socket.inbox)[1..] else old(socket.inbox))
                && emitted == old(emitted) + reaction.emitted
      ensures (role == Subscriber || role == Puller) && old(socket.inbox) != [] ==>
                socket.inbox == old(socket.inbox)[1..] && emitted == old(emitted) + [old(socket.inbox)[0][0]]
      ensures role == Publisher || role == Pusher ==> unchanged(this) && unchanged(socket)
    {
      if role == Subscriber || role == Puller {
        var received := socket.Recv();
        if received.Got? {
          emitted := emitted + [received.frame];
        }
      }
    }

    /** One body of the poll loop: whether the loop is left, and otherwise the reaction to the
        message that waits, if one does; a receive that is refused is reported. */
    method PollBody() returns (exit: bool)
      requires Valid()
      modifies this`identity, this`emitted, this`errorSignals, socket
      ensures Valid() && exit == (socket == null)
      ensures errorSignals == old(errorSignals) +
                (if socket != null && old(socket.inbox) != [] && role == Replier && old(socket.turn) == SendOnly
                 then 1 else 0)
      ensures socket == null || old(socket.inbox) == [] || (role == Replier && old(socket.turn) == SendOnly) ==>
                identity == old(identity) && emitted == old(emitted) && (socket != null ==> unchanged(socket))
      ensures socket != null && old(socket.inbox) != [] && (role == Replier ==> old(socket.turn) != SendOnly) ==>
                var reaction := OnMessage(role, old(identity), old(socket.inbox)[0]);
                && socket.inbox == (if reaction.consumed then old(socket.inbox)[1..] else old(socket.inbox))
                && identity == reaction.identity
                && emitted == old(emitted) + reaction.emitted
                && socket.outbox == old(socket.outbox) + Behind(old(socket.staged), reaction.sent)
      ensures socket != null && old(socket.inbox) != [] &&
              (role == Dealer || role == Subscriber || role == Puller ||
               (role == Replier && old(socket.turn) != SendOnly)) ==>
                socket.inbox == old(socket.inbox)[1..] && emitted == old(emitted) + [old(socket.inbox)[0][0]]
      ensures socket != null && (role == Requester || role == Publisher || role == Pusher) ==>
                unchanged(this) && unchanged(socket)
    {
      if socket == null {
        return true;
      }
      if socket.inbox != [] {
        NothingStaged(OnMessage(role, identity, socket.inbox[0]).sent);
        match pattern {
          case ReqRep =>
            var error := HandleReqRepMessage();
            if error {
              errorSignals := errorSignals + 1;
            }
          case PubSub =>
            HandleOneWayMessage();
          case PushPull =>
            HandleOneWayMessage();
          case DealerRouter =>
            HandleDealerRouterMessage();
        }
      }
      return false;
    }

    /** A ROUTER's identity frame, which opens its message. */
    method SendIdentity(ready: bool) returns (sent: bool)
      requires Valid() && socket != null && role == Router
      modifies this`identity, socket
      ensures Valid() && sent == ready && identity == if old(identity) == "" then "Game" else old(identity)
      ensures socket.outbox == old(socket.outbox) && socket.inbox == old(socket.inbox)
      ensures socket.turn == old(socket.turn)
      ensures socket.staged == if sent then old(socket.staged) + [identity] else old(socket.staged)
    {
      if identity == "" {
        identity := ROUTER_FALLBACK_IDENTITY;
      }
      var first := socket.Send(identity, true, ready);
      return first == Sent;
    }

    /** Sends the body, for a ROUTER behind the identity it answers. A ROUTER whose identity frame goes
        out and whose body does not leaves that frame staged. */
    method SendBody(body: string, env: Environment) returns (sent: bool)
      requires Valid() && socket != null
      modifies this`identity, socket
      ensures Valid() && socket.inbox == old(socket.inbox)
      ensures sent <==> old(socket.turn) != RecvOnly && env.bodyReady && (role == Router ==> env.identityReady)
      ensures identity == if role == Router && old(identity) == "" then "Game" else old(identity)
      ensures !sent ==>
                && socket.outbox == old(socket.outbox) && socket.turn == old(socket.turn)
                && socket.staged == if role == Router && env.identityReady then old(socket.staged) + [identity]
                                    else old(socket.staged)
      ensures sent ==>
                && socket.outbox == old(socket.outbox) +
                   [old(socket.staged) + (if role == Router then [identity, body] else [body])]
                && socket.staged == []
                && socket.turn == if Lockstep(role) then RecvOnly else old(socket.turn)
    {
      if role == Router {
        var first := SendIdentity(env.identityReady);
        if !first {
          return false;
        }
      }
      assert socket.staged + [body] == old(socket.staged) + (if role == Router then [identity, body] else [body]);
      var last := socket.Send(body, false, env.bodyReady);
      return last == Sent;
    }

    /** The blocking receive behind a send: the oldest message, or what a time-out returns. */
    method ReceiveAnswer(body: string, inboxAtRecv: seq<Message>) returns (r: Result<string>)
      requires Valid() && socket != null && (role == Dealer || role == Requester)
      requires role == Requester ==> socket.turn == RecvOnly
      requires forall i | 0 <= i < |inboxAtRecv| :: |inboxAtRecv[i]| == 1
      modifies socket
      ensures Valid() && socket.outbox == old(socket.outbox) && socket.staged == old(socket.staged)
      ensures inboxAtRecv == [] ==>
                && r == (if role == Dealer then Ok(body) else Err(Timeout))
                && socket.inbox == [] && socket.turn == old(socket.turn)
      ensures inboxAtRecv != [] ==>
                && r == Ok(inboxAtRecv[0][0]) && socket.inbox == inboxAtRecv[1..]
                && socket.turn == if role == Requester then SendOnly else Both
    {
      socket.inbox := inboxAtRecv;  // arrivals and the poll thread
      var received := socket.Recv();
      if received.Got? {
        return Ok(received.frame);
      }
      if role == Requester {
        return Err(Timeout);
      }
      return Ok(body);
    }

    /** Whether an `execute` gets its message out: in turn, with room for each frame. */
    ghost predicate GoesOut(env: Environment)
      reads this, socket
    {
      && socket != null && role != Subscriber && socket.turn != RecvOnly
      && env.bodyReady && (role == Router ==> env.identityReady)
    }

    /** One synchronous request. An error result stands for a thrown `Error`. */
    method Execute(body: string, env: Environment) returns (r: Result<string>)
      requires Valid()
      requires forall i | 0 <= i < |env.inboxAtRecv| :: |env.inboxAtRecv[i]| == 1
      modifies this`identity, this`emitted, socket
      ensures Valid()
      // Nothing is sent; a ROUTER may have opened its message with the identity frame.
      ensures !old(GoesOut(env)) ==>
                && r == Err(ZmqError) && emitted == old(emitted)
                && (socket != null ==>
                      && socket.inbox == old(socket.inbox) && socket.outbox == old(socket.outbox)
                      && socket.turn == old(socket.turn)
                      && socket.staged == if role == Router && env.identityReady then old(socket.staged) + [identity]
                                          else old(socket.staged))
      // The ROUTER fills in its fallback identity even if the send then fails.
      ensures identity == if socket != null && role == Router && old(identity) == "" then "Game" else old(identity)
      // One message is sent, behind what a ROUTER had staged, and reported; a DEALER or REQUESTER then
      // takes the next waiting message.
      ensures old(GoesOut(env)) ==>
                && socket.outbox == old(socket.outbox) +
                   [old(socket.staged) + (if role == Router then [identity, body] else [body])]
                && socket.staged == [] && emitted == old(emitted) + [body]
                && (role != Dealer && role != Requester ==>
                      && r == Ok(body) && socket.inbox == old(socket.inbox)
                      && socket.turn == if role == Replier then RecvOnly else old(socket.turn))
                && ((role == Dealer || role == Requester) && env.inboxAtRecv == [] ==>
                      && r == (if role == Dealer then Ok(body) else Err(Timeout)) && socket.inbox == []
                      && socket.turn == if role == Requester then RecvOnly else Both)
                && ((role == Dealer || role == Requester) && env.inboxAtRecv != [] ==>
                      && r == Ok(env.inboxAtRecv[0][0])
                      && socket.inbox == env.inboxAtRecv[1..] && socket.turn == old(socket.turn))
      // What is sent and returned is what the network models take.
      ensures old(GoesOut(env)) ==>
                var answer := if env.inboxAtRecv == [] then None else Some(env.inboxAtRecv[0][0]);
                && (if role == Router then [identity, body] else [body]) == Outgoing(role, old(identity), body)
                && (AwaitsAnswer(role) ==> r == ExecuteResult(role, body, answer))
      // A PULLER never sends; a PUBLISHER, a PUSHER and a DEALER do if there is room.
      ensures role == Puller || role == Subscriber ==> r == Err(ZmqError)
      ensures socket != null && (role == Publisher || role == Pusher || role == Dealer) && env.bodyReady ==> r.Ok?
    {
      if socket == null {
        return Err(ZmqError);
      }
      if role == Subscriber {
        return Err(ZmqError);
      }
      var sent := SendBody(body, env);
      if !sent {
        return Err(ZmqError);
      }
      emitted := emitted + [body];
      if role == Dealer || role == Requester {
        r := ReceiveAnswer(body, env.inboxAtRecv);
        return;
      }
      return Ok(body);
    }
  }
}
