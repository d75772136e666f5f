/** Any number of REQUESTER nodes and one REPLIER node over every interleaving, with time-outs,
    lost messages, cancellations and reconfigurations. A REQ socket alternates send and receive
    (section "The REQ Socket Type" of ZeroMQ RFC 28); `configure` makes a new one, and the replies
    to a closed one are dropped. */
module RequestReplyNetwork {
  import opened Outcomes
  import opened ZmqProtocol

  /** A REQ socket may send, or must first receive. */
  datatype Phase = MaySend | MustReceive

  datatype Sock = Sock(
    owner: nat,
    phase: Phase,
    up: seq<string>,      // requests on the way to the REPLIER
    down: seq<string>,    // replies on the way back
    last: string,         // the request sent last
    timedOut: bool)       // an `execute` on this socket has timed out

  /** A REQUESTER's current socket (m_socket) and the body of the `execute` that waits, if any. */
  datatype Client = Client(sock: Option<nat>, call: Option<string>)

  /** A finished `execute`. */
  datatype Event = Event(requester: nat, sock: Option<nat>, body: string, result: Result<string>)

  datatype Net = Net(
    socks: seq<Sock>,
    requesters: map<nat, Client>,
    log: seq<Event>)

  datatype Action =
    | Configure(r: nat)
    | Cancel(r: nat)
    | Call(r: nat, body: string, ready: bool)   // `execute` up to its receive
    | Receive(r: nat)
    | TimeOut(r: nat)
    | PollRequester(r: nat)
    | PollReplier(k: nat)       // the REPLIER handles the next request of socket k
    | LoseRequest(k: nat)
    | LoseReply(k: nat)

  function Init(): Net {
    Net([], map[], [])
  }

  function Node(s: Net, r: nat): Client {
    if r in s.requesters then s.requesters[r] else Client(None, None)
  }

  function Put(s: Net, r: nat, q: Client): Net {
    s.(requesters := s.requesters[r := q])
  }

  /** Whether socket k is still its owner's socket. */
  predicate Open(s: Net, k: nat) {
    k < |s.socks| && Node(s, s.socks[k].owner).sock == Some(k)
  }

  function Log(s: Net, r: nat, body: string, result: Result<string>): Net {
    s.(log := s.log + [Event(r, Node(s, r).sock, body, result)])
  }

  /** Replies to a socket that is gone are dropped. */
  function Deliver(s: Net, k: nat, messages: seq<Message>): Net
    requires k < |s.socks|
  {
    if messages == [] || |messages[0]| != 1 || !Open(s, k) then s
    else
      var c := s.socks[k];
      s.(socks := s.socks[k := c.(down := c.down + [messages[0][0]])])
  }

  /** One step. An action that is not possible in a state leaves it alone. */
  function Do(s: Net, a: Action): Net {
    match a
    case Configure(r) =>
      if Node(s, r).call.Some? then s
      else Put(s, r, Client(Some(|s.socks|), None))
           .(socks := s.socks + [Sock(r, MaySend, [], [], "", false)])
    case Cancel(r) =>
      if Node(s, r).call.Some? then s else Put(s, r, Client(None, None))
    case Call(r, body, ready) =>
      var q := Node(s, r);
      if q.call.Some? then s
      else if q.sock.None? || q.sock.value >= |s.socks| then Log(s, r, body, Err(ZmqError))
      else
        var k := q.sock.value;
        var c := s.socks[k];
        if c.phase == MustReceive || !ready then Log(s, r, body, Err(ZmqError))
        else Put(s, r, q.(call := Some(body)))
             .(socks := s.socks[k := c.(phase := MustReceive, last := body,
                                        up := c.up + Outgoing(Requester, "", body))])
    case Receive(r) =>
      var q := Node(s, r);
      if q.call.None? || q.sock.None? || q.sock.value >= |s.socks| then s
      else
        var k := q.sock.value;
        var c := s.socks[k];
        if c.down == [] then s
        else
          var s1 := s.(socks := s.socks[k := c.(phase := MaySend, down := c.down[1..])]);
          var result := ExecuteResult(Requester, q.call.value, Some(c.down[0]));
          Put(Log(s1, r, q.call.value, result), r, q.(call := None))
    case TimeOut(r) =>
      var q := Node(s, r);
      if q.call.None? || q.sock.None? || q.sock.value >= |s.socks| then s
      else
        var k := q.sock.value;
        var s1 := s.(socks := s.socks[k := s.socks[k].(timedOut := true)]);
        var result := ExecuteResult(Requester, q.call.value, None);
        Put(Log(s1, r, q.call.value, result), r, q.(call := None))
    case PollRequester(r) =>
      var q := Node(s, r);
      if q.sock.None? || q.sock.value >= |s.socks| || s.socks[q.sock.value].down == [] then s
      else
        var c := s.socks[q.sock.value];
        if OnMessage(Requester, "", [c.down[0]]).consumed
        then s.(socks := s.socks[q.sock.value := c.(down := c.down[1..])])
        else s
    case PollReplier(k) =>
      if k >= |s.socks| || s.socks[k].up == [] then s
      else
        var c := s.socks[k];
        var reaction := OnMessage(Replier, "", [c.up[0]]);
        var s1 := s.(socks := s.socks[k := c.(up := c.up[1..])]);
        Deliver(s1, k, reaction.sent)
    case LoseRequest(k) =>
      if k >= |s.socks| || s.socks[k].up == [] then s
      else s.(socks := s.socks[k := s.socks[k].(up := s.socks[k].up[1..])])
    case LoseReply(k) =>
      if k >= |s.socks| || s.socks[k].down == [] then s
      else s.(socks := s.socks[k := s.socks[k].(down := s.socks[k].down[1..])])
  }

  function RunFrom(s: Net, actions: seq<Action>): Net {
    if actions == [] then s
    else Do(RunFrom(s, actions[..|actions| - 1]), actions[|actions| - 1])
  }

  function Run(actions: seq<Action>): Net {
    RunFrom(Init(), actions)
  }

  // ----- the invariant

  /** At most one request of a socket is on its way, in one direction or the other, and none
      unless it was sent last and is unanswered. */
  predicate SockOk(c: Sock) {
    match c.phase
    case MaySend => c.up == [] && c.down == [] && !c.timedOut
    case MustReceive =>
      || (c.up == [] && c.down == [])
      || (c.up == [c.last] && c.down == [])
      || (c.up == [] && c.down == [ReplyTo(c.last)])
  }

  /** A waiting call has its request on its current socket; without a call, a socket owes a
      receive only after a time-out. */
  predicate RequesterOk(s: Net, r: nat, q: Client) {
    match q.sock
    case None => q.call.None?
    case Some(k) =>
      && k < |s.socks| && s.socks[k].owner == r
      && match q.call
         case Some(body) => s.socks[k].phase == MustReceive && s.socks[k].last == body && !s.socks[k].timedOut
         case None => s.socks[k].phase == MustReceive <==> s.socks[k].timedOut
  }

  predicate EventOk(s: Net, e: Event) {
    && (e.result.Ok? ==> e.result.value == ReplyTo(e.body) && e.sock.Some?)
    && (e.result == Err(Timeout) ==> e.sock.Some? && e.sock.value < |s.socks| && s.socks[e.sock.value].timedOut)
    && (e.sock.Some? ==> e.sock.value < |s.socks| && s.socks[e.sock.value].owner == e.requester)
  }

  /** After a time-out on a socket no later `execute` on it succeeds or even waits. */
  predicate FailedAfterTimeOut(log: seq<Event>) {
    forall i, j | 0 <= i < j < |log| ::
      log[i].result == Err(Timeout) && log[j].sock == log[i].sock ==> log[j].result == Err(ZmqError)
  }

  ghost predicate Inv(s: Net) {
    && (forall k | 0 <= k < |s.socks| :: SockOk(s.socks[k]))
    && (forall r | r in s.requesters :: RequesterOk(s, r, s.requesters[r]))
    && (forall i | 0 <= i < |s.log| :: EventOk(s, s.log[i]))
    && FailedAfterTimeOut(s.log)
  }

  // ----- each step keeps the invariant

  /** Updating one socket, with the owner and the time-out kept, leaves requesters whose current
      socket is another one as they were. */
  lemma SockKeeps(s: Net, k: nat, c: Sock)
    requires Inv(s) && k < |s.socks| && SockOk(c)
    requires c.owner == s.socks[k].owner && c.last == s.socks[k].last
    requires c.phase == s.socks[k].phase && c.timedOut == s.socks[k].timedOut
    ensures Inv(s.(socks := s.socks[k := c]))
  {
    var t := s.(socks := s.socks[k := c]);
    forall r | r in t.requesters
      ensures RequesterOk(t, r, t.requesters[r])
    {
      assert RequesterOk(s, r, s.requesters[r]);
    }
    forall i | 0 <= i < |t.log|
      ensures EventOk(t, t.log[i])
    {
      assert EventOk(s, s.log[i]);
    }
  }

  lemma LogFails(s: Net, r: nat, body: string)
    requires Inv(s)
    ensures Inv(Log(s, r, body, Err(ZmqError)))
  {
    var t := Log(s, r, body, Err(ZmqError));
    assert RequesterOk(s, r, Node(s, r));
    forall i | 0 <= i < |s.log|
      ensures EventOk(t, s.log[i])
    {
      assert EventOk(s, s.log[i]);
    }
    forall q | q in t.requesters
      ensures RequesterOk(t, q, t.requesters[q])
    {
      assert RequesterOk(s, q, s.requesters[q]);
    }
  }

  /** The end of a waiting call: its socket is updated, its result logged, the call cleared. */
  lemma EndKeeps(s: Net, r: nat, c: Sock, result: Result<string>)
    requires Inv(s) && Node(s, r).call.Some?
    requires var before := s.socks[Node(s, r).sock.value];
             c.owner == before.owner && c.last == before.last && SockOk(c)
    requires c.phase == MustReceive <==> c.timedOut
    requires result == Ok(ReplyTo(Node(s, r).call.value)) || (result == Err(Timeout) && c.timedOut)
    ensures var q := Node(s, r);
            var s1 := s.(socks := s.socks[q.sock.value := c]);
            Inv(Put(Log(s1, r, q.call.value, result), r, q.(call := None)))
  {
    var q := Node(s, r);
    var k := q.sock.value;
    assert RequesterOk(s, r, q);
    var s1 := s.(socks := s.socks[k := c]);
    var t := Put(Log(s1, r, q.call.value, result), r, q.(call := None));
    forall p | p in t.requesters
      ensures RequesterOk(t, p, t.requesters[p])
    {
      if p != r {
        assert RequesterOk(s, p, s.requesters[p]);
      }
    }
    forall i | 0 <= i < |t.log|
      ensures EventOk(t, t.log[i])
    {
      if i < |s.log| {
        assert EventOk(s, s.log[i]);
      }
    }
    forall i | 0 <= i < |s.log| && s.log[i].result == Err(Timeout)
      ensures s.log[i].sock != Some(k)
    {
      assert EventOk(s, s.log[i]);
    }
  }

  lemma CallKeeps(s: Net, r: nat, body: string)
    requires Inv(s) && Node(s, r).call.None? && Node(s, r).sock.Some?
    requires s.socks[Node(s, r).sock.value].phase == MaySend
    ensures Inv(Do(s, Call(r, body, true)))
  {
    var q := Node(s, r);
    var k := q.sock.value;
    assert RequesterOk(s, r, q);
    var t := Do(s, Call(r, body, true));
    assert SockOk(s.socks[k]);
    assert t.socks[k].up == [body];
    forall p | p in t.requesters
      ensures RequesterOk(t, p, t.requesters[p])
    {
      if p != r {
        assert RequesterOk(s, p, s.requesters[p]);
      }
    }
    forall i | 0 <= i < |t.log|
      ensures EventOk(t, t.log[i])
    {
      assert EventOk(s, s.log[i]);
    }
  }

  lemma ReconfigureKeeps(s: Net, r: nat, a: Action)
    requires Inv(s) && (a == Configure(r) || a == Cancel(r))
    ensures Inv(Do(s, a))
  {
    var t := Do(s, a);
    forall p | p in t.requesters
      ensures RequesterOk(t, p, t.requesters[p])
    {
      if p in s.requesters {
        assert RequesterOk(s, p, s.requesters[p]);
      }
    }
    forall i | 0 <= i < |t.log|
      ensures EventOk(t, t.log[i])
    {
      assert EventOk(s, s.log[i]);
    }
  }

  lemma PollReplierEffect(s: Net, k: nat)
    requires k < |s.socks| && s.socks[k].up != []
    ensures var c := s.socks[k];
            var body := c.up[0];
            var after := if Open(s, k) then c.(up := c.up[1..], down := c.down + [ReplyTo(body)])
                         else c.(up := c.up[1..]);
            Do(s, PollReplier(k)) == s.(socks := s.socks[k := after])
  {
    var c := s.socks[k];
    var s1 := s.(socks := s.socks[k := c.(up := c.up[1..])]);
    assert Open(s1, k) == Open(s, k);
    assert s1.socks[k := c] == s.socks;
  }

  lemma StepKeeps(s: Net, a: Action)
    requires Inv(s)
    ensures Inv(Do(s, a))
  {
    match a {
      case Configure(r) => ReconfigureKeeps(s, r, a);
      case Cancel(r) => ReconfigureKeeps(s, r, a);
      case Call(r, body, ready) =>
        var q := Node(s, r);
        assert RequesterOk(s, r, q);
        if q.call.None? {
          if q.sock.Some? && ready && s.socks[q.sock.value].phase == MaySend {
            CallKeeps(s, r, body);
          } else {
            LogFails(s, r, body);
          }
        }
      case Receive(r) =>
        var q := Node(s, r);
        assert RequesterOk(s, r, q);
        if q.call.Some? && s.socks[q.sock.value].down != [] {
          var c := s.socks[q.sock.value];
          assert SockOk(c);
          EndKeeps(s, r, c.(phase := MaySend, down := c.down[1..]), Ok(c.down[0]));
        }
      case TimeOut(r) =>
        var q := Node(s, r);
        assert RequesterOk(s, r, q);
        if q.call.Some? {
          var c := s.socks[q.sock.value];
          assert SockOk(c);
          EndKeeps(s, r, c.(timedOut := true), Err(Timeout));
        }
      case PollRequester(r) =>
      case PollReplier(k) =>
        if k < |s.socks| && s.socks[k].up != [] {
          var c := s.socks[k];
          assert SockOk(c);
          PollReplierEffect(s, k);
          var after := if Open(s, k) then c.(up := c.up[1..], down := c.down + [ReplyTo(c.up[0])])
                       else c.(up := c.up[1..]);
          SockKeeps(s, k, after);
        }
      case LoseRequest(k) =>
        if k < |s.socks| && s.socks[k].up != [] {
          assert SockOk(s.socks[k]);
          SockKeeps(s, k, s.socks[k].(up := s.socks[k].up[1..]));
        }
      case LoseReply(k) =>
        if k < |s.socks| && s.socks[k].down != [] {
          assert SockOk(s.socks[k]);
          SockKeeps(s, k, s.socks[k].(down := s.socks[k].down[1..]));
        }
    }
  }

  lemma {:induction false} InvAlways(actions: seq<Action>)
    ensures Inv(Run(actions))
  {
    if actions == [] {
    } else {
      InvAlways(actions[..|actions| - 1]);
      StepKeeps(Run(actions[..|actions| - 1]), actions[|actions| - 1]);
    }
  }

  // ----- the main results

  /** Every `execute` that returned normally returned the reply to its own body. */
  lemma Attribution(actions: seq<Action>, i: nat)
    requires i < |Run(actions).log| && Run(actions).log[i].result.Ok?
    ensures Run(actions).log[i].result == Ok("Reply to: " + Run(actions).log[i].body)
  {
    InvAlways(actions);
    assert EventOk(Run(actions), Run(actions).log[i]);
  }

  /** After an `execute` has timed out, every later one on the same socket fails at once. */
  lemma TimeOutIsFinal(actions: seq<Action>, i: nat, j: nat)
    requires i < j < |Run(actions).log|
    requires Run(actions).log[i].result == Err(Timeout)
    requires Run(actions).log[j].sock == Run(actions).log[i].sock
    ensures Run(actions).log[j].result == Err(ZmqError)
  {
    InvAlways(actions);
  }

  lemma RunAppendOne(s: Net, actions: seq<Action>, a: Action)
    ensures RunFrom(s, actions + [a]) == Do(RunFrom(s, actions), a)
  {
    assert (actions + [a])[..|actions + [a]| - 1] == actions;
  }

  /** With no call waiting, the next `execute` of a REQUESTER sends its request and waits exactly
      when the REQUESTER has a socket and no `execute` has timed out on it. */
  lemma CallGoesOutIff(actions: seq<Action>, r: nat, body: string)
    requires Node(Run(actions), r).call.None?
    ensures var s := Run(actions);
            var q := Node(s, r);
            (Node(Do(s, Call(r, body, true)), r).call == Some(body)) <==>
            (q.sock.Some? && q.sock.value < |s.socks| && !s.socks[q.sock.value].timedOut)
  {
    InvAlways(actions);
    assert RequesterOk(Run(actions), r, Node(Run(actions), r));
  }

  /** Wherever a run has got to, reconfiguring an idle REQUESTER makes its next `execute` able to
      return the reply to its body, whatever late replies are still about. */
  lemma ReconfigureRecovers(actions: seq<Action>, r: nat, body: string)
    requires Node(Run(actions), r).call.None?
    ensures var k := |Run(actions).socks|;
            var more := [Configure(r), Call(r, body, true), PollReplier(k), Receive(r)];
            var t := Run(actions + more);
            t.log == Run(actions).log + [Event(r, Some(k), body, Ok("Reply to: " + body))]
  {
    var s := Run(actions);
    var k := |s.socks|;
    var a1 := actions + [Configure(r)];
    var a2 := a1 + [Call(r, body, true)];
    var a3 := a2 + [PollReplier(k)];
    RunAppendOne(Init(), actions, Configure(r));
    RunAppendOne(Init(), a1, Call(r, body, true));
    RunAppendOne(Init(), a2, PollReplier(k));
    RunAppendOne(Init(), a3, Receive(r));
    assert Run(a2).socks[k].up == [body];
    PollReplierEffect(Run(a2), k);
    assert Run(a3).socks[k].down == [ReplyTo(body)];
    assert a3 + [Receive(r)] ==
           actions + [Configure(r), Call(r, body, true), PollReplier(k), Receive(r)];
  }

  /** A reply has arrived on the socket on which r's `execute` waits. */
  predicate ReplyThere(s: Net, r: nat, k: nat, body: string) {
    && Node(s, r) == Client(Some(k), Some(body))
    && k < |s.socks| && s.socks[k].down == [ReplyTo(body)]
  }

  lemma ReplyStays(s: Net, r: nat, k: nat, body: string, a: Action)
    requires Inv(s) && ReplyThere(s, r, k, body)
    requires a != Receive(r) && a != TimeOut(r) && a != LoseReply(k)
    ensures ReplyThere(Do(s, a), r, k, body)
  {
    assert SockOk(s.socks[k]);
    assert RequesterOk(s, r, s.requesters[r]);
    match a {
      case Receive(q) =>
        assert RequesterOk(s, q, Node(s, q));
      case TimeOut(q) =>
        assert RequesterOk(s, q, Node(s, q));
      case Call(q, _, _) =>
        assert RequesterOk(s, q, Node(s, q));
      case PollReplier(j) =>
        if j < |s.socks| && s.socks[j].up != [] {
          PollReplierEffect(s, j);
        }
      case _ =>
    }
  }

  /** A reply that has arrived is not taken away from the `execute` that waits for it: whatever
      else happens, the poll thread included, its receive then returns that reply. */
  lemma {:induction false} ReplyIsReceived(s: Net, r: nat, k: nat, body: string, more: seq<Action>)
    requires Inv(s) && ReplyThere(s, r, k, body)
    requires forall i | 0 <= i < |more| ::
               more[i] != Receive(r) && more[i] != TimeOut(r) && more[i] != LoseReply(k)
    ensures var t := RunFrom(s, more);
            && Inv(t) && ReplyThere(t, r, k, body)
            && Do(t, Receive(r)).log == t.log + [Event(r, Some(k), body, Ok("Reply to: " + body))]
  {
    if more == [] {
    } else {
      var before := RunFrom(s, more[..|more| - 1]);
      var a := more[|more| - 1];
      ReplyIsReceived(s, r, k, body, more[..|more| - 1]);
      StepKeeps(before, a);
      ReplyStays(before, r, k, body, a);
    }
  }

  /** A call that waits may time out at any moment: it fails, is over, and its socket stays. */
  lemma TimeOutFails(actions: seq<Action>, r: nat)
    requires Node(Run(actions), r).call.Some?
    ensures var s := Run(actions);
            var t := Do(s, TimeOut(r));
            && t.log == s.log + [Event(r, Node(s, r).sock, Node(s, r).call.value, Err(Timeout))]
            && Node(t, r) == Client(Node(s, r).sock, None)
  {
    InvAlways(actions);
    assert RequesterOk(Run(actions), r, Node(Run(actions), r));
  }

  /** After a `cancel` every call fails until the REQUESTER is configured again. */
  lemma CancelledFails(actions: seq<Action>, r: nat, body: string, ready: bool)
    requires Node(Run(actions), r).call.None?
    ensures var t := Do(Run(actions), Cancel(r));
            Do(t, Call(r, body, ready)).log == Run(actions).log + [Event(r, None, body, Err(ZmqError))]
  {
  }

  /** The socket owes a receive, and neither its request nor a reply is under way. */
  predicate NothingUnderway(s: Net, k: nat) {
    k < |s.socks| && s.socks[k].phase == MustReceive && s.socks[k].up == [] && s.socks[k].down == []
  }

  /** From entry n of the log on no `execute` on socket k has returned normally. */
  predicate NoneReturns(s: Net, n: nat, k: nat) {
    forall i | n <= i < |s.log| :: s.log[i].sock == Some(k) ==> s.log[i].result.Err?
  }

  lemma NothingComes(s: Net, n: nat, k: nat, a: Action)
    requires Inv(s) && NothingUnderway(s, k) && NoneReturns(s, n, k)
    ensures NothingUnderway(Do(s, a), k) && NoneReturns(Do(s, a), n, k)
  {
    match a {
      case Receive(r) => assert RequesterOk(s, r, Node(s, r));
      case TimeOut(r) => assert RequesterOk(s, r, Node(s, r));
      case Call(r, _, _) => assert RequesterOk(s, r, Node(s, r));
      case PollReplier(j) =>
        if j < |s.socks| && s.socks[j].up != [] {
          PollReplierEffect(s, j);
        }
      case _ =>
    }
  }

  /** If the request of a call or the reply to it is lost, no `execute` on that socket returns normally
      any more. */
  lemma {:induction false} LostIsLost(actions: seq<Action>, k: nat, more: seq<Action>)
    requires k < |Run(actions).socks| && Run(actions).socks[k].phase == MustReceive
    ensures var t := Run(actions + [LoseRequest(k)] + [LoseReply(k)] + more);
            Inv(t) && NothingUnderway(t, k) && NoneReturns(t, |Run(actions).log|, k)
  {
    var lost := actions + [LoseRequest(k)] + [LoseReply(k)];
    if more == [] {
      InvAlways(actions);
      assert SockOk(Run(actions).socks[k]);
      RunAppendOne(Init(), actions, LoseRequest(k));
      RunAppendOne(Init(), actions + [LoseRequest(k)], LoseReply(k));
      InvAlways(lost);
      assert lost + more == lost;
    } else {
      var front, a := more[..|more| - 1], more[|more| - 1];
      LostIsLost(actions, k, front);
      assert lost + more == (lost + front) + [a];
      RunAppendOne(Init(), lost + front, a);
      InvAlways(lost + more);
      NothingComes(Run(lost + front), |Run(actions).log|, k, a);
    }
  }

  // ----- the calls of a run

  /** The call that the action begins. */
  function Begun(s: Net, a: Action, r: nat): seq<string> {
    if a.Call? && a.r == r && Node(s, r).call.None? then [a.body] else []
  }

  /** The bodies with which `execute` was called on REQUESTER r, in order; a call needs that none waits. */
  function Called(actions: seq<Action>, r: nat): seq<string> {
    if actions == [] then []
    else
      var front, a := actions[..|actions| - 1], actions[|actions| - 1];
      Called(front, r) + Begun(Run(front), a, r)
  }

  /** The bodies of its calls that have finished. */
  function Finished(log: seq<Event>, r: nat): seq<string> {
    if log == [] then []
    else Finished(log[..|log| - 1], r) + (if log[|log| - 1].requester == r then [log[|log| - 1].body] else [])
  }

  function Waiting(s: Net, r: nat): seq<string> {
    if Node(s, r).call.Some? then [Node(s, r).call.value] else []
  }

  lemma FinishedSnoc(log: seq<Event>, e: Event, r: nat)
    ensures Finished(log + [e], r) == Finished(log, r) + (if e.requester == r then [e.body] else [])
  {
    assert (log + [e])[..|log|] == log;
  }

  /** A step logs nothing, and then a call it begins waits, or it ends one call: the one that waited or the
      one it begins. */
  predicate CallMoves(s: Net, a: Action, r: nat) {
    var t := Do(s, a);
    if t.log == s.log then Waiting(t, r) == Waiting(s, r) + Begun(s, a, r)
    else
      && |t.log| == |s.log| + 1 && t.log[..|s.log|] == s.log
      && if t.log[|s.log|].requester == r
         then Waiting(t, r) == [] && Waiting(s, r) + Begun(s, a, r) == [t.log[|s.log|].body]
         else Waiting(t, r) == Waiting(s, r) && Begun(s, a, r) == []
  }

  lemma CallBegins(s: Net, a: Action, r: nat)
    requires Inv(s) && (a.Call? || a.Configure? || a.Cancel?)
    ensures CallMoves(s, a, r)
  {
    assert Waiting(s, r) + [] == Waiting(s, r);
  }

  lemma CallEnds(s: Net, a: Action, r: nat)
    requires Inv(s) && (a.Receive? || a.TimeOut?)
    ensures CallMoves(s, a, r)
  {
    assert Waiting(s, r) + [] == Waiting(s, r);
  }

  lemma CallsRest(s: Net, a: Action, r: nat)
    requires Inv(s) && !a.Call? && !a.Configure? && !a.Cancel? && !a.Receive? && !a.TimeOut?
    ensures CallMoves(s, a, r)
  {
    assert Waiting(s, r) + [] == Waiting(s, r);
  }

  lemma CallStep(s: Net, a: Action, r: nat)
    requires CallMoves(s, a, r)
    ensures Finished(Do(s, a).log, r) + Waiting(Do(s, a), r) == Finished(s.log, r) + Waiting(s, r) + Begun(s, a, r)
  {
    var t := Do(s, a);
    if t.log != s.log {
      var e := t.log[|s.log|];
      assert t.log == s.log + [e];
      FinishedSnoc(s.log, e, r);
      assert e.requester == r ==>
          Finished(s.log, r) + Waiting(s, r) + Begun(s, a, r) ==
          Finished(s.log, r) + (Waiting(s, r) + Begun(s, a, r));
    }
  }

  /** Every call of `execute` ends once or waits: the finished calls of a REQUESTER, and the one that
      waits, are those that were made, in order. */
  lemma {:induction false} CallsAccounted(actions: seq<Action>, r: nat)
    ensures Called(actions, r) == Finished(Run(actions).log, r) + Waiting(Run(actions), r)
  {
    if actions == [] {
      assert Finished(Run(actions).log, r) == [];
    } else {
      CallsAccounted(actions[..|actions| - 1], r);
      InvAlways(actions[..|actions| - 1]);
      var a := actions[|actions| - 1];
      if a.Call? || a.Configure? || a.Cancel? {
        CallBegins(Run(actions[..|actions| - 1]), a, r);
      } else if a.Receive? || a.TimeOut? {
        CallEnds(Run(actions[..|actions| - 1]), a, r);
      } else {
        CallsRest(Run(actions[..|actions| - 1]), a, r);
      }
      CallStep(Run(actions[..|actions| - 1]), a, r);
    }
  }
}
