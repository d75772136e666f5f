/** Any number of DEALER nodes and one ROUTER node, each running `execute` and the poll-thread
    handler, over every interleaving. Every dealer has one FIFO link to the ROUTER and one back
    (sections "The DEALER Socket Type" and "The ROUTER Socket Type" of ZeroMQ RFC 28). All dealers
    share the ROUTER's single remembered identity. When the ROUTER is reconfigured, any of the
    messages under way may be lost. */
module DealerRouterNetwork {
  import opened Lists
  import opened Outcomes
  import opened ZmqProtocol

  /** A message on its way to the ROUTER. The number, its place among all that its dealer sent, is
      invisible to the nodes. */
  datatype Letter = Letter(index: nat, body: string)

  /** A message on its way to a dealer: the automatic response to message number `index`, or a text
      of the ROUTER's operator. The tag is invisible to the nodes. */
  datatype Wire = Auto(index: nat, text: string) | Operator(text: string)

  /** An `execute` that has sent message number `index` and now waits to receive. `idle` says that
      no earlier message and no response was under way when it sent. */
  datatype Call = Call(index: nat, body: string, idle: bool)

  datatype DealerNode = DealerNode(
    open: bool,
    sent: seq<string>,      // every body sent, in order
    up: seq<Letter>,        // sent and not yet handled by the ROUTER
    handled: seq<Letter>,   // what the ROUTER emitted for this dealer
    down: seq<Wire>,        // on the way back
    consumed: seq<Wire>,    // received, by `execute` or by the poll thread
    lostUp: nat,            // messages lost on the way to the ROUTER
    lostDown: nat,          // responses lost on the way back
    call: Option<Call>)

  /** A finished `execute` and what it received, if anything. */
  datatype Return = Return(
    dealer: string, index: nat, body: string, idle: bool, answer: Option<Wire>, result: Result<string>)

  datatype Net = Net(
    identity: string,              // the ROUTER's m_identity
    nodes: map<string, DealerNode>,
    results: seq<Return>,
    operatorSends: nat)

  datatype Action =
    | Join(d: string)                      // a DEALER is configured under a fresh identity
    | Leave(d: string, kept: nat)          // its socket is closed; `kept` of its messages still arrive
    | Send(d: string, body: string)        // first half of `execute` on a DEALER
    | Receive(d: string)                   // second half, a message is there
    | TimeOut(d: string)                   // second half, nothing came in time
    | PollDealer(d: string)                // the poll thread takes the message instead
    | PollRouter(d: string)                // the ROUTER handles the next message of d
    | OperatorSend(body: string)           // `execute` on the ROUTER
    | RestartRouter                        // the ROUTER is configured again
    | LoseUp(d: string, at: nat)           // which drops any messages to it
    | LoseDown(d: string, at: nat)         // and from it

  const DEALER_PREFIX := "DEALER-"
  const NO_NODE := DealerNode(false, [], [], [], [], [], 0, 0, None)
  const NEW_NODE := NO_NODE.(open := true)

  function Init(): Net {
    Net(ROUTER_DEFAULT_IDENTITY, map[], [], 0)
  }

  /** The node of `d`; an identity never used has a closed, empty node. */
  function Node(s: Net, d: string): DealerNode {
    if d in s.nodes then s.nodes[d] else NO_NODE
  }

  function Put(s: Net, d: string, n: DealerNode): Net {
    s.(nodes := s.nodes[d := n])
  }

  /** The numbers of the messages that the automatic responses among `ws` answer. */
  function Numbers(ws: seq<Wire>): seq<nat> {
    if ws == [] then []
    else if ws[0].Auto? then [ws[0].index] + Numbers(ws[1..])
    else Numbers(ws[1..])
  }

  function Indices(ls: seq<Letter>): seq<nat> {
    if ls == [] then [] else [ls[0].index] + Indices(ls[1..])
  }

  /** The texts of the automatic responses among `ws`. */
  function Texts(ws: seq<Wire>): seq<string> {
    if ws == [] then []
    else if ws[0].Auto? then [ws[0].text] + Texts(ws[1..])
    else Texts(ws[1..])
  }

  /** The responses that messages call for. */
  function Answers(ls: seq<Letter>): seq<string> {
    if ls == [] then [] else [ResponseTo(ls[0].body)] + Answers(ls[1..])
  }

  function Tagged(index: nat, texts: seq<string>): seq<Letter> {
    if texts == [] then [] else [Letter(index, texts[0])] + Tagged(index, texts[1..])
  }

  /** The numbers of the messages under way, on the way back first. */
  function InFlight(n: DealerNode): seq<nat> {
    Numbers(n.down) + Indices(n.up)
  }

  /** A ROUTER delivers to the peer its first frame names and drops what it cannot route. `answered`
      is the number of the message that is answered, None for an operator's text. */
  function Route(s: Net, m: Message, answered: Option<nat>): Net {
    if |m| == 2 && Node(s, m[0]).open then
      var n := Node(s, m[0]);
      var w := if answered.Some? then Auto(answered.value, m[1]) else Operator(m[1]);
      Put(s, m[0], n.(down := n.down + [w]))
    else s
  }

  function RouteAll(s: Net, ms: seq<Message>, answered: nat): Net
    decreases |ms|
  {
    if ms == [] then s else RouteAll(Route(s, ms[0], Some(answered)), ms[1..], answered)
  }

  function AfterSend(n: DealerNode, d: string, body: string): DealerNode {
    var m := |n.sent|;
    n.(sent := n.sent + [body],
       up := n.up + [Letter(m, Outgoing(Dealer, d, body)[0])],
       call := Some(Call(m, body, InFlight(n) == [])))
  }

  function AfterLeave(n: DealerNode, kept: nat): DealerNode {
    n.(open := false, up := if kept <= |n.up| then n.up[..kept] else n.up)
  }

  function Consume(n: DealerNode): DealerNode
    requires n.down != []
  {
    n.(down := n.down[1..], consumed := n.consumed + [n.down[0]])
  }

  function DropUp(n: DealerNode, i: nat): DealerNode
    requires i < |n.up|
  {
    n.(up := Without(n.up, i), lostUp := n.lostUp + 1)
  }

  function DropDown(n: DealerNode, i: nat): DealerNode
    requires i < |n.down|
  {
    n.(down := Without(n.down, i), lostDown := n.lostDown + (if n.down[i].Auto? then 1 else 0))
  }

  function Finish(s: Net, d: string, n: DealerNode, answer: Option<Wire>): Net
    requires n.call.Some?
  {
    var c := n.call.value;
    var text := if answer.Some? then Some(answer.value.text) else None;
    var ret := Return(d, c.index, c.body, c.idle, answer, ExecuteResult(Dealer, c.body, text));
    var after := if answer.Some? && n.down != [] then Consume(n) else n;
    Put(s, d, after.(call := None)).(results := s.results + [ret])
  }

  /** One step. An action that is not possible in a state leaves it alone. */
  function Do(s: Net, a: Action): Net {
    match a
    case Join(d) =>
      if d in s.nodes || !(DEALER_PREFIX <= d) then s else Put(s, d, NEW_NODE)
    case Leave(d, kept) =>
      var n := Node(s, d);
      if !n.open || n.call.Some? then s else Put(s, d, AfterLeave(n, kept))
    case Send(d, body) =>
      var n := Node(s, d);
      if !n.open || n.call.Some? then s else Put(s, d, AfterSend(n, d, body))
    case Receive(d) =>
      var n := Node(s, d);
      if n.call.None? || n.down == [] then s else Finish(s, d, n, Some(n.down[0]))
    case TimeOut(d) =>
      var n := Node(s, d);
      if n.call.None? then s else Finish(s, d, n, None)
    case PollDealer(d) =>
      var n := Node(s, d);
      if !n.open || n.down == [] || !OnMessage(Dealer, d, [n.down[0].text]).consumed then s
      else Put(s, d, Consume(n))
    case PollRouter(d) =>
      var n := Node(s, d);
      if n.up == [] then s
      else
        var letter := n.up[0];
        var reaction := OnMessage(Router, s.identity, [d, letter.body]);
        var emitted := Tagged(letter.index, reaction.emitted);
        var s1 := Put(s, d, n.(up := n.up[1..], handled := n.handled + emitted));
        RouteAll(s1.(identity := reaction.identity), reaction.sent, letter.index)
    case OperatorSend(body) =>
      var m := Outgoing(Router, s.identity, body);
      Route(s, m, None).(identity := OperatorTarget(s.identity), operatorSends := s.operatorSends + 1)
    case RestartRouter => s.(identity := ROUTER_DEFAULT_IDENTITY)
    case LoseUp(d, at) =>
      var n := Node(s, d);
      if at < |n.up| then Put(s, d, DropUp(n, at)) else s
    case LoseDown(d, at) =>
      var n := Node(s, d);
      if at < |n.down| then Put(s, d, DropDown(n, at)) else s
  }

  function RunFrom(s: Net, actions: seq<Action>): Net {
    if actions == [] then s
    else Do(RunFrom(s, actions[..|actions| - 1]), actions[|actions| - 1])
  }

  /** The state after any interleaving, from the network with no dealer. */
  function Run(actions: seq<Action>): Net {
    RunFrom(Init(), actions)
  }

  // ----- the invariant

  /** Where a dealer's messages are: the response was received, it is on the way back, or the
      message is on its way up. */
  function Line(n: DealerNode): seq<nat> {
    Numbers(n.consumed) + InFlight(n)
  }

  /** A message is the one its dealer sent under that number. */
  predicate LetterOk(l: Letter, sent: seq<string>) {
    l.index < |sent| && l.body == sent[l.index]
  }

  predicate LettersOk(ls: seq<Letter>, sent: seq<string>) {
    forall l | l in ls :: LetterOk(l, sent)
  }

  /** An automatic response really answers the message it is tagged with. */
  predicate WireOk(w: Wire, sent: seq<string>) {
    w.Auto? ==> w.index < |sent| && w.text == ResponseTo(sent[w.index])
  }

  predicate WiresOk(ws: seq<Wire>, sent: seq<string>) {
    forall w | w in ws :: WireOk(w, sent)
  }

  /** Messages and responses are in the order of sending. */
  predicate OrderOk(n: DealerNode) {
    && Rising(Line(n), |n.sent|)
    && Rising(Indices(n.handled) + Indices(n.up), |n.sent|)
  }

  /** Every message of an open dealer was handled, is on its way up or was lost, and every response
      was received, is on its way back or was lost. */
  predicate CountsOk(n: DealerNode) {
    n.open ==>
      && |n.handled| + |n.up| + n.lostUp == |n.sent|
      && |Numbers(n.consumed)| + |Numbers(n.down)| + n.lostDown == |n.handled|
  }

  predicate Lossless(n: DealerNode) {
    n.lostUp == 0 && n.lostDown == 0
  }

  predicate CallOk(n: DealerNode) {
    n.call.Some? ==>
      var c := n.call.value;
      && n.open && c.index + 1 == |n.sent| && n.sent[c.index] == c.body
      && (c.idle ==> InFlight(n) == [] || InFlight(n) == [c.index])
  }

  predicate AllAuto(ws: seq<Wire>) {
    forall w | w in ws :: w.Auto?
  }

  predicate TextsOk(n: DealerNode, operatorSends: nat) {
    && LettersOk(n.up, n.sent) && LettersOk(n.handled, n.sent)
    && WiresOk(n.down, n.sent) && WiresOk(n.consumed, n.sent)
    && (operatorSends == 0 ==> AllAuto(n.down) && AllAuto(n.consumed))
  }

  predicate LinksOk(n: DealerNode) {
    && OrderOk(n) && CountsOk(n) && CallOk(n)
    && (Lossless(n) ==> Counting(Numbers(n.consumed)))
  }

  predicate NodeOk(n: DealerNode, operatorSends: nat) {
    TextsOk(n, operatorSends) && LinksOk(n)
  }

  /** A finished call returned its own body after a time-out, an operator's text, or the response to
      a message its dealer sent no later than its own. */
  predicate ReturnOk(r: Return, n: DealerNode) {
    && r.index < |n.sent| && n.sent[r.index] == r.body
    && match r.answer
       case None => r.result == Ok(r.body)
       case Some(Operator(text)) => r.result == Ok(text)
       case Some(Auto(k, _)) => k <= r.index && r.result == Ok(ResponseTo(n.sent[k])) && (r.idle ==> k == r.index)
  }

  predicate NamesOk(s: Net) {
    forall d | d in s.nodes :: DEALER_PREFIX <= d
  }

  predicate NodesOk(nodes: map<string, DealerNode>, operatorSends: nat) {
    forall d | d in nodes :: NodeOk(nodes[d], operatorSends)
  }

  predicate ResultsOk(results: seq<Return>, nodes: map<string, DealerNode>, operatorSends: nat) {
    forall r | r in results ::
      && r.dealer in nodes && ReturnOk(r, nodes[r.dealer])
      && (operatorSends == 0 && r.answer.Some? ==> r.answer.value.Auto?)
  }

  predicate Inv(s: Net) {
    NamesOk(s) && NodesOk(s.nodes, s.operatorSends) && ResultsOk(s.results, s.nodes, s.operatorSends)
  }

  // ----- lemmas about lists

  lemma {:induction false} NumbersAppend(a: seq<Wire>, b: seq<Wire>)
    ensures Numbers(a + b) == Numbers(a) + Numbers(b)
  {
    if a == [] {
      assert a + b == b;
    } else {
      NumbersAppend(a[1..], b);
      assert (a + b)[0] == a[0] && (a + b)[1..] == a[1..] + b;
      if a[0].Auto? {
        assert Numbers(a + b) == [a[0].index] + (Numbers(a[1..]) + Numbers(b));
      }
    }
  }

  lemma NumbersOne(w: Wire)
    ensures Numbers([w]) == if w.Auto? then [w.index] else []
  {
    assert [w][1..] == [];
  }

  lemma {:induction false} IndicesAppend(a: seq<Letter>, b: seq<Letter>)
    ensures Indices(a + b) == Indices(a) + Indices(b)
  {
    if a == [] {
      assert a + b == b;
    } else {
      IndicesAppend(a[1..], b);
      assert (a + b)[1..] == a[1..] + b;
    }
  }

  lemma IndicesOne(l: Letter)
    ensures Indices([l]) == [l.index]
  {
    assert [l][1..] == [];
  }

  lemma {:induction false} IndicesAt(ls: seq<Letter>, i: nat)
    requires i < |ls|
    ensures i < |Indices(ls)| == |ls| && Indices(ls)[i] == ls[i].index
  {
    if |ls| > 1 {
      IndicesAt(ls[1..], if i == 0 then 0 else i - 1);
    } else {
      IndicesOne(ls[0]);
      assert ls == [ls[0]];
    }
  }

  lemma IndicesLength(ls: seq<Letter>)
    ensures |Indices(ls)| == |ls|
  {
    if ls != [] {
      IndicesAt(ls, 0);
    }
  }

  lemma ConsumeKeepsSum(n: DealerNode)
    requires n.down != []
    ensures Numbers(n.consumed + [n.down[0]]) + (Numbers(n.down[1..]) + Indices(n.up)) == Line(n)
  {
    var c, d, u := Numbers(n.consumed), Numbers(n.down[1..]), Indices(n.up);
    NumbersAppend(n.consumed, [n.down[0]]);
    NumbersOne(n.down[0]);
    if n.down[0].Auto? {
      Shift(c, n.down[0].index, d + u);
      Assoc([n.down[0].index], d, u);
    } else {
      assert c + [] == c;
    }
  }

  /** Moving the head of `down` to the end of `consumed` keeps the line. */
  lemma ConsumeKeepsLine(n: DealerNode)
    requires n.down != []
    ensures Line(Consume(n)) == Line(n)
    ensures Numbers(n.down) == (if n.down[0].Auto? then [n.down[0].index] else []) + Numbers(n.down[1..])
    ensures Numbers(Consume(n).consumed) ==
            Numbers(n.consumed) + (if n.down[0].Auto? then [n.down[0].index] else [])
  {
    NumbersAppend(n.consumed, [n.down[0]]);
    NumbersOne(n.down[0]);
    ConsumeKeepsSum(n);
  }

  /** With nothing lost an open dealer's line counts all its messages. */
  lemma LosslessLine(n: DealerNode)
    requires OrderOk(n) && CountsOk(n) && n.open && Lossless(n)
    ensures |Line(n)| == |n.sent| && Counting(Line(n)) && Counting(Numbers(n.consumed))
  {
    IndicesLength(n.up);
    FullListCounts(Line(n));
    assert forall k | 0 <= k < |Numbers(n.consumed)| :: Line(n)[k] == Numbers(n.consumed)[k];
  }

  // ----- each step keeps the node invariant

  lemma SendKeepsTexts(n: DealerNode, d: string, body: string, ops: nat)
    requires TextsOk(n, ops)
    ensures TextsOk(AfterSend(n, d, body), ops)
  {
  }

  lemma SendKeepsLinks(n: DealerNode, d: string, body: string)
    requires LinksOk(n) && n.open && n.call.None?
    ensures LinksOk(AfterSend(n, d, body))
  {
    var m := |n.sent|;
    IndicesAppend(n.up, [Letter(m, body)]);
    IndicesOne(Letter(m, body));
    Assoc(Numbers(n.down), Indices(n.up), [m]);
    Assoc(Numbers(n.consumed), InFlight(n), [m]);
    Assoc(Indices(n.handled), Indices(n.up), [m]);
    RisingSnoc(Line(n), m);
    RisingSnoc(Indices(n.handled) + Indices(n.up), m);
  }

  lemma LeaveKeepsTexts(n: DealerNode, kept: nat, ops: nat)
    requires TextsOk(n, ops)
    ensures TextsOk(AfterLeave(n, kept), ops)
  {
  }

  lemma LeaveKeepsLinks(n: DealerNode, kept: nat)
    requires LinksOk(n) && n.call.None?
    ensures LinksOk(AfterLeave(n, kept))
  {
    if kept <= |n.up| {
      var left, gone := n.up[..kept], Indices(n.up[kept..]);
      assert n.up == left + n.up[kept..];
      IndicesAppend(left, n.up[kept..]);
      var line, seen := Numbers(n.consumed) + (Numbers(n.down) + Indices(left)), Indices(n.handled) + Indices(left);
      Nested(Numbers(n.consumed), Numbers(n.down), Indices(left), gone);
      Assoc(Indices(n.handled), Indices(left), gone);
      RisingPrefix(line, gone, |n.sent|);
      RisingPrefix(seen, gone, |n.sent|);
    }
  }

  lemma ConsumeKeepsTexts(n: DealerNode, ops: nat)
    requires TextsOk(n, ops) && n.down != []
    ensures TextsOk(Consume(n), ops)
  {
    assert n.down[0] in n.down;
  }

  lemma ConsumeKeepsLinks(n: DealerNode)
    requires LinksOk(n) && n.open && n.down != []
    ensures LinksOk(Consume(n))
  {
    var t := Consume(n);
    ConsumeKeepsLine(n);
    assert InFlight(n) == (if n.down[0].Auto? then [n.down[0].index] else []) + InFlight(t);
    if Lossless(n) {
      LosslessLine(t);
    }
  }

  /** The node after the ROUTER has handled its oldest message: an open dealer finds the answer
      on its own link. */
  function Answered(n: DealerNode): DealerNode
    requires n.up != []
  {
    var handled := n.(up := n.up[1..], handled := n.handled + [n.up[0]]);
    if n.open then handled.(down := n.down + [Auto(n.up[0].index, ResponseTo(n.up[0].body))]) else handled
  }

  /** Handling moves the head of `up` to the end of `handled`. */
  lemma AnsweredSeen(n: DealerNode)
    requires n.up != []
    ensures Indices(n.up) == [n.up[0].index] + Indices(n.up[1..])
    ensures Indices(Answered(n).handled) == Indices(n.handled) + [n.up[0].index]
    ensures Indices(Answered(n).handled) + Indices(Answered(n).up) == Indices(n.handled) + Indices(n.up)
  {
    IndicesAppend(n.handled, [n.up[0]]);
    IndicesOne(n.up[0]);
  }

  /** The response takes the place of the message in the line of an open dealer. */
  lemma AnsweredLine(n: DealerNode)
    requires n.up != [] && n.open
    ensures Numbers(Answered(n).down) == Numbers(n.down) + [n.up[0].index]
    ensures InFlight(Answered(n)) == InFlight(n)
  {
    AnsweredSeen(n);
    var w := Auto(n.up[0].index, ResponseTo(n.up[0].body));
    assert Answered(n).down == n.down + [w];
    NumbersAppend(n.down, [w]);
    NumbersOne(w);
    Shift(Numbers(n.down), w.index, Indices(n.up[1..]));
  }

  lemma AnswerKeepsTexts(n: DealerNode, ops: nat)
    requires TextsOk(n, ops) && n.up != []
    ensures TextsOk(Answered(n), ops)
  {
    assert LetterOk(n.up[0], n.sent);
  }

  /** A response to a closed dealer goes nowhere. */
  lemma AnsweredClosed(n: DealerNode)
    requires OrderOk(n) && n.up != [] && !n.open
    ensures Rising(Line(Answered(n)), |n.sent|)
  {
    AnsweredSeen(n);
    var c, d, x, q := Numbers(n.consumed), Numbers(n.down), n.up[0].index, Indices(n.up[1..]);
    assert Line(n) == c + (d + ([x] + q));
    assert d + ([x] + q) == d + [x] + q;
    Regroup(c, d, x, q);
    RisingDrop(c + d, x, q, |n.sent|);
  }

  lemma AnswerKeepsLinks(n: DealerNode)
    requires LinksOk(n) && n.up != []
    ensures LinksOk(Answered(n))
  {
    AnsweredSeen(n);
    if n.open {
      AnsweredLine(n);
    } else {
      AnsweredClosed(n);
    }
  }

  lemma OperatorKeepsLinks(n: DealerNode, text: string)
    requires LinksOk(n)
    ensures LinksOk(n.(down := n.down + [Operator(text)]))
  {
    NumbersAppend(n.down, [Operator(text)]);
    NumbersOne(Operator(text));
    assert Numbers(n.down) + [] == Numbers(n.down);
  }

  /** A message taken out of the line. */
  lemma DropKeepsLine(n: DealerNode, t: DealerNode, p: seq<nat>, x: nat, q: seq<nat>)
    requires Rising(Line(n), |n.sent|) && t.sent == n.sent && t.consumed == n.consumed
    requires InFlight(n) == p + [x] + q && InFlight(t) == p + q
    ensures Rising(Line(t), |t.sent|)
  {
    var c := Numbers(n.consumed);
    Regroup(c, p, x, q);
    RisingDrop(c + p, x, q, |n.sent|);
  }

  lemma DropKeepsCall(n: DealerNode, t: DealerNode, p: seq<nat>, x: nat, q: seq<nat>)
    requires CallOk(n) && t.open == n.open && t.sent == n.sent && t.call == n.call
    requires InFlight(n) == p + [x] + q && InFlight(t) == p + q
    ensures CallOk(t)
  {
    assert |InFlight(n)| <= 1 ==> p + q == [];
  }

  lemma IndicesWithout(ls: seq<Letter>, i: nat)
    requires i < |ls|
    ensures Indices(Without(ls, i)) == Indices(ls[..i]) + Indices(ls[i + 1..])
    ensures Indices(ls) == Indices(ls[..i]) + [ls[i].index] + Indices(ls[i + 1..])
  {
    IndicesAppend(ls[..i], ls[i + 1..]);
    IndicesAppend(ls[..i] + [ls[i]], ls[i + 1..]);
    IndicesAppend(ls[..i], [ls[i]]);
    IndicesOne(ls[i]);
    Around(ls, i);
  }

  lemma DropUpKeepsTexts(n: DealerNode, i: nat, ops: nat)
    requires TextsOk(n, ops) && i < |n.up|
    ensures TextsOk(DropUp(n, i), ops)
  {
  }

  lemma DropUpOrder(n: DealerNode, i: nat, a: seq<nat>, x: nat, b: seq<nat>)
    requires OrderOk(n) && i < |n.up| && Indices(n.up) == a + [x] + b && Indices(DropUp(n, i).up) == a + b
    ensures Rising(Indices(n.handled) + Indices(DropUp(n, i).up), |n.sent|)
  {
    var h := Indices(n.handled);
    Regroup(h, a, x, b);
    RisingDrop(h + a, x, b, |n.sent|);
  }

  lemma DropUpKeepsLinks(n: DealerNode, i: nat)
    requires LinksOk(n) && i < |n.up|
    ensures LinksOk(DropUp(n, i))
  {
    var t := DropUp(n, i);
    var a, x, b := Indices(n.up[..i]), n.up[i].index, Indices(n.up[i + 1..]);
    IndicesWithout(n.up, i);
    DropUpOrder(n, i, a, x, b);
    Regroup(Numbers(n.down), a, x, b);
    DropKeepsLine(n, t, Numbers(n.down) + a, x, b);
    DropKeepsCall(n, t, Numbers(n.down) + a, x, b);
  }

  /** The numbers on the way back without one wire. */
  lemma NumbersWithout(ws: seq<Wire>, i: nat)
    requires i < |ws|
    ensures Numbers(Without(ws, i)) == Numbers(ws[..i]) + Numbers(ws[i + 1..])
    ensures Numbers(ws) == Numbers(ws[..i]) + Numbers([ws[i]]) + Numbers(ws[i + 1..])
  {
    NumbersAppend(ws[..i], ws[i + 1..]);
    NumbersAppend(ws[..i], [ws[i]]);
    NumbersAppend(ws[..i] + [ws[i]], ws[i + 1..]);
    Around(ws, i);
  }

  lemma DropDownKeepsTexts(n: DealerNode, i: nat, ops: nat)
    requires TextsOk(n, ops) && i < |n.down|
    ensures TextsOk(DropDown(n, i), ops)
  {
  }

  lemma DropAutoKeepsLinks(n: DealerNode, i: nat)
    requires LinksOk(n) && i < |n.down| && n.down[i].Auto?
    ensures LinksOk(DropDown(n, i))
  {
    var t := DropDown(n, i);
    var a, x, b, up := Numbers(n.down[..i]), n.down[i].index, Numbers(n.down[i + 1..]), Indices(n.up);
    NumbersWithout(n.down, i);
    NumbersOne(n.down[i]);
    RegroupRight(a, x, b, up);
    DropKeepsLine(n, t, a, x, b + up);
    DropKeepsCall(n, t, a, x, b + up);
  }

  lemma DropDownKeepsLinks(n: DealerNode, i: nat)
    requires LinksOk(n) && i < |n.down|
    ensures LinksOk(DropDown(n, i))
  {
    if n.down[i].Auto? {
      DropAutoKeepsLinks(n, i);
    } else {
      NumbersWithout(n.down, i);
      NumbersOne(n.down[i]);
      assert Numbers(n.down[..i]) + [] == Numbers(n.down[..i]);
      assert InFlight(DropDown(n, i)) == InFlight(n);
    }
  }

  // ----- each step keeps the invariant of the network

  /** What handling one message of `d` does to the network. */
  lemma PollRouterEffect(s: Net, d: string)
    requires NamesOk(s) && d in s.nodes && s.nodes[d].up != []
    ensures Do(s, PollRouter(d)) == Put(s, d, Answered(s.nodes[d])).(identity := d)
  {
    var n := s.nodes[d];
    var letter := n.up[0];
    var s1 := Put(s, d, n.(up := n.up[1..], handled := n.handled + [letter])).(identity := d);
    var m := [d, ResponseTo(letter.body)];
    assert [letter.body][1..] == [];
    assert Tagged(letter.index, [letter.body]) == [letter];
    assert Do(s, PollRouter(d)) == RouteAll(s1, [m], letter.index);
    assert [m][1..] == [];
    assert RouteAll(s1, [m], letter.index) == Route(s1, m, Some(letter.index));
  }

  lemma PutNodeKeeps(nodes: map<string, DealerNode>, ops: nat, d: string, n: DealerNode)
    requires NodesOk(nodes, ops) && NodeOk(n, ops)
    ensures NodesOk(nodes[d := n], ops)
  {
    var after := nodes[d := n];
    forall e | e in after
      ensures NodeOk(after[e], ops)
    {
      assert after[e] == if e == d then n else nodes[e];
    }
  }

  lemma PutResultsKeep(results: seq<Return>, nodes: map<string, DealerNode>, ops: nat, d: string, n: DealerNode)
    requires ResultsOk(results, nodes, ops) && (d in nodes ==> nodes[d].sent <= n.sent)
    ensures ResultsOk(results, nodes[d := n], ops)
  {
    forall r | r in results
      ensures ReturnOk(r, nodes[d := n][r.dealer])
    {
      assert ReturnOk(r, nodes[r.dealer]);
    }
  }

  /** Replacing one node by one that is fine and has sent at least as much keeps the invariant. */
  lemma PutKeeps(s: Net, d: string, n: DealerNode)
    requires Inv(s) && DEALER_PREFIX <= d && NodeOk(n, s.operatorSends)
    requires Node(s, d).sent <= n.sent
    ensures Inv(Put(s, d, n))
  {
    PutNodeKeeps(s.nodes, s.operatorSends, d, n);
    PutResultsKeep(s.results, s.nodes, s.operatorSends, d, n);
  }

  /** A call that ends. */
  lemma FinishReturnOk(n: DealerNode, d: string, answer: Option<Wire>, ops: nat)
    requires TextsOk(n, ops) && CallOk(n) && n.call.Some?
    requires answer.Some? ==> n.down != [] && answer.value == n.down[0]
    ensures var c := n.call.value;
            var text := if answer.Some? then Some(answer.value.text) else None;
            && ReturnOk(Return(d, c.index, c.body, c.idle, answer, ExecuteResult(Dealer, c.body, text)), n)
            && (ops == 0 && answer.Some? ==> answer.value.Auto?)
  {
    if answer.Some? {
      assert n.down[0] in n.down;
      assert n.down[0].Auto? ==> InFlight(n)[0] == n.down[0].index;
    }
  }

  lemma FinishKeepsNode(n: DealerNode, answer: bool, ops: nat)
    requires NodeOk(n, ops) && n.call.Some? && (answer ==> n.down != [])
    ensures NodeOk((if answer then Consume(n) else n).(call := None), ops)
  {
    if answer {
      ConsumeKeepsTexts(n, ops);
      ConsumeKeepsLinks(n);
    }
  }

  lemma RecordKeeps(s: Net, r: Return)
    requires Inv(s) && r.dealer in s.nodes && ReturnOk(r, s.nodes[r.dealer])
    requires s.operatorSends == 0 && r.answer.Some? ==> r.answer.value.Auto?
    ensures Inv(s.(results := s.results + [r]))
  {
    assert forall q | q in s.results + [r] :: q == r || q in s.results;
  }

  lemma FinishKeeps(s: Net, d: string, answer: Option<Wire>)
    requires Inv(s) && d in s.nodes && s.nodes[d].call.Some?
    requires answer.Some? ==> s.nodes[d].down != [] && answer.value == s.nodes[d].down[0]
    ensures Inv(Finish(s, d, s.nodes[d], answer))
  {
    var n := s.nodes[d];
    var after := (if answer.Some? then Consume(n) else n).(call := None);
    FinishReturnOk(n, d, answer, s.operatorSends);
    FinishKeepsNode(n, answer.Some?, s.operatorSends);
    PutKeeps(s, d, after);
    RecordKeeps(Put(s, d, after), Finish(s, d, n, answer).results[|s.results|]);
  }

  lemma CountOperatorSend(nodes: map<string, DealerNode>, ops: nat)
    requires NodesOk(nodes, ops)
    ensures NodesOk(nodes, ops + 1)
  {
    forall d | d in nodes
      ensures NodeOk(nodes[d], ops + 1)
    {
      assert NodeOk(nodes[d], ops);
    }
  }

  lemma OperatorSendKeeps(s: Net, body: string)
    requires Inv(s)
    ensures Inv(Do(s, OperatorSend(body)))
  {
    var m := Outgoing(Router, s.identity, body);
    var s1 := s.(operatorSends := s.operatorSends + 1);
    CountOperatorSend(s.nodes, s.operatorSends);
    var n := Node(s, m[0]);
    if n.open {
      OperatorKeepsLinks(n, body);
      PutKeeps(s1, m[0], n.(down := n.down + [Operator(body)]));
    }
  }

  lemma NodeStepOk(s: Net, a: Action)
    requires Inv(s) && (a.Join? || a.Leave? || a.Send? || a.PollDealer? || a.LoseUp? || a.LoseDown?)
    requires Do(s, a) != s
    ensures NodeOk(Node(Do(s, a), a.d), s.operatorSends) && DEALER_PREFIX <= a.d
    ensures Node(s, a.d).sent <= Node(Do(s, a), a.d).sent
  {
    var n, ops := Node(s, a.d), s.operatorSends;
    match a {
      case Join(d) =>
      case Leave(d, kept) =>
        LeaveKeepsTexts(n, kept, ops);
        LeaveKeepsLinks(n, kept);
      case Send(d, body) =>
        SendKeepsTexts(n, d, body, ops);
        SendKeepsLinks(n, d, body);
      case PollDealer(d) =>
        ConsumeKeepsTexts(n, ops);
        ConsumeKeepsLinks(n);
      case LoseUp(d, at) =>
        DropUpKeepsTexts(n, at, ops);
        DropUpKeepsLinks(n, at);
      case LoseDown(d, at) =>
        DropDownKeepsTexts(n, at, ops);
        DropDownKeepsLinks(n, at);
    }
  }

  /** The node of `d` after an action that changes nothing else. */
  lemma NodeStepKeeps(s: Net, a: Action)
    requires Inv(s) && (a.Join? || a.Leave? || a.Send? || a.PollDealer? || a.LoseUp? || a.LoseDown?)
    ensures Inv(Do(s, a))
  {
    var n := Node(s, a.d);
    if Do(s, a) != s {
      NodeStepOk(s, a);
      assert Do(s, a) == Put(s, a.d, Node(Do(s, a), a.d));
      PutKeeps(s, a.d, Node(Do(s, a), a.d));
    }
  }

  lemma PollRouterKeeps(s: Net, d: string)
    requires Inv(s)
    ensures Inv(Do(s, PollRouter(d)))
  {
    var n := Node(s, d);
    if n.up != [] {
      PollRouterEffect(s, d);
      AnswerKeepsTexts(n, s.operatorSends);
      AnswerKeepsLinks(n);
      PutKeeps(s, d, Answered(n));
    }
  }

  lemma StepKeeps(s: Net, a: Action)
    requires Inv(s)
    ensures Inv(Do(s, a))
  {
    match a {
      case Receive(d) =>
        if Node(s, d).call.Some? && Node(s, d).down != [] {
          FinishKeeps(s, d, Some(Node(s, d).down[0]));
        }
      case TimeOut(d) =>
        if Node(s, d).call.Some? {
          FinishKeeps(s, d, None);
        }
      case PollRouter(d) => PollRouterKeeps(s, d);
      case OperatorSend(body) => OperatorSendKeeps(s, body);
      case RestartRouter =>
      case _ => NodeStepKeeps(s, a);
    }
  }

  lemma {:induction false} InvAlways(actions: seq<Action>)
    ensures Inv(Run(actions))
  {
    if actions == [] {
    } else {
      InvAlways(actions[..|actions| - 1]);
      StepKeeps(Run(actions[..|actions| - 1]), actions[|actions| - 1]);
    }
  }

  // ----- the main results

  /** In every reachable state, with any losses, for every open dealer: the responses it received,
      those on the way back and the messages on the way up belong to different messages it has sent,
      in the order of sending, each response to the message it is tagged with; together with the
      losses they are as many as were sent; and the ROUTER saw the messages in order. Nothing is
      doubled, reordered or sent to another dealer, and nothing disappears but by a loss. */
  lemma Conservation(actions: seq<Action>, d: string)
    requires Node(Run(actions), d).open
    ensures var n := Node(Run(actions), d);
            && Rising(Numbers(n.consumed) + Numbers(n.down) + Indices(n.up), |n.sent|)
            && |Numbers(n.consumed)| + |Numbers(n.down)| + |n.up| + n.lostUp + n.lostDown == |n.sent|
            && WiresOk(n.consumed, n.sent) && WiresOk(n.down, n.sent) && LettersOk(n.up, n.sent)
            && Rising(Indices(n.handled) + Indices(n.up), |n.sent|) && LettersOk(n.handled, n.sent)
  {
    InvAlways(actions);
    var n := Node(Run(actions), d);
    assert Line(n) == Numbers(n.consumed) + Numbers(n.down) + Indices(n.up);
  }

  lemma {:induction false} TextsAt(ws: seq<Wire>, sent: seq<string>)
    requires WiresOk(ws, sent)
    ensures |Texts(ws)| == |Numbers(ws)|
    ensures forall k | 0 <= k < |Texts(ws)| ::
              Numbers(ws)[k] < |sent| && Texts(ws)[k] == ResponseTo(sent[Numbers(ws)[k]])
  {
    if ws == [] {
    } else {
      assert ws[0] in ws && forall w | w in ws[1..] :: w in ws;
      TextsAt(ws[1..], sent);
      if ws[0].Auto? {
        assert Texts(ws)[1..] == Texts(ws[1..]) && Numbers(ws)[1..] == Numbers(ws[1..]);
      }
    }
  }

  lemma {:induction false} AnswersAt(ls: seq<Letter>, sent: seq<string>)
    requires LettersOk(ls, sent)
    ensures |Answers(ls)| == |Indices(ls)|
    ensures forall k | 0 <= k < |Answers(ls)| ::
              Indices(ls)[k] < |sent| && Answers(ls)[k] == ResponseTo(sent[Indices(ls)[k]])
  {
    if ls == [] {
    } else {
      assert ls[0] in ls;
      AnswersAt(ls[1..], sent);
    }
  }

  /** The texts received, under way and still to come, one behind the other, answer the line. */
  lemma LineTexts(n: DealerNode, ops: nat)
    requires TextsOk(n, ops)
    ensures var texts := Texts(n.consumed) + (Texts(n.down) + Answers(n.up));
            && |texts| == |Line(n)|
            && forall k | 0 <= k < |texts| :: Line(n)[k] < |n.sent| && texts[k] == ResponseTo(n.sent[Line(n)[k]])
  {
    TextsAt(n.consumed, n.sent);
    TextsAt(n.down, n.sent);
    AnswersAt(n.up, n.sent);
  }

  lemma LosslessTexts(n: DealerNode, ops: nat)
    requires TextsOk(n, ops) && OrderOk(n) && CountsOk(n) && n.open && Lossless(n)
    ensures var texts := Texts(n.consumed) + Texts(n.down) + Answers(n.up);
            |texts| == |n.sent| && forall k | 0 <= k < |n.sent| :: texts[k] == ResponseTo(n.sent[k])
  {
    LosslessLine(n);
    LineTexts(n, ops);
    assert Texts(n.consumed) + Texts(n.down) + Answers(n.up) == Texts(n.consumed) + (Texts(n.down) + Answers(n.up));
  }

  lemma LosslessSeen(n: DealerNode, ops: nat)
    requires TextsOk(n, ops) && OrderOk(n) && CountsOk(n) && n.open && Lossless(n)
    ensures |n.handled + n.up| == |n.sent|
    ensures forall k | 0 <= k < |n.sent| :: (n.handled + n.up)[k] == Letter(k, n.sent[k])
  {
    var seen := n.handled + n.up;
    IndicesAppend(n.handled, n.up);
    IndicesLength(seen);
    FullListCounts(Indices(seen));
    forall k | 0 <= k < |n.sent|
      ensures seen[k] == Letter(k, n.sent[k])
    {
      IndicesAt(seen, k);
      assert seen[k] in seen && LetterOk(seen[k], n.sent);
    }
  }

  lemma LosslessLists(n: DealerNode, ops: nat)
    requires TextsOk(n, ops) && OrderOk(n) && CountsOk(n) && n.open && Lossless(n)
    ensures var texts := Texts(n.consumed) + Texts(n.down) + Answers(n.up);
            |texts| == |n.sent| && forall k | 0 <= k < |n.sent| :: texts[k] == ResponseTo(n.sent[k])
    ensures |Numbers(n.consumed) + Numbers(n.down) + Indices(n.up)| == |n.sent|
    ensures Counting(Numbers(n.consumed) + Numbers(n.down) + Indices(n.up))
    ensures |n.handled + n.up| == |n.sent|
    ensures forall k | 0 <= k < |n.sent| :: (n.handled + n.up)[k] == Letter(k, n.sent[k])
  {
    LosslessTexts(n, ops);
    LosslessSeen(n, ops);
    LosslessLine(n);
    Assoc(Numbers(n.consumed), Numbers(n.down), Indices(n.up));
  }

  /** Where nothing was lost the lists are complete: the texts of the responses received, then of those
      on the way, then the answers to the messages still on the way up are the responses to everything
      sent, in order; they answer messages 0, 1, 2, ... up to the last one sent; and the ROUTER has
      emitted the sent bodies one by one. */
  lemma {:induction false} LosslessConservation(actions: seq<Action>, d: string)
    requires Node(Run(actions), d).open && Lossless(Node(Run(actions), d))
    ensures var n := Node(Run(actions), d);
            var texts := Texts(n.consumed) + Texts(n.down) + Answers(n.up);
            && |texts| == |n.sent| && (forall k | 0 <= k < |n.sent| :: texts[k] == "Response to: " + n.sent[k])
            && |Numbers(n.consumed) + Numbers(n.down) + Indices(n.up)| == |n.sent|
            && Counting(Numbers(n.consumed) + Numbers(n.down) + Indices(n.up))
            && |n.handled + n.up| == |n.sent|
            && forall k | 0 <= k < |n.sent| :: (n.handled + n.up)[k] == Letter(k, n.sent[k])
  {
    InvAlways(actions);
    LosslessLists(Node(Run(actions), d), Run(actions).operatorSends);
  }

  lemma LosslessStep(s: Net, d: string, a: Action)
    requires NamesOk(s) && Lossless(Node(s, d)) && (a.LoseUp? || a.LoseDown? ==> a.d != d)
    ensures Lossless(Node(Do(s, a), d))
  {
    if a.PollRouter? && Node(s, a.d).up != [] {
      PollRouterEffect(s, a.d);
    }
  }

  /** A run in which no step loses anything of the dealer is such a run, ROUTER restarts included. */
  lemma {:induction false} NothingLost(actions: seq<Action>, d: string)
    requires forall i | 0 <= i < |actions| :: actions[i].LoseUp? || actions[i].LoseDown? ==> actions[i].d != d
    ensures Lossless(Node(Run(actions), d))
  {
    if actions == [] {
      assert Node(Init(), d) == NO_NODE;
    } else {
      var front := actions[..|actions| - 1];
      NothingLost(front, d);
      InvAlways(front);
      LosslessStep(Run(front), d, actions[|actions| - 1]);
    }
  }

  /** For any dealer, closed ones included, and any losses, the automatic responses received by
      `execute` or by the poll thread answer messages of its own in the order of sending, none
      twice; and the k-th answers the k-th message as long as nothing was lost. */
  lemma ResponsesInOrder(actions: seq<Action>, d: string, k: nat)
    requires k < |Numbers(Node(Run(actions), d).consumed)|
    ensures var n := Node(Run(actions), d);
            && Rising(Numbers(n.consumed), |n.sent|) && WiresOk(n.consumed, n.sent)
            && k <= Numbers(n.consumed)[k]
            && (Lossless(n) ==> Numbers(n.consumed)[k] == k)
  {
    InvAlways(actions);
    var n := Node(Run(actions), d);
    RisingPrefix(Numbers(n.consumed), InFlight(n), |n.sent|);
    RisingAt(Numbers(n.consumed), |n.sent|, k, k);
  }

  /** Every finished `execute` on a DEALER, under every race with the poll thread and every loss,
      returned its own body (a time-out), or an operator's text, or the response to a message its
      dealer sent no later than its own; to its own message if nothing was under way when it sent. */
  lemma Attribution(actions: seq<Action>, i: nat)
    requires i < |Run(actions).results|
    ensures var r := Run(actions).results[i];
            var n := Node(Run(actions), r.dealer);
            && r.index < |n.sent| && n.sent[r.index] == r.body
            && match r.answer
               case None => r.result == Ok(r.body)
               case Some(Operator(text)) => r.result == Ok(text) && Run(actions).operatorSends > 0
               case Some(Auto(k, _)) =>
                 k <= r.index && r.result == Ok("Response to: " + n.sent[k]) && (r.idle ==> k == r.index)
  {
    InvAlways(actions);
  }

  lemma {:induction false} NoOperatorSends(actions: seq<Action>)
    requires forall i | 0 <= i < |actions| :: !actions[i].OperatorSend?
    ensures Run(actions).operatorSends == 0
  {
    if actions == [] {
    } else {
      var before := actions[..|actions| - 1];
      var a := actions[|actions| - 1];
      NoOperatorSends(before);
      InvAlways(before);
      if a.PollRouter? && Node(Run(before), a.d).up != [] {
        PollRouterEffect(Run(before), a.d);
      }
    }
  }

  /** Without operator sends a call returns its own body after a time-out and otherwise a response to
      a message of its dealer, sent no later than its own; with nothing under way when it sent, its
      own body after a time-out and otherwise the response to its own body. */
  lemma AttributionWithoutOperator(actions: seq<Action>, i: nat)
    requires forall j | 0 <= j < |actions| :: !actions[j].OperatorSend?
    requires i < |Run(actions).results|
    ensures var r := Run(actions).results[i];
            var n := Node(Run(actions), r.dealer);
            && r.index < |n.sent| && n.sent[r.index] == r.body
            && (r.answer.None? ==> r.result == Ok(r.body))
            && (r.answer.Some? ==> exists k | 0 <= k <= r.index :: r.result == Ok("Response to: " + n.sent[k]))
            && (r.answer.Some? && r.idle ==> r.result == Ok("Response to: " + r.body))
  {
    NoOperatorSends(actions);
    Attribution(actions, i);
  }

  /** As long as the ROUTER has handled no message since it was configured, what the operator sends
      reaches nobody. */
  lemma OperatorNeedsASender(s: Net, body: string)
    requires NamesOk(s) && s.identity == ROUTER_DEFAULT_IDENTITY
    ensures Do(s, OperatorSend(body)).nodes == s.nodes
  {
    assert ROUTER_DEFAULT_IDENTITY[0] != DEALER_PREFIX[0];
  }

  /** After it has handled a message of an open dealer, what the operator sends goes there. */
  lemma OperatorAnswersLastSender(s: Net, d: string, body: string)
    requires NamesOk(s) && d in s.nodes && s.nodes[d].open && s.nodes[d].up != []
    ensures var handled := Do(s, PollRouter(d));
            var n := Node(handled, d);
            Do(handled, OperatorSend(body)).nodes ==
            handled.nodes[d := n.(down := n.down + [Operator(body)])]
  {
    PollRouterEffect(s, d);
    assert d != "";
  }

  // ----- when a call is certain to get the answer to its own message

  lemma {:induction false} RunAppend(s: Net, a: seq<Action>, b: seq<Action>)
    ensures RunFrom(s, a + b) == RunFrom(RunFrom(s, a), b)
  {
    if b == [] {
      assert a + b == a;
    } else {
      var front := b[..|b| - 1];
      RunAppend(s, a, front);
      assert (a + b)[..|a + b| - 1] == a + front;
    }
  }

  lemma RunOne(s: Net, a: Action)
    ensures RunFrom(s, [a]) == Do(s, a)
  {
  }

  /** Whatever happens after d's next `execute`, a response it returns answers its own message. */
  ghost predicate OwnAnswerOnly(actions: seq<Action>, d: string) {
    var m := |Node(Run(actions), d).sent|;
    forall body, more, i ::
      0 <= i < |Run(actions + [Send(d, body)] + more).results| ==>
        var r := Run(actions + [Send(d, body)] + more).results[i];
        r.dealer == d && r.index == m && r.answer.Some? && r.answer.value.Auto? ==> r.answer.value.index == m
  }

  predicate IdleAt(s: Net, d: string, m: nat) {
    && m < |Node(s, d).sent|
    && (Node(s, d).call.Some? && Node(s, d).call.value.index == m ==> Node(s, d).call.value.idle)
    && forall i | 0 <= i < |s.results| ::
         s.results[i].dealer == d && s.results[i].index == m ==> s.results[i].idle
  }

  /** A call that is made with nothing under way. */
  lemma SendIsIdle(s: Net, d: string, body: string)
    requires NamesOk(s) && ResultsOk(s.results, s.nodes, s.operatorSends)
    requires Node(s, d).open && Node(s, d).call.None? && InFlight(Node(s, d)) == []
    ensures NamesOk(Do(s, Send(d, body))) && IdleAt(Do(s, Send(d, body)), d, |Node(s, d).sent|)
  {
    forall i | 0 <= i < |s.results|
      ensures s.results[i].dealer == d ==> s.results[i].index < |Node(s, d).sent|
    {
      assert s.results[i] in s.results;
    }
  }

  lemma IdleStep(s: Net, d: string, m: nat, a: Action)
    requires NamesOk(s) && IdleAt(s, d, m)
    ensures NamesOk(Do(s, a)) && IdleAt(Do(s, a), d, m)
  {
    if a.PollRouter? && Node(s, a.d).up != [] {
      PollRouterEffect(s, a.d);
    }
  }

  lemma {:induction false} IdleStays(s: Net, more: seq<Action>, d: string, m: nat)
    requires NamesOk(s) && IdleAt(s, d, m)
    ensures NamesOk(RunFrom(s, more)) && IdleAt(RunFrom(s, more), d, m)
  {
    if more == [] {
    } else {
      var before := RunFrom(s, more[..|more| - 1]);
      IdleStays(s, more[..|more| - 1], d, m);
      IdleStep(before, d, m, more[|more| - 1]);
    }
  }

  /** With a response of d on the way and a call waiting, the poll thread can clear operator texts
      and the call then receives that response. */
  lemma {:induction false} DrainAndReceive(s: Net, d: string) returns (more: seq<Action>)
    requires Node(s, d).open && Node(s, d).call.Some? && Numbers(Node(s, d).down) != []
    ensures var t := RunFrom(s, more);
            var n := Node(s, d);
            && |t.results| == |s.results| + 1
            && var r := t.results[|s.results|];
               && r.dealer == d && r.index == n.call.value.index
               && r.answer.Some? && r.answer.value.Auto? && r.answer.value.index == Numbers(n.down)[0]
    decreases |Node(s, d).down|
  {
    var n := Node(s, d);
    if n.down[0].Auto? {
      more := [Receive(d)];
      RunOne(s, Receive(d));
    } else {
      var rest := DrainAndReceive(Do(s, PollDealer(d)), d);
      more := [PollDealer(d)] + rest;
      RunAppend(s, [PollDealer(d)], rest);
      RunOne(s, PollDealer(d));
    }
  }

  /** With a message of d under way, at most one turn of the ROUTER puts a response on the way. */
  lemma Awaken(s: Net, d: string) returns (wake: seq<Action>)
    requires NamesOk(s) && Node(s, d).open && InFlight(Node(s, d)) != []
    ensures var t := RunFrom(s, wake);
            && t.results == s.results && Node(t, d).open
            && Numbers(Node(t, d).down) != [] && Numbers(Node(t, d).down)[0] == InFlight(Node(s, d))[0]
            && Node(t, d).call == Node(s, d).call
  {
    var n := Node(s, d);
    if Numbers(n.down) != [] {
      wake := [];
    } else {
      wake := [PollRouter(d)];
      RunOne(s, PollRouter(d));
      PollRouterEffect(s, d);
      AnsweredLine(n);
    }
  }

  /** Whatever is under way was sent. */
  lemma FirstUnderWay(actions: seq<Action>, d: string)
    requires InFlight(Node(Run(actions), d)) != []
    ensures NamesOk(Run(actions)) && InFlight(Node(Run(actions), d))[0] < |Node(Run(actions), d).sent|
  {
    InvAlways(actions);
    var n := Node(Run(actions), d);
    RisingAt(Line(n), |n.sent|, |Numbers(n.consumed)|, |Numbers(n.consumed)|);
  }

  lemma SendKeepsFirst(n: DealerNode, d: string, body: string)
    requires InFlight(n) != []
    ensures InFlight(AfterSend(n, d, body)) != [] && InFlight(AfterSend(n, d, body))[0] == InFlight(n)[0]
  {
    IndicesAppend(n.up, [Letter(|n.sent|, body)]);
  }

  /** A call that waits while something is under way can be handed the response to the first of it. */
  lemma StaleRun(s: Net, d: string) returns (more: seq<Action>)
    requires NamesOk(s) && Node(s, d).open && Node(s, d).call.Some? && InFlight(Node(s, d)) != []
    ensures var t := RunFrom(s, more);
            && |t.results| == |s.results| + 1
            && var r := t.results[|s.results|];
               && r.dealer == d && r.index == Node(s, d).call.value.index
               && r.answer.Some? && r.answer.value.Auto? && r.answer.value.index == InFlight(Node(s, d))[0]
  {
    var wake := Awaken(s, d);
    var rest := DrainAndReceive(RunFrom(s, wake), d);
    more := wake + rest;
    RunAppend(s, wake, rest);
  }

  /** With something under way, d's next call can be handed the response to an earlier message. */
  lemma StaleAnswer(actions: seq<Action>, d: string, body: string)
    requires var n := Node(Run(actions), d);
             n.open && n.call.None? && InFlight(n) != []
    ensures !OwnAnswerOnly(actions, d)
  {
    var s0 := Run(actions);
    FirstUnderWay(actions, d);
    SendKeepsFirst(Node(s0, d), d, body);
    var more := StaleRun(Do(s0, Send(d, body)), d);
    RunAppend(Init(), actions, [Send(d, body)]);
    RunOne(s0, Send(d, body));
    RunAppend(Init(), actions + [Send(d, body)], more);
    assert Run(actions + [Send(d, body)] + more).results[|s0.results|].answer.value.index < |Node(s0, d).sent|;
  }

  lemma RunThree(s: Net, a: Action, b: Action, c: Action)
    ensures RunFrom(s, [a, b, c]) == Do(Do(Do(s, a), b), c)
  {
    assert [a, b, c][..2] == [a, b] && [a, b][..1] == [a];
    RunOne(s, a);
    assert RunFrom(s, [a, b]) == Do(RunFrom(s, [a]), b);
  }

  /** The case is met: one `execute` that times out leaves its message under way, ... */
  lemma TimeOutLeavesAMessage()
    ensures var d := "DEALER-1";
            var s := Run([Join(d), Send(d, "a"), TimeOut(d)]);
            && Node(s, d).open && Node(s, d).call.None? && Node(s, d).up == [Letter(0, "a")]
            && Node(s, d).down == [] && InFlight(Node(s, d)) == [0] && |s.results| == 1
  {
    var d := "DEALER-1";
    RunThree(Init(), Join(d), Send(d, "a"), TimeOut(d));
    IndicesOne(Letter(0, "a"));
    assert Numbers([]) == [];
  }

  lemma SecondCall(s: Net, d: string)
    requires NamesOk(s) && Node(s, d).open && Node(s, d).call.None?
    requires Node(s, d).up == [Letter(0, "a")] && Node(s, d).down == [] && |s.results| == 1
    ensures var t := RunFrom(s, [Send(d, "b"), PollRouter(d), Receive(d)]);
            |t.results| == 2 && t.results[1].body == "b" && t.results[1].result == Ok("Response to: a")
  {
    RunThree(s, Send(d, "b"), PollRouter(d), Receive(d));
    PollRouterEffect(Do(s, Send(d, "b")), d);
    assert ResponseTo("a") == "Response to: a";
  }

  /** ... and the next one returns the response to it. */
  lemma StaleAnswerHappens()
    ensures var d := "DEALER-1";
            var before := [Join(d), Send(d, "a"), TimeOut(d)];
            && !OwnAnswerOnly(before, d)
            && var s := Run(before + [Send(d, "b"), PollRouter(d), Receive(d)]);
               |s.results| == 2 && s.results[1].body == "b" && s.results[1].result == Ok("Response to: a")
  {
    var d := "DEALER-1";
    var before := [Join(d), Send(d, "a"), TimeOut(d)];
    TimeOutLeavesAMessage();
    StaleAnswer(before, d, "b");
    FirstUnderWay(before, d);
    RunAppend(Init(), before, [Send(d, "b"), PollRouter(d), Receive(d)]);
    SecondCall(Run(before), d);
  }

  /** A DEALER's next `execute` can be relied on to return the answer to its own message exactly
      when no earlier message and no response to one is under way. */
  lemma OwnAnswerIff(actions: seq<Action>, d: string)
    requires Node(Run(actions), d).open && Node(Run(actions), d).call.None?
    ensures OwnAnswerOnly(actions, d) <==> InFlight(Node(Run(actions), d)) == []
  {
    InvAlways(actions);
    var n := Node(Run(actions), d);
    if InFlight(n) != [] {
      StaleAnswer(actions, d, "");
    } else {
      forall body, more, i | 0 <= i < |Run(actions + [Send(d, body)] + more).results|
        ensures var r := Run(actions + [Send(d, body)] + more).results[i];
                r.dealer == d && r.index == |n.sent| && r.answer.Some? && r.answer.value.Auto? ==>
                  r.answer.value.index == |n.sent|
      {
        var sent := actions + [Send(d, body)];
        RunAppend(Init(), actions, [Send(d, body)]);
        RunOne(Run(actions), Send(d, body));
        SendIsIdle(Run(actions), d, body);
        RunAppend(Init(), sent, more);
        IdleStays(Run(sent), more, d, |n.sent|);
        Attribution(sent + more, i);
      }
    }
  }

  /** Where nothing was lost that is the case exactly when as many responses were received as
      messages were sent. */
  lemma AllAnswered(actions: seq<Action>, d: string)
    requires Node(Run(actions), d).open && Lossless(Node(Run(actions), d))
    ensures var n := Node(Run(actions), d);
            InFlight(n) == [] <==> |Numbers(n.consumed)| == |n.sent|
  {
    InvAlways(actions);
    LosslessLine(Node(Run(actions), d));
  }

  // ----- calls, answers and senders over a run

  lemma RunSnoc(actions: seq<Action>, a: Action)
    ensures Run(actions + [a]) == Do(Run(actions), a)
  {
    assert (actions + [a])[..|actions|] == actions;
  }

  /** The call that the action begins. */
  function Begun(s: Net, a: Action, d: string): seq<string> {
    if a.Send? && a.d == d && Node(s, d).open && Node(s, d).call.None? then [a.body] else []
  }

  /** The bodies with which `execute` was called on the dealer, in order; a call needs that it is open and
      that none waits. */
  function Called(actions: seq<Action>, d: string): seq<string> {
    if actions == [] then []
    else Called(actions[..|actions| - 1], d) + Begun(Run(actions[..|actions| - 1]), actions[|actions| - 1], d)
  }

  /** The bodies of its calls that have finished. */
  function Finished(results: seq<Return>, d: string): seq<string> {
    if results == [] then []
    else Finished(results[..|results| - 1], d) +
         (if results[|results| - 1].dealer == d then [results[|results| - 1].body] else [])
  }

  function Waiting(n: DealerNode): seq<string> {
    if n.call.Some? then [n.call.value.body] else []
  }

  /** The dealer's list of bodies grows by a call it begins; a step finishes no call, and then a call it
      begins waits, or it finishes one. */
  predicate CallMoves(s: Net, a: Action, d: string) {
    var t := Do(s, a);
    && Node(t, d).sent == Node(s, d).sent + Begun(s, a, d)
    && if t.results == s.results then Waiting(Node(t, d)) == Waiting(Node(s, d)) + Begun(s, a, d)
       else
         && |t.results| == |s.results| + 1 && t.results[..|s.results|] == s.results
         && Begun(s, a, d) == []
         && if t.results[|s.results|].dealer == d
            then Waiting(Node(t, d)) == [] && Waiting(Node(s, d)) == [t.results[|s.results|].body]
            else Waiting(Node(t, d)) == Waiting(Node(s, d))
  }

  lemma NodeCallMoves(s: Net, a: Action, d: string)
    requires NamesOk(s) && !a.PollRouter? && !a.OperatorSend?
    requires Node(s, d).call.Some? ==> Node(s, d).open
    ensures CallMoves(s, a, d)
  {
    assert Waiting(Node(s, d)) + [] == Waiting(Node(s, d)) && Node(s, d).sent + [] == Node(s, d).sent;
  }

  lemma RouterCallMoves(s: Net, a: Action, d: string)
    requires NamesOk(s) && (a.PollRouter? || a.OperatorSend?)
    ensures CallMoves(s, a, d)
  {
    assert Waiting(Node(s, d)) + [] == Waiting(Node(s, d)) && Node(s, d).sent + [] == Node(s, d).sent;
    if a.PollRouter? && Node(s, a.d).up != [] {
      PollRouterEffect(s, a.d);
    }
  }

  lemma CallMovesAlways(actions: seq<Action>, a: Action, d: string)
    ensures CallMoves(Run(actions), a, d)
  {
    InvAlways(actions);
    if a.PollRouter? || a.OperatorSend? {
      RouterCallMoves(Run(actions), a, d);
    } else {
      NodeCallMoves(Run(actions), a, d);
    }
  }

  lemma FinishedSnoc(results: seq<Return>, r: Return, d: string)
    ensures Finished(results + [r], d) == Finished(results, d) + (if r.dealer == d then [r.body] else [])
  {
    assert (results + [r])[..|results|] == results;
  }

  lemma FinishedStep(s: Net, a: Action, d: string)
    requires CallMoves(s, a, d)
    ensures Finished(Do(s, a).results, d) + Waiting(Node(Do(s, a), d)) ==
            Finished(s.results, d) + Waiting(Node(s, d)) + Begun(s, a, d)
  {
    var t := Do(s, a);
    if t.results != s.results {
      var r := t.results[|s.results|];
      assert t.results == s.results + [r];
      FinishedSnoc(s.results, r, d);
    }
  }

  /** What a dealer has sent are the bodies of its calls, in order, and every call finishes once or waits:
      the finished calls, and the one that waits, are those that were made, in order. */
  lemma {:induction false} CallsAccounted(actions: seq<Action>, d: string)
    ensures var n := Node(Run(actions), d);
            n.sent == Called(actions, d) == Finished(Run(actions).results, d) + Waiting(n)
  {
    if actions == [] {
      assert Node(Run(actions), d) == NO_NODE && Finished(Run(actions).results, d) == [];
    } else {
      var front, a := actions[..|actions| - 1], actions[|actions| - 1];
      CallsAccounted(front, d);
      CallMovesAlways(front, a, d);
      FinishedStep(Run(front), a, d);
    }
  }

  /** The call received an automatic response. */
  predicate GotResponse(r: Return) {
    r.answer.Some? && r.answer.value.Auto?
  }

  /** What finished calls have received their dealers have taken, and of two calls of a dealer the later
      one has received a later response. */
  predicate HandedOut(s: Net) {
    && (forall i | 0 <= i < |s.results| && GotResponse(s.results[i]) ::
          s.results[i].answer.value.index in Numbers(Node(s, s.results[i].dealer).consumed))
    && forall i, j | 0 <= i < j < |s.results| && s.results[i].dealer == s.results[j].dealer
                     && GotResponse(s.results[i]) && GotResponse(s.results[j]) ::
         s.results[i].answer.value.index < s.results[j].answer.value.index
  }

  lemma ConsumedGrows(s: Net, a: Action, d: string)
    requires NamesOk(s)
    ensures Numbers(Node(s, d).consumed) <= Numbers(Node(Do(s, a), d).consumed)
  {
    var n := Node(s, d);
    if a.PollRouter? && Node(s, a.d).up != [] {
      PollRouterEffect(s, a.d);
    }
    if n.down != [] {
      ConsumeKeepsLine(n);
    }
  }

  /** The next response is later than all that were received. */
  lemma NextIsLater(n: DealerNode)
    requires Rising(Line(n), |n.sent|) && n.down != [] && n.down[0].Auto?
    ensures forall k | k in Numbers(n.consumed) :: k < n.down[0].index
    ensures n.down[0].index in Numbers(Consume(n).consumed)
  {
    var c, x := Numbers(n.consumed), n.down[0].index;
    ConsumeKeepsLine(n);
    RisingPrefix(c + [x], InFlight(Consume(n)), |n.sent|);
    assert (c + [x])[..|c|] == c;
    RisingBounds(c, x);
    assert (c + [x])[|c|] == x;
  }

  lemma ReceiveEffect(s: Net, d: string)
    requires Node(s, d).call.Some? && Node(s, d).down != []
    ensures var t := Do(s, Receive(d));
            && |t.results| == |s.results| + 1 && t.results[..|s.results|] == s.results
            && t.results[|s.results|].dealer == d && t.results[|s.results|].answer == Some(Node(s, d).down[0])
            && Node(t, d).consumed == Consume(Node(s, d)).consumed
  {
  }

  lemma StillTaken(s: Net, a: Action)
    requires NamesOk(s) && HandedOut(s)
    ensures forall i | 0 <= i < |s.results| && GotResponse(s.results[i]) ::
              s.results[i].answer.value.index in Numbers(Node(Do(s, a), s.results[i].dealer).consumed)
  {
    forall i | 0 <= i < |s.results| && GotResponse(s.results[i])
      ensures s.results[i].answer.value.index in Numbers(Node(Do(s, a), s.results[i].dealer).consumed)
    {
      ConsumedGrows(s, a, s.results[i].dealer);
    }
  }

  /** One more finished call. */
  lemma OneMoreHandedOut(s: Net, t: Net)
    requires HandedOut(s) && |t.results| == |s.results| + 1 && t.results[..|s.results|] == s.results
    requires forall i | 0 <= i < |s.results| && GotResponse(s.results[i]) ::
               s.results[i].answer.value.index in Numbers(Node(t, s.results[i].dealer).consumed)
    requires var r := t.results[|s.results|];
             GotResponse(r) ==>
               && r.answer.value.index in Numbers(Node(t, r.dealer).consumed)
               && forall i | 0 <= i < |s.results| && s.results[i].dealer == r.dealer && GotResponse(s.results[i]) ::
                    s.results[i].answer.value.index < r.answer.value.index
    ensures HandedOut(t)
  {
    assert forall i | 0 <= i < |s.results| :: t.results[i] == s.results[i];
  }

  /** A receive hands the next response to the call that waits. */
  lemma ReceiveHandsOut(s: Net, d: string)
    requires NamesOk(s) && HandedOut(s)
    requires Node(s, d).call.Some? && Node(s, d).down != [] && Rising(Line(Node(s, d)), |Node(s, d).sent|)
    ensures HandedOut(Do(s, Receive(d)))
  {
    ReceiveEffect(s, d);
    StillTaken(s, Receive(d));
    if Node(s, d).down[0].Auto? {
      NextIsLater(Node(s, d));
    }
    OneMoreHandedOut(s, Do(s, Receive(d)));
  }

  /** A step that is no receive hands out nothing. */
  lemma OtherResults(s: Net, a: Action)
    requires NamesOk(s) && !a.Receive?
    ensures var t := Do(s, a);
            t.results == s.results ||
            (&& |t.results| == |s.results| + 1 && t.results[..|s.results|] == s.results
             && !GotResponse(t.results[|s.results|]))
  {
    if a.PollRouter? && Node(s, a.d).up != [] {
      PollRouterEffect(s, a.d);
    }
  }

  lemma OthersHandOutNothing(s: Net, a: Action)
    requires NamesOk(s) && HandedOut(s) && !a.Receive?
    ensures HandedOut(Do(s, a))
  {
    OtherResults(s, a);
    StillTaken(s, a);
    if Do(s, a).results != s.results {
      OneMoreHandedOut(s, Do(s, a));
    }
  }

  lemma {:induction false} HandedOutAlways(actions: seq<Action>)
    ensures HandedOut(Run(actions))
  {
    if actions == [] {
    } else {
      var front, a := actions[..|actions| - 1], actions[|actions| - 1];
      var s := Run(front);
      HandedOutAlways(front);
      InvAlways(front);
      if a.Receive? && Node(s, a.d).call.Some? && Node(s, a.d).down != [] {
        ReceiveHandsOut(s, a.d);
      } else if !a.Receive? {
        OthersHandOutNothing(s, a);
      }
    }
  }

  /** With any losses and however many calls time out, no response is returned twice: of two calls of a
      dealer that received responses, the later call received the later one. */
  lemma AnswersRise(actions: seq<Action>, i: nat, j: nat)
    requires i < j < |Run(actions).results|
    requires Run(actions).results[i].dealer == Run(actions).results[j].dealer
    requires GotResponse(Run(actions).results[i]) && GotResponse(Run(actions).results[j])
    ensures Run(actions).results[i].answer.value.index < Run(actions).results[j].answer.value.index
  {
    HandedOutAlways(actions);
  }

  /** What a call returns is taken from the socket, responses and operator texts alike. */
  lemma ReceiveTakes(actions: seq<Action>, d: string)
    requires Node(Run(actions), d).call.Some? && Node(Run(actions), d).down != []
    ensures var n := Node(Run(actions), d);
            var t := Run(actions + [Receive(d)]);
            && Node(t, d) == n.(down := n.down[1..], consumed := n.consumed + [n.down[0]], call := None)
            && |t.results| == |Run(actions).results| + 1
            && t.results[|Run(actions).results|].answer == Some(n.down[0])
  {
    RunSnoc(actions, Receive(d));
  }

  lemma ClosedStays(s: Net, d: string, a: Action)
    requires NamesOk(s) && d in s.nodes && !s.nodes[d].open && s.nodes[d].call.None?
    ensures d in Do(s, a).nodes
    ensures var n, t := s.nodes[d], Do(s, a).nodes[d];
            !t.open && t.sent == n.sent && t.consumed == n.consumed && t.call.None? && |t.up| <= |n.up|
  {
    if a.PollRouter? && Node(s, a.d).up != [] {
      PollRouterEffect(s, a.d);
    }
  }

  /** A dealer that leaves stays away: of its messages under way the first `kept` still may reach the
      ROUTER, and it neither sends nor receives anything more. */
  lemma {:induction false} LeftStaysAway(actions: seq<Action>, d: string, kept: nat, more: seq<Action>)
    requires Node(Run(actions), d).open && Node(Run(actions), d).call.None?
    ensures var n := Node(Run(actions), d);
            var t := Node(Run(actions + [Leave(d, kept)] + more), d);
            && d in Run(actions + [Leave(d, kept)] + more).nodes
            && !t.open && t.call.None? && t.sent == n.sent && t.consumed == n.consumed
            && |t.up| <= kept && |t.up| <= |n.up|
            && (more == [] ==> t.up <= n.up && (|t.up| == kept || t.up == n.up))
  {
    var left := actions + [Leave(d, kept)];
    if more == [] {
      RunSnoc(actions, Leave(d, kept));
      assert left + more == left;
    } else {
      var front, a := more[..|more| - 1], more[|more| - 1];
      LeftStaysAway(actions, d, kept, front);
      assert left + more == (left + front) + [a];
      RunSnoc(left + front, a);
      InvAlways(left + front);
      ClosedStays(Run(left + front), d, a);
    }
  }

  /** The dealer whose message the ROUTER handled last since it was configured. */
  function LastSender(actions: seq<Action>): Option<string> {
    if actions == [] then None
    else
      var front, a := actions[..|actions| - 1], actions[|actions| - 1];
      match a
      case PollRouter(d) => if Node(Run(front), d).up != [] then Some(d) else LastSender(front)
      case RestartRouter => None
      case _ => LastSender(front)
  }

  lemma ClientIsNobody(s: Net)
    requires NamesOk(s)
    ensures "Client" !in s.nodes && "" !in s.nodes
  {
    assert "Client"[0] != DEALER_PREFIX[0];
  }

  /** A step loses no node, and the identity changes with a message handled and a restart. */
  lemma IdentityStep(s: Net, a: Action)
    requires NamesOk(s) && s.identity != ""
    ensures s.nodes.Keys <= Do(s, a).nodes.Keys
    ensures Do(s, a).identity ==
            match a
            case PollRouter(d) => if Node(s, d).up != [] then d else s.identity
            case RestartRouter => "Client"
            case _ => s.identity
  {
    if a.PollRouter? && Node(s, a.d).up != [] {
      PollRouterEffect(s, a.d);
    }
  }

  lemma {:induction false} IdentityIsLastSender(actions: seq<Action>)
    ensures var sender := LastSender(actions);
            && Run(actions).identity == (if sender.Some? then sender.value else "Client")
            && (sender.Some? ==> sender.value in Run(actions).nodes)
  {
    if actions == [] {
    } else {
      var front, a := actions[..|actions| - 1], actions[|actions| - 1];
      IdentityIsLastSender(front);
      InvAlways(front);
      ClientIsNobody(Run(front));
      IdentityStep(Run(front), a);
    }
  }

  lemma OperatorSendEffect(s: Net, body: string)
    requires s.identity != ""
    ensures var n := Node(s, s.identity);
            Do(s, OperatorSend(body)).nodes ==
            if n.open then s.nodes[s.identity := n.(down := n.down + [Operator(body)])] else s.nodes
  {
  }

  /** Wherever a run has got to, what the operator sends goes to the dealer whose message the ROUTER
      handled last since it was configured, if that is still open, and otherwise to nobody. */
  lemma OperatorReaches(actions: seq<Action>, body: string)
    ensures var s, sender := Run(actions), LastSender(actions);
            var t := Do(s, OperatorSend(body));
            if sender.Some? && Node(s, sender.value).open
            then
              var n := Node(s, sender.value);
              t.nodes == s.nodes[sender.value := n.(down := n.down + [Operator(body)])]
            else t.nodes == s.nodes
  {
    IdentityIsLastSender(actions);
    InvAlways(actions);
    ClientIsNobody(Run(actions));
    OperatorSendEffect(Run(actions), body);
  }

  /** Where the k-th response on the way stands. */
  lemma {:induction false} NumberStands(ws: seq<Wire>, k: nat) returns (at: nat)
    requires k < |Numbers(ws)|
    ensures at < |ws| && ws[at].Auto? && |Numbers(ws[..at])| == k
  {
    if ws[0].Auto? && k == 0 {
      at := 0;
    } else {
      var rest := NumberStands(ws[1..], if ws[0].Auto? then k - 1 else k);
      at := rest + 1;
      assert ws[..at][1..] == ws[1..][..rest];
    }
  }

  lemma Split(p: seq<nat>, x: nat, q: seq<nat>, k: nat)
    requires k == |p|
    ensures (p + [x] + q)[..k] + (p + [x] + q)[k + 1..] == p + q
  {
  }

  lemma SplitRight(a: seq<nat>, b: seq<nat>, k: nat)
    requires k < |a|
    ensures (a + b)[..k] + (a + b)[k + 1..] == a[..k] + a[k + 1..] + b
  {
  }

  lemma SplitLeft(a: seq<nat>, b: seq<nat>, k: nat)
    requires |a| <= k < |a| + |b|
    ensures (a + b)[..k] + (a + b)[k + 1..] == a + (b[..k - |a|] + b[k - |a| + 1..])
  {
  }

  lemma DownCanGo(n: DealerNode, k: nat) returns (at: nat)
    requires k < |Numbers(n.down)|
    ensures at < |n.down| && n.down[at].Auto?
    ensures InFlight(DropDown(n, at)) == InFlight(n)[..k] + InFlight(n)[k + 1..]
  {
    at := NumberStands(n.down, k);
    NumbersWithout(n.down, at);
    NumbersOne(n.down[at]);
    Split(Numbers(n.down[..at]), n.down[at].index, Numbers(n.down[at + 1..]), k);
    SplitRight(Numbers(n.down), Indices(n.up), k);
  }

  lemma UpCanGo(n: DealerNode, k: nat)
    requires |Numbers(n.down)| <= k < |InFlight(n)|
    ensures k - |Numbers(n.down)| < |n.up|
    ensures InFlight(DropUp(n, k - |Numbers(n.down)|)) == InFlight(n)[..k] + InFlight(n)[k + 1..]
  {
    var at := k - |Numbers(n.down)|;
    IndicesLength(n.up);
    IndicesLength(n.up[..at]);
    IndicesWithout(n.up, at);
    Split(Indices(n.up[..at]), n.up[at].index, Indices(n.up[at + 1..]), at);
    SplitLeft(Numbers(n.down), Indices(n.up), k);
  }

  /** Of what is under way between a dealer and the ROUTER anything can be lost, alone. */
  lemma AnythingCanBeLost(actions: seq<Action>, d: string, k: nat) returns (loss: Action)
    requires k < |InFlight(Node(Run(actions), d))|
    ensures var n, t := Node(Run(actions), d), Node(Run(actions + [loss]), d);
            && InFlight(t) == InFlight(n)[..k] + InFlight(n)[k + 1..]
            && t.lostUp + t.lostDown == n.lostUp + n.lostDown + 1
            && t.sent == n.sent && t.consumed == n.consumed && t.handled == n.handled
  {
    var n := Node(Run(actions), d);
    if k < |Numbers(n.down)| {
      var at := DownCanGo(n, k);
      loss := LoseDown(d, at);
    } else {
      UpCanGo(n, k);
      loss := LoseUp(d, k - |Numbers(n.down)|);
    }
    RunSnoc(actions, loss);
  }
}
