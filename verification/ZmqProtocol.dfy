/** What one FlowDriver node does with one ZeroMQ message, as functions of the node's role.
    The handler class is proved against these functions, and the network models are built
    from them. */
module ZmqProtocol {
  import opened Outcomes

  datatype Pattern = ReqRep | PubSub | PushPull | DealerRouter

  datatype Role =
    | Requester | Replier
    | Publisher | Subscriber
    | Pusher | Puller
    | Dealer | Router

  function AvailableRoles(pattern: Pattern): seq<Role> {
    match pattern
    case ReqRep => [Requester, Replier]
    case PubSub => [Publisher, Subscriber]
    case PushPull => [Pusher, Puller]
    case DealerRouter => [Dealer, Router]
  }

  /** The roles that bind; the others connect. */
  predicate Binds(role: Role) {
    role == Publisher || role == Puller || role == Replier || role == Router
  }

  /** A message is a list of frames. */
  type Frame = string

  type Message = seq<Frame>

  const RESPONSE_PREFIX := "Response to: "
  const REPLY_PREFIX := "Reply to: "
  const ROUTER_DEFAULT_IDENTITY := "Client"
  const ROUTER_FALLBACK_IDENTITY := "Game"

  function ResponseTo(body: string): string {
    RESPONSE_PREFIX + body
  }

  function ReplyTo(body: string): string {
    REPLY_PREFIX + body
  }

  /** What handling one message does: whether the message leaves the socket, the identity
      remembered afterwards, the texts emitted to the user interface and the messages sent. */
  datatype Reaction = Reaction(consumed: bool, identity: string, emitted: seq<string>, sent: seq<Message>)

  /** The poll thread's handler for a message that waits on the socket. A ROUTER answers the
      sender of the message it has just read; a REQUESTER leaves the reply for `execute`. */
  function OnMessage(role: Role, identity: string, m: Message): Reaction
    requires m != []
  {
    match role
    case Router =>
      if |m| < 2 then Reaction(true, identity, [], [])
      else Reaction(true, m[0], [m[1]], if m[0] == "" then [] else [[m[0], ResponseTo(m[1])]])
    case Dealer => Reaction(true, identity, [m[0]], [])
    case Replier => Reaction(true, identity, [m[0]], [[ReplyTo(m[0])]])
    case Subscriber => Reaction(true, identity, [m[0]], [])
    case Puller => Reaction(true, identity, [m[0]], [])
    case _ => Reaction(false, identity, [], [])
  }

  /** The identity a ROUTER addresses when the operator sends through `execute`. */
  function OperatorTarget(identity: string): string {
    if identity == "" then ROUTER_FALLBACK_IDENTITY else identity
  }

  /** The message that `execute` sends. */
  function Outgoing(role: Role, identity: string, body: string): Message {
    if role == Router then [OperatorTarget(identity), body] else [body]
  }

  /** The roles whose `execute` waits for an answer. */
  predicate AwaitsAnswer(role: Role) {
    role == Dealer || role == Requester
  }

  /** What `execute` returns after a successful send; None is a receive that timed out. */
  function ExecuteResult(role: Role, body: string, answer: Option<string>): Result<string> {
    match answer
    case Some(text) => Ok(text)
    case None => if role == Requester then Err(Timeout) else Ok(body)
  }
}
