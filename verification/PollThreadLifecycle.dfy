/** `configure`, `cancel` and the destructor of `ZeroMQHandler` on the calling thread, statement by
    statement, against the poll threads they start and join. */
module PollThreadLifecycle {
  import opened Outcomes
  import opened ZmqProtocol

  /** m_pattern, m_role and m_endpoint. */
  datatype Config = Config(pattern: Pattern, role: Role, endpoint: string)

  /** Where a poll thread is in its loop. `LeftNoSocket` is the `break` on a null socket. */
  datatype PollPc = TestRunning | TestSocket | Polling | Handling | LeftNoSocket | Finished

  /** `requested` is the configuration the thread was started for; `bodiesAfterStop` counts the
      loop bodies it completed while m_running was cleared. */
  datatype Thread = Thread(pc: PollPc, joined: bool, requested: Config, bodiesAfterStop: nat)

  /** `attaches` says whether bind or connect will work. */
  datatype Operation = ToConfigure(config: Config, attaches: bool) | ToCancel | ToDestroy

  /** The statements of the calling thread, in the order they run: all of `close`, then the rest
      of `configure`, then its `startPolling`, which stops once more before it starts. */
  datatype CloseStatement = ClearRunning | Join | ResetThread | ReleaseSocket

  datatype WriteStatement = WritePattern | WriteRole | WriteEndpoint | CreateSocket | Attach

  datatype StartStatement =
    | ClearRunningAgain | JoinAgain | ResetThreadAgain
    | TestForSocket | SetRunning | Spawn | SetConnected

  datatype Statement = Close(close: CloseStatement) | Write(write: WriteStatement) | Start(start: StartStatement)

  datatype Caller = Idle | At(operation: Operation, statement: Statement) | Gone

  datatype State = State(
    running: bool,
    socket: Option<Config>,     // the configuration a socket was created for; None is null
    config: Config,
    handle: Option<nat>,        // m_pollThread, as an index into `threads`
    threads: seq<Thread>,       // every poll thread ever started
    caller: Caller)

  datatype Action =
    | Begin(operation: Operation)
    | Step                             // next statement of the caller
    | Poll(thread: nat, event: bool)   // next statement of a poll thread; whether poll reports a message

  function Init(): State {
    State(false, None, Config(ReqRep, Requester, ""), None, [], Idle)
  }

  predicate Alive(t: Thread) {
    t.pc != LeftNoSocket && t.pc != Finished
  }

  /** `join` returns: there is no thread, or it has finished. */
  predicate CanJoin(s: State) {
    s.handle.Some? && s.handle.value < |s.threads| ==> !Alive(s.threads[s.handle.value])
  }

  function Goto(s: State, statement: Statement): State
    requires s.caller.At?
  {
    s.(caller := At(s.caller.operation, statement))
  }

  function ClearFlag(s: State): State {
    s.(running := false)
  }

  function JoinThread(s: State): State {
    if s.handle.Some? && s.handle.value < |s.threads|
    then s.(threads := s.threads[s.handle.value := s.threads[s.handle.value].(joined := true)])
    else s
  }

  /** The thread object is destroyed, which ends the program if it still is joinable. */
  function ResetHandle(s: State): State {
    s.(handle := None)
  }

  function AdvanceClose(s: State, operation: Operation, statement: CloseStatement): State
    requires s.caller.At?
  {
    match statement
    case ClearRunning => Goto(ClearFlag(s), Close(Join))
    case Join => if CanJoin(s) then Goto(JoinThread(s), Close(ResetThread)) else s
    case ResetThread => Goto(ResetHandle(s), Close(ReleaseSocket))
    case ReleaseSocket =>
      var closed := s.(socket := None);
      match operation
      case ToConfigure(_, _) => Goto(closed, Write(WritePattern))
      case ToCancel => closed.(caller := Idle)
      case ToDestroy => closed.(caller := Gone)
  }

  function AdvanceWrite(s: State, config: Config, statement: WriteStatement, attaches: bool): State
    requires s.caller.At?
  {
    match statement
    case WritePattern => Goto(s.(config := s.config.(pattern := config.pattern)), Write(WriteRole))
    case WriteRole => Goto(s.(config := s.config.(role := config.role)), Write(WriteEndpoint))
    case WriteEndpoint => Goto(s.(config := s.config.(endpoint := config.endpoint)), Write(CreateSocket))
    case CreateSocket => Goto(s.(socket := Some(s.config)), Write(Attach))
    case Attach => if attaches then Goto(s, Start(ClearRunningAgain)) else s.(caller := Idle)
  }

  function AdvanceStart(s: State, config: Config, statement: StartStatement): State
    requires s.caller.At?
  {
    match statement
    case ClearRunningAgain => Goto(ClearFlag(s), Start(JoinAgain))
    case JoinAgain => if CanJoin(s) then Goto(JoinThread(s), Start(ResetThreadAgain)) else s
    case ResetThreadAgain => Goto(ResetHandle(s), Start(TestForSocket))
    case TestForSocket => Goto(s, Start(if s.socket.None? then SetConnected else SetRunning))
    case SetRunning => Goto(s.(running := true), Start(Spawn))
    case Spawn =>
      var started := Thread(TestRunning, false, config, 0);
      Goto(ResetHandle(s).(handle := Some(|s.threads|), threads := s.threads + [started]), Start(SetConnected))
    case SetConnected => s.(caller := Idle)
  }

  /** The caller's next statement; only `configure` gets past `close`. */
  function Advance(s: State): State
    requires s.caller.At?
  {
    match (s.caller.statement, s.caller.operation)
    case (Close(statement), operation) => AdvanceClose(s, operation, statement)
    case (Write(statement), ToConfigure(config, attaches)) => AdvanceWrite(s, config, statement, attaches)
    case (Start(statement), ToConfigure(config, _)) => AdvanceStart(s, config, statement)
    case _ => s
  }

  function BodyDone(s: State, t: Thread): Thread {
    t.(pc := TestRunning, bodiesAfterStop := t.bodiesAfterStop + (if s.running then 0 else 1))
  }

  /** A poll thread's next statement; the poll call and the handlers dereference m_socket. */
  function PollStep(s: State, i: nat, event: bool): State
    requires i < |s.threads|
  {
    var t := s.threads[i];
    match t.pc
    case TestRunning => s.(threads := s.threads[i := t.(pc := if s.running then TestSocket else Finished)])
    case TestSocket => s.(threads := s.threads[i := t.(pc := if s.socket.Some? then Polling else LeftNoSocket)])
    case Polling => s.(threads := s.threads[i := if event then t.(pc := Handling) else BodyDone(s, t)])
    case Handling => s.(threads := s.threads[i := BodyDone(s, t)])
    case _ => s
  }

  /** `configure` is given only roles of the pattern. */
  predicate Allowed(operation: Operation) {
    operation.ToConfigure? ==> operation.config.role in AvailableRoles(operation.config.pattern)
  }

  /** One step. An action that is not possible in a state leaves it alone. */
  function Do(s: State, a: Action): State {
    match a
    case Begin(operation) =>
      if s.caller == Idle && Allowed(operation)
      then s.(caller := At(operation, Close(ClearRunning))) else s
    case Step => if s.caller.At? then Advance(s) else s
    case Poll(i, event) => if i < |s.threads| then PollStep(s, i, event) else s
  }

  function RunFrom(s: State, actions: seq<Action>): State {
    if actions == [] then s
    else Do(RunFrom(s, actions[..|actions| - 1]), actions[|actions| - 1])
  }

  function Run(actions: seq<Action>): State {
    RunFrom(Init(), actions)
  }

  // ----- the invariant

  /** The caller's position allows a live poll thread. */
  predicate MayPoll(c: Caller) {
    c == Idle || (c.At? && c.statement in {Close(ClearRunning), Close(Join), Start(SetConnected)})
  }

  /** The caller's position allows m_running to be set. */
  predicate MayRun(c: Caller) {
    c == Idle || (c.At? && c.statement in {Close(ClearRunning), Start(Spawn), Start(SetConnected)})
  }

  predicate CloseOk(s: State, statement: CloseStatement) {
    match statement
    case ResetThread => s.handle.Some? && s.handle.value < |s.threads| ==> s.threads[s.handle.value].joined
    case ReleaseSocket => s.handle.None?
    case _ => true
  }

  /** Nothing runs while the settings are written, one after the other. */
  predicate WriteOk(s: State, config: Config, statement: WriteStatement) {
    && s.handle.None?
    && (statement == Attach ==> s.config == config && s.socket == Some(config))
    && (statement != Attach ==> s.socket.None?)
    && (statement != WritePattern ==> s.config.pattern == config.pattern)
    && (statement == WriteEndpoint || statement == CreateSocket ==> s.config.role == config.role)
    && (statement == CreateSocket ==> s.config.endpoint == config.endpoint)
  }

  predicate StartOk(s: State, config: Config, statement: StartStatement) {
    && s.config == config && s.socket == Some(config)
    && (statement != SetConnected ==> s.handle.None?)
    && (statement == Spawn || statement == SetConnected ==> s.running)
  }

  /** What each position of the caller guarantees. */
  predicate CallerOk(s: State) {
    match s.caller
    case Idle => true
    case Gone => s.handle.None? && s.socket.None?
    case At(_, Close(statement)) => CloseOk(s, statement)
    case At(ToConfigure(config, _), Write(statement)) => WriteOk(s, config, statement)
    case At(ToConfigure(config, attaches), Start(statement)) => attaches && StartOk(s, config, statement)
    case _ => false
  }

  /** A live thread is the one m_pollThread holds, runs against the socket and configuration it
      was started for, and the caller is not past its join. */
  predicate ThreadOk(s: State, i: nat)
    requires i < |s.threads|
  {
    var t := s.threads[i];
    && t.pc != LeftNoSocket
    && (t.joined ==> !Alive(t))
    && (Alive(t) ==>
          && s.handle == Some(i)
          && s.socket == Some(t.requested) && s.config == t.requested
          && MayPoll(s.caller)
          && (!s.running ==> s.caller.At? && s.caller.statement == Close(Join))
          && t.bodiesAfterStop <= (if s.running || t.pc in [TestSocket, Polling, Handling] then 0 else 1))
    && t.bodiesAfterStop <= 1
    && (!t.joined ==> s.handle == Some(i))
  }

  ghost predicate Inv(s: State) {
    && (s.handle.Some? ==> s.handle.value < |s.threads|)
    && (s.running ==> MayRun(s.caller))
    && (s.running && !(s.caller.At? && s.caller.statement == Start(Spawn)) ==>
          s.handle.Some? && Alive(s.threads[s.handle.value]))
    && CallerOk(s)
    && forall i | 0 <= i < |s.threads| :: ThreadOk(s, i)
  }

  /** Clearing the flag, joining and dropping the thread. */
  lemma CloseKeeps(s: State, operation: Operation, statement: CloseStatement)
    requires Inv(s) && s.caller == At(operation, Close(statement))
    ensures Inv(AdvanceClose(s, operation, statement))
  {
    var t := AdvanceClose(s, operation, statement);
    forall i | 0 <= i < |t.threads|
      ensures ThreadOk(t, i)
    {
      if i < |s.threads| {
        assert ThreadOk(s, i);
      }
    }
  }

  /** No thread is alive while the configuration and the socket change. */
  lemma WriteKeeps(s: State, config: Config, statement: WriteStatement, attaches: bool)
    requires Inv(s) && s.caller == At(ToConfigure(config, attaches), Write(statement))
    ensures Inv(AdvanceWrite(s, config, statement, attaches))
  {
    var t := AdvanceWrite(s, config, statement, attaches);
    forall i | 0 <= i < |t.threads|
      ensures ThreadOk(t, i)
    {
      if i < |s.threads| {
        assert ThreadOk(s, i);
      }
    }
  }

  /** The second stop finds no thread; the new one starts with the flag and the socket in place. */
  lemma StartKeeps(s: State, config: Config, statement: StartStatement)
    requires Inv(s) && s.caller.At? && s.caller.operation.ToConfigure? && s.caller.operation.config == config
    requires s.caller.statement == Start(statement)
    ensures Inv(AdvanceStart(s, config, statement))
  {
    var t := AdvanceStart(s, config, statement);
    forall i | 0 <= i < |t.threads|
      ensures ThreadOk(t, i)
    {
      if i < |s.threads| {
        assert ThreadOk(s, i);
      }
    }
  }

  lemma PollKeeps(s: State, i: nat, event: bool)
    requires Inv(s) && i < |s.threads|
    ensures Inv(PollStep(s, i, event))
  {
    var t := PollStep(s, i, event);
    assert ThreadOk(s, i);
    forall j | 0 <= j < |t.threads|
      ensures ThreadOk(t, j)
    {
      assert ThreadOk(s, j);
    }
  }

  lemma StepKeeps(s: State, a: Action)
    requires Inv(s)
    ensures Inv(Do(s, a))
  {
    match a {
      case Begin(operation) =>
        forall i | 0 <= i < |s.threads|
          ensures ThreadOk(Do(s, a), i)
        {
          assert ThreadOk(s, i);
        }
      case Step =>
        if s.caller.At? {
          match s.caller {
            case At(operation, Close(statement)) => CloseKeeps(s, operation, statement);
            case At(ToConfigure(config, attaches), Write(statement)) => WriteKeeps(s, config, statement, attaches);
            case At(ToConfigure(config, _), Start(statement)) => StartKeeps(s, config, statement);
            case _ =>
          }
        }
      case Poll(i, event) =>
        if i < |s.threads| {
          PollKeeps(s, i, event);
        }
    }
  }

  lemma {:induction false} InvAlways(actions: seq<Action>)
    ensures Inv(Run(actions))
  {
    if actions == [] {
    } else {
      InvAlways(actions[..|actions| - 1]);
      StepKeeps(Run(actions[..|actions| - 1]), actions[|actions| - 1]);
    }
  }

  /** The action completes a loop body of thread i although m_running is cleared. */
  predicate EndsBodyLate(s: State, a: Action, i: nat) {
    && a.Poll? && a.thread == i < |s.threads| && !s.running
    && (s.threads[i].pc == Handling || (s.threads[i].pc == Polling && !a.event))
  }

  function LateBodies(actions: seq<Action>, i: nat): nat {
    if actions == [] then 0
    else
      var front, a := actions[..|actions| - 1], actions[|actions| - 1];
      LateBodies(front, i) + (if EndsBodyLate(Run(front), a, i) then 1 else 0)
  }

  lemma CallerLeavesCounts(s: State, i: nat)
    requires s.caller.At?
    ensures |s.threads| <= |Advance(s).threads|
    ensures i < |Advance(s).threads| ==>
              Advance(s).threads[i].bodiesAfterStop == (if i < |s.threads| then s.threads[i].bodiesAfterStop else 0)
  {
  }

  lemma PollCounts(s: State, j: nat, event: bool, i: nat)
    requires j < |s.threads| && i < |s.threads|
    ensures |PollStep(s, j, event).threads| == |s.threads|
    ensures PollStep(s, j, event).threads[i].bodiesAfterStop ==
            s.threads[i].bodiesAfterStop + (if EndsBodyLate(s, Poll(j, event), i) then 1 else 0)
  {
  }

  /** What a step adds to the count of a thread. */
  lemma CountStep(s: State, a: Action, i: nat)
    ensures |s.threads| <= |Do(s, a).threads|
    ensures i < |Do(s, a).threads| ==>
              Do(s, a).threads[i].bodiesAfterStop ==
              (if i < |s.threads| then s.threads[i].bodiesAfterStop else 0) + (if EndsBodyLate(s, a, i) then 1 else 0)
  {
    if a.Step? && s.caller.At? {
      CallerLeavesCounts(s, i);
    } else if a.Poll? && a.thread < |s.threads| && i < |s.threads| {
      PollCounts(s, a.thread, a.event, i);
    }
  }

  lemma {:induction false} ThreadsNoteLateBodies(actions: seq<Action>, i: nat)
    ensures var ts := Run(actions).threads;
            LateBodies(actions, i) == (if i < |ts| then ts[i].bodiesAfterStop else 0)
  {
    if actions == [] {
    } else {
      ThreadsNoteLateBodies(actions[..|actions| - 1], i);
      CountStep(Run(actions[..|actions| - 1]), actions[|actions| - 1], i);
    }
  }

  // ----- the main results

  /** The caller's next statement destroys the thread object m_pollThread holds, if any. */
  predicate DropsThread(c: Caller) {
    c.At? && c.statement in {Close(ResetThread), Start(ResetThreadAgain), Start(Spawn)}
  }

  /** No interleaving dereferences a null socket, destroys a joinable thread or takes the loop's
      exit for a null socket: a thread that polls or handles a message has a socket, and one that
      is destroyed has been joined and has finished. */
  lemma NeverCrashes(actions: seq<Action>, i: nat)
    requires i < |Run(actions).threads|
    ensures var s := Run(actions);
            var t := s.threads[i];
            && t.pc != LeftNoSocket
            && (t.pc in {Polling, Handling} ==> s.socket.Some?)
            && (DropsThread(s.caller) && s.handle == Some(i) ==> t.joined && t.pc == Finished)
  {
    InvAlways(actions);
    assert ThreadOk(Run(actions), i);
  }

  lemma AtMostOneThread(actions: seq<Action>, i: nat, j: nat)
    requires i < |Run(actions).threads| && Alive(Run(actions).threads[i])
    requires j < |Run(actions).threads| && Alive(Run(actions).threads[j])
    ensures i == j && Run(actions).handle == Some(i)
  {
    InvAlways(actions);
    assert ThreadOk(Run(actions), i) && ThreadOk(Run(actions), j);
  }

  /** While a poll thread is alive it sees the socket and the configuration it was started for,
      and no step of anyone changes them. */
  lemma SettingsHoldWhileAlive(actions: seq<Action>, i: nat, a: Action)
    requires i < |Run(actions).threads| && Alive(Run(actions).threads[i])
    ensures var s := Run(actions);
            && s.config == s.threads[i].requested && s.socket == Some(s.config)
            && Do(s, a).config == s.config && Do(s, a).socket == s.socket
  {
    InvAlways(actions);
    assert ThreadOk(Run(actions), i);
  }

  /** Once m_running has been cleared, a thread completes at most the loop body it is in. */
  lemma AtMostOneMoreBody(actions: seq<Action>, i: nat)
    ensures LateBodies(actions, i) <= 1
    ensures var s := Run(actions);
            s.running && i < |s.threads| && Alive(s.threads[i]) ==> LateBodies(actions, i) == 0
  {
    InvAlways(actions);
    ThreadsNoteLateBodies(actions, i);
    if i < |Run(actions).threads| {
      assert ThreadOk(Run(actions), i);
    }
  }

  /** How many statements of its own separate a stopped thread from its end. */
  function Distance(t: Thread): nat {
    match t.pc
    case TestSocket => 4
    case Polling => 3
    case Handling => 2
    case TestRunning => 1
    case _ => 0
  }

  function PollsOf(actions: seq<Action>, i: nat): nat {
    if actions == [] then 0
    else PollsOf(actions[..|actions| - 1], i) +
         (if actions[|actions| - 1].Poll? && actions[|actions| - 1].thread == i then 1 else 0)
  }

  function CloseLeft(statement: CloseStatement): nat {
    match statement
    case ClearRunning => 4
    case Join => 3
    case ResetThread => 2
    case ReleaseSocket => 1
  }

  function WriteLeft(statement: WriteStatement): nat {
    match statement
    case WritePattern => 5
    case WriteRole => 4
    case WriteEndpoint => 3
    case CreateSocket => 2
    case Attach => 1
  }

  function StartLeft(statement: StartStatement): nat {
    match statement
    case ClearRunningAgain => 7
    case JoinAgain => 6
    case ResetThreadAgain => 5
    case TestForSocket => 4
    case SetRunning => 3
    case Spawn => 2
    case SetConnected => 1
  }

  /** How many statements are left, counted to the end of `configure`. */
  function StepsLeft(statement: Statement): nat {
    match statement
    case Close(c) => CloseLeft(c) + 12
    case Write(w) => WriteLeft(w) + 7
    case Start(p) => StartLeft(p)
  }

  /** The caller came one statement nearer its end, or waits to join; the threads that exist did not move. */
  predicate Progress(s: State, t: State)
    requires s.caller.At?
  {
    && (|| (s.caller.statement == Close(Join) && !CanJoin(s))
        || !t.caller.At?
        || StepsLeft(t.caller.statement) == StepsLeft(s.caller.statement) - 1)
    && |s.threads| <= |t.threads|
    && forall i | 0 <= i < |s.threads| :: t.threads[i].pc == s.threads[i].pc
  }

  lemma CloseProgress(s: State, operation: Operation, statement: CloseStatement)
    requires s.caller == At(operation, Close(statement))
    ensures Progress(s, AdvanceClose(s, operation, statement))
  {
  }

  lemma WriteProgress(s: State, config: Config, statement: WriteStatement, attaches: bool)
    requires s.caller == At(ToConfigure(config, attaches), Write(statement))
    ensures Progress(s, AdvanceWrite(s, config, statement, attaches))
  {
  }

  lemma StartProgress(s: State, config: Config, statement: StartStatement)
    requires s.caller.At? && s.caller.statement == Start(statement) && StartOk(s, config, statement)
    ensures Progress(s, AdvanceStart(s, config, statement))
  {
  }

  lemma StepProgress(s: State)
    requires s.caller.At? && CallerOk(s)
    ensures Progress(s, Advance(s))
  {
    match s.caller {
      case At(operation, Close(statement)) => CloseProgress(s, operation, statement);
      case At(ToConfigure(config, attaches), Write(statement)) => WriteProgress(s, config, statement, attaches);
      case At(ToConfigure(config, _), Start(statement)) => StartProgress(s, config, statement);
    }
  }

  /** While the caller waits for a live thread nothing else happens to either, and every
      statement of the thread brings it nearer its end. */
  lemma WaitStep(s: State, i: nat, a: Action)
    requires Inv(s) && s.caller.At? && s.caller.statement == Close(Join)
    requires s.handle == Some(i) && Alive(s.threads[i])
    ensures var t := Do(s, a);
            && |t.threads| == |s.threads| && t.caller == s.caller && t.handle == s.handle
            && (Alive(t.threads[i]) ==>
                  Distance(t.threads[i]) + (if a.Poll? && a.thread == i then 1 else 0) <= Distance(s.threads[i]))
  {
    assert ThreadOk(s, i);
    assert !s.running && !CanJoin(s);
  }

  lemma DeadStaysDead(s: State, i: nat, a: Action)
    requires CallerOk(s) && i < |s.threads| && !Alive(s.threads[i])
    ensures i < |Do(s, a).threads| && !Alive(Do(s, a).threads[i])
  {
    if a.Step? && s.caller.At? {
      StepProgress(s);
    }
  }

  /** From a state where the caller waits to join thread i, every interleaving that gives the
      thread four more statements of its own lets the join return. */
  lemma {:induction false} JoinReturns(s: State, i: nat, more: seq<Action>)
    requires Inv(s) && s.caller.At? && s.caller.statement == Close(Join) && s.handle == Some(i)
    ensures var t := RunFrom(s, more);
            && Inv(t) && i < |t.threads|
            && (PollsOf(more, i) >= 4 ==> !Alive(t.threads[i]))
            && (Alive(t.threads[i]) ==>
                  && t.caller == s.caller && t.handle == s.handle
                  && Distance(t.threads[i]) + PollsOf(more, i) <= 4)
  {
    if more == [] {
    } else {
      var a := more[|more| - 1];
      var before := RunFrom(s, more[..|more| - 1]);
      JoinReturns(s, i, more[..|more| - 1]);
      StepKeeps(before, a);
      if Alive(before.threads[i]) {
        WaitStep(before, i, a);
      } else {
        DeadStaysDead(before, i, a);
      }
    }
  }

  /** The caller only ever waits to join the live thread that m_pollThread holds; every other
      statement brings the operation exactly one nearer its end. */
  lemma CallerAdvances(actions: seq<Action>)
    requires Run(actions).caller.At?
    ensures var s := Run(actions);
            var t := Do(s, Step);
            || (s.caller.statement == Close(Join) && s.handle.Some? && s.handle.value < |s.threads| &&
                Alive(s.threads[s.handle.value]))
            || !t.caller.At?
            || StepsLeft(t.caller.statement) == StepsLeft(s.caller.statement) - 1
  {
    InvAlways(actions);
    StepProgress(Run(actions));
  }

  /** Which settings an operation leaves behind. */
  predicate Settled(s: State, operation: Operation) {
    match operation
    case ToConfigure(config, attaches) =>
      && s.config == config && s.socket == Some(config)
      && s.running == attaches && (!attaches ==> s.handle.None?)
    case _ => s.socket.None? && s.handle.None? && !s.running
  }

  predicate Ended(s: State, operation: Operation) {
    s.caller == (if operation.ToDestroy? then Gone else Idle) && Settled(s, operation)
  }

  /** The caller is inside the operation, or has ended it. */
  predicate Follows(s: State, operation: Operation) {
    (s.caller.At? && s.caller.operation == operation) || Ended(s, operation)
  }

  lemma FollowsStep(s: State, operation: Operation, a: Action)
    requires Inv(s) && Follows(s, operation) && !a.Begin?
    ensures Follows(Do(s, a), operation)
  {
  }

  /** The operation has come nearer its end, or the caller stands where it stood. */
  predicate Onward(s: State, t: State, operation: Operation)
    requires s.caller.At?
  {
    || Ended(t, operation)
    || (&& t.caller.At?
        && (|| StepsLeft(t.caller.statement) < StepsLeft(s.caller.statement)
            || (t.caller == s.caller && t.handle == s.handle)))
  }

  lemma OnwardStep(s: State, t: State, operation: Operation, a: Action)
    requires s.caller.At? && Onward(s, t, operation)
    requires Inv(t) && Follows(t, operation) && !a.Begin?
    ensures Onward(s, Do(t, a), operation)
  {
    FollowsStep(t, operation, a);
    if a.Step? && t.caller.At? {
      StepProgress(t);
    }
  }

  predicate NoBegin(actions: seq<Action>) {
    forall i | 0 <= i < |actions| :: !actions[i].Begin?
  }

  lemma {:induction false} GoesOn(s: State, operation: Operation, more: seq<Action>)
    requires Inv(s) && Follows(s, operation) && NoBegin(more)
    ensures var t := RunFrom(s, more);
            && Inv(t) && Follows(t, operation)
            && (if s.caller.At? then Onward(s, t, operation) else !t.caller.At?)
  {
    if more == [] {
    } else {
      var a := more[|more| - 1];
      var before := RunFrom(s, more[..|more| - 1]);
      GoesOn(s, operation, more[..|more| - 1]);
      StepKeeps(before, a);
      FollowsStep(before, operation, a);
      if s.caller.At? {
        OnwardStep(s, before, operation, a);
      }
    }
  }

  /** Any interleaving in which the thread that m_pollThread held at the start gets four statements,
      followed by one statement of the caller. */
  predicate Round(s: State, actions: seq<Action>) {
    && actions != [] && actions[|actions| - 1] == Step && NoBegin(actions)
    && (s.handle.Some? ==> PollsOf(actions[..|actions| - 1], s.handle.value) >= 4)
  }

  lemma RoundProgress(s: State, operation: Operation, actions: seq<Action>)
    requires Inv(s) && Follows(s, operation) && Round(s, actions)
    ensures var t := RunFrom(s, actions);
            && Inv(t) && Follows(t, operation)
            && (t.caller.At? ==> s.caller.At? && StepsLeft(t.caller.statement) < StepsLeft(s.caller.statement))
  {
    var front := actions[..|actions| - 1];
    var m := RunFrom(s, front);
    GoesOn(s, operation, front);
    StepKeeps(m, Step);
    FollowsStep(m, operation, Step);
    if m.caller.At? {
      StepProgress(m);
      if m.caller == s.caller && m.caller.statement == Close(Join) && s.handle.Some? {
        JoinReturns(s, s.handle.value, front);
      }
    }
  }

  function RunRounds(s: State, rounds: seq<seq<Action>>): State {
    if rounds == [] then s else RunFrom(RunRounds(s, rounds[..|rounds| - 1]), rounds[|rounds| - 1])
  }

  predicate Fair(s: State, rounds: seq<seq<Action>>) {
    rounds == [] ||
    (Fair(s, rounds[..|rounds| - 1]) && Round(RunRounds(s, rounds[..|rounds| - 1]), rounds[|rounds| - 1]))
  }

  lemma {:induction false} RoundsProgress(s: State, operation: Operation, rounds: seq<seq<Action>>)
    requires Inv(s) && Follows(s, operation) && Fair(s, rounds)
    ensures var t := RunRounds(s, rounds);
            && Inv(t) && Follows(t, operation)
            && (t.caller.At? ==>
                  s.caller.At? && StepsLeft(t.caller.statement) + |rounds| <= StepsLeft(s.caller.statement))
  {
    if rounds == [] {
    } else {
      RoundsProgress(s, operation, rounds[..|rounds| - 1]);
      RoundProgress(RunRounds(s, rounds[..|rounds| - 1]), operation, rounds[|rounds| - 1]);
    }
  }

  /** The state an operation ends in: `configure` with the requested settings, a socket created for
      them and, if it attaches, the flag set and one live thread started for them; otherwise, as after
      `cancel` and the destructor, with the flag cleared and no thread alive. */
  predicate EndedWell(s: State, operation: Operation) {
    && Ended(s, operation)
    && (s.running ==>
          && s.handle.Some? && s.handle.value < |s.threads|
          && Alive(s.threads[s.handle.value]) && s.threads[s.handle.value].requested == s.config)
    && (!s.running ==> forall i | 0 <= i < |s.threads| :: !Alive(s.threads[i]))
  }

  lemma EndedThreads(s: State, operation: Operation)
    requires Inv(s) && Ended(s, operation)
    ensures EndedWell(s, operation)
  {
    if s.handle.Some? {
      assert ThreadOk(s, s.handle.value);
    }
    forall i | 0 <= i < |s.threads| && !s.running
      ensures !Alive(s.threads[i])
    {
      assert ThreadOk(s, i);
    }
  }

  /** From any reachable state in which none is under way, a `configure`, a `cancel` and the destructor
      end well under every interleaving of at least 16 rounds. */
  lemma {:induction false} OperationEnds(actions: seq<Action>, operation: Operation, rounds: seq<seq<Action>>)
    requires Run(actions).caller == Idle && Allowed(operation)
    requires |rounds| >= 16 && Fair(Run(actions + [Begin(operation)]), rounds)
    ensures EndedWell(RunRounds(Run(actions + [Begin(operation)]), rounds), operation)
  {
    var s := Run(actions + [Begin(operation)]);
    InvAlways(actions + [Begin(operation)]);
    assert (actions + [Begin(operation)])[..|actions|] == actions;
    assert s.caller == At(operation, Close(ClearRunning));
    RoundsProgress(s, operation, rounds);
    EndedThreads(RunRounds(s, rounds), operation);
  }
}
