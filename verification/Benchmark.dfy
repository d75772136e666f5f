/** `BenchmarkEngine::run` (src/testing/benchmark_engine.cpp): worker threads that count the
    outcomes of their requests in two shared counters until a stop flag is cleared, and the rate
    reported at the end. */
module Benchmark {
  import opened Outcomes

  /** Where a worker is in its loop; `Counting` holds the outcome it has received. */
  datatype WorkerPc = TestFlag | Executing | Counting(ok: bool) | Exited

  /** `completed` and `succeeded` count the requests whose outcome the worker has received,
      `countedAfterStop` those it counted while the flag was cleared. */
  datatype Worker = Worker(pc: WorkerPc, completed: nat, succeeded: nat, countedAfterStop: nat)

  /** The thread that calls `run`: it spawns, sleeps and stops, then joins one worker after the
      other. */
  datatype Caller = Spawning | Sleeping | Joining(next: nat) | Reported

  datatype Metrics = Metrics(total: nat, successful: nat, failed: nat)

  datatype State = State(
    users: nat,
    running: bool,
    success: nat,
    errors: nat,
    workers: seq<Worker>,
    caller: Caller,
    report: Option<Metrics>)

  datatype Action =
    | CallerStep                         // the next statement of `run`
    | WorkerStep(worker: nat, ok: bool)  // the next statement of a worker; whether a response is a 2xx
    | Stop                               // `stop` called by anyone

  function Start(users: nat): State {
    State(users, true, 0, 0, [], Spawning, None)
  }

  function StepCaller(s: State): State {
    match s.caller
    case Spawning =>
      if |s.workers| < s.users then s.(workers := s.workers + [Worker(TestFlag, 0, 0, 0)])
      else s.(caller := Sleeping)
    case Sleeping => s.(running := false, caller := Joining(0))
    case Joining(next) =>
      if next >= |s.workers| then
        s.(caller := Reported, report := Some(Metrics(s.success + s.errors, s.success, s.errors)))
      else if s.workers[next].pc.Exited? then s.(caller := Joining(next + 1))
      else s
    case Reported => s
  }

  function NextWorker(w: Worker, running: bool, ok: bool): Worker {
    match w.pc
    case TestFlag => w.(pc := if running then Executing else Exited)
    case Executing =>
      w.(pc := Counting(ok), completed := w.completed + 1, succeeded := w.succeeded + (if ok then 1 else 0))
    case Counting(_) => w.(pc := TestFlag, countedAfterStop := w.countedAfterStop + (if running then 0 else 1))
    case Exited => w
  }

  function StepWorker(s: State, i: nat, ok: bool): State
    requires i < |s.workers|
  {
    var w := s.workers[i];
    s.(success := s.success + (if w.pc == Counting(true) then 1 else 0),
       errors := s.errors + (if w.pc == Counting(false) then 1 else 0),
       workers := s.workers[i := NextWorker(w, s.running, ok)])
  }

  /** One step. An action that is not possible in a state leaves it alone. */
  function Do(s: State, a: Action): State {
    match a
    case CallerStep => StepCaller(s)
    case WorkerStep(i, ok) => if i < |s.workers| then StepWorker(s, i, ok) else s
    case Stop => s.(running := false)
  }

  function RunFrom(s: State, actions: seq<Action>): State {
    if actions == [] then s
    else Do(RunFrom(s, actions[..|actions| - 1]), actions[|actions| - 1])
  }

  function Run(users: nat, actions: seq<Action>): State {
    RunFrom(Start(users), actions)
  }

  // ----- sums over the workers

  /** Requests whose outcome the workers have received. */
  function Completed(ws: seq<Worker>): nat {
    if ws == [] then 0 else ws[0].completed + Completed(ws[1..])
  }

  function Succeeded(ws: seq<Worker>): nat {
    if ws == [] then 0 else ws[0].succeeded + Succeeded(ws[1..])
  }

  function Pending(w: Worker): nat {
    if w.pc.Counting? then 1 else 0
  }

  function PendingGood(w: Worker): nat {
    if w.pc.Counting? && w.pc.ok then 1 else 0
  }

  /** Outcomes received and not yet in a counter. */
  function Uncounted(ws: seq<Worker>): nat {
    if ws == [] then 0 else Pending(ws[0]) + Uncounted(ws[1..])
  }

  function UncountedGood(ws: seq<Worker>): nat {
    if ws == [] then 0 else PendingGood(ws[0]) + UncountedGood(ws[1..])
  }

  /** Changing one worker changes the four sums by what that worker changes. */
  lemma {:induction false} SumsUpdate(ws: seq<Worker>, i: nat, w: Worker)
    requires i < |ws|
    ensures Completed(ws[i := w]) + ws[i].completed == Completed(ws) + w.completed
    ensures Succeeded(ws[i := w]) + ws[i].succeeded == Succeeded(ws) + w.succeeded
    ensures Uncounted(ws[i := w]) + Pending(ws[i]) == Uncounted(ws) + Pending(w)
    ensures UncountedGood(ws[i := w]) + PendingGood(ws[i]) == UncountedGood(ws) + PendingGood(w)
  {
    if i == 0 {
      assert ws[i := w][1..] == ws[1..];
    } else {
      SumsUpdate(ws[1..], i - 1, w);
      assert ws[i := w][1..] == ws[1..][i - 1 := w];
    }
  }

  lemma {:induction false} SumsAppend(ws: seq<Worker>, w: Worker)
    requires w.pc.TestFlag? && w.completed == 0 && w.succeeded == 0
    ensures Completed(ws + [w]) == Completed(ws) && Succeeded(ws + [w]) == Succeeded(ws)
    ensures Uncounted(ws + [w]) == Uncounted(ws) && UncountedGood(ws + [w]) == UncountedGood(ws)
  {
    if ws == [] {
      assert ws + [w] == [w] && [w][1..] == [];
    } else {
      SumsAppend(ws[1..], w);
      assert (ws + [w])[1..] == ws[1..] + [w];
    }
  }

  lemma {:induction false} NothingUncounted(ws: seq<Worker>)
    requires forall i | 0 <= i < |ws| :: ws[i].pc.Exited?
    ensures Uncounted(ws) == 0 && UncountedGood(ws) == 0
  {
    if ws == [] {
    } else {
      NothingUncounted(ws[1..]);
    }
  }

  // ----- the invariant

  predicate CountersOk(s: State) {
    && s.success + s.errors + Uncounted(s.workers) == Completed(s.workers)
    && s.success + UncountedGood(s.workers) == Succeeded(s.workers)
  }

  /** A worker that may still count after the stop is the one that was past its test. */
  predicate WorkerOk(s: State, w: Worker) {
    && (s.running ==> w.countedAfterStop == 0 && !w.pc.Exited?)
    && w.countedAfterStop + (if w.pc.Executing? || w.pc.Counting? then 1 else 0) <= 1
  }

  predicate CallerOk(s: State) {
    && |s.workers| <= s.users
    && (!s.caller.Spawning? ==> |s.workers| == s.users)
    && (s.caller.Joining? || s.caller.Reported? ==> !s.running)
    && (s.caller.Joining? ==>
          s.caller.next <= |s.workers| && forall i | 0 <= i < s.caller.next :: s.workers[i].pc.Exited?)
    && (s.caller.Reported? <==> s.report.Some?)
    && (s.report.Some? ==>
          && (forall i | 0 <= i < |s.workers| :: s.workers[i].pc.Exited?)
          && s.report.value == Metrics(s.success + s.errors, s.success, s.errors))
  }

  ghost predicate Inv(s: State) {
    && CountersOk(s) && CallerOk(s)
    && forall i | 0 <= i < |s.workers| :: WorkerOk(s, s.workers[i])
  }

  lemma StepWorkerCounts(s: State, i: nat, ok: bool)
    requires CountersOk(s) && i < |s.workers|
    ensures CountersOk(StepWorker(s, i, ok))
  {
    SumsUpdate(s.workers, i, NextWorker(s.workers[i], s.running, ok));
  }

  lemma StepWorkerKeeps(s: State, i: nat, ok: bool)
    requires Inv(s) && i < |s.workers|
    ensures Inv(StepWorker(s, i, ok))
  {
    StepWorkerCounts(s, i, ok);
    var t := StepWorker(s, i, ok);
    assert WorkerOk(s, s.workers[i]);
    forall j | 0 <= j < |t.workers|
      ensures WorkerOk(t, t.workers[j])
    {
      assert WorkerOk(s, s.workers[j]);
    }
  }

  lemma StepKeeps(s: State, a: Action)
    requires Inv(s)
    ensures Inv(Do(s, a))
  {
    match a {
      case CallerStep =>
        SumsAppend(s.workers, Worker(TestFlag, 0, 0, 0));
        forall j | 0 <= j < |s.workers|
          ensures WorkerOk(Do(s, a), s.workers[j])
        {
          assert WorkerOk(s, s.workers[j]);
        }
      case WorkerStep(i, ok) =>
        if i < |s.workers| {
          StepWorkerKeeps(s, i, ok);
        }
      case Stop =>
        forall j | 0 <= j < |s.workers|
          ensures WorkerOk(Do(s, a), s.workers[j])
        {
          assert WorkerOk(s, s.workers[j]);
        }
    }
  }

  lemma {:induction false} InvAlways(users: nat, actions: seq<Action>)
    ensures Inv(Run(users, actions)) && Run(users, actions).users == users
  {
    if actions == [] {
      assert Inv(Start(users));
    } else {
      var before := Run(users, actions[..|actions| - 1]);
      InvAlways(users, actions[..|actions| - 1]);
      StepKeeps(before, actions[|actions| - 1]);
    }
  }

  // ----- the responses of a schedule

  /** The action gives a worker that waits for one its response. */
  predicate Responds(s: State, a: Action) {
    a.WorkerStep? && a.worker < |s.workers| && s.workers[a.worker].pc == Executing
  }

  /** The responses received along the actions, as whether they are a 2xx, in order. */
  function Responses(users: nat, actions: seq<Action>): seq<bool> {
    if actions == [] then []
    else
      var front, a := actions[..|actions| - 1], actions[|actions| - 1];
      Responses(users, front) + (if Responds(Run(users, front), a) then [a.ok] else [])
  }

  /** How many of them are a 2xx. */
  function Good(responses: seq<bool>): nat {
    if responses == [] then 0
    else Good(responses[..|responses| - 1]) + (if responses[|responses| - 1] then 1 else 0)
  }

  lemma GoodSnoc(responses: seq<bool>, ok: bool)
    ensures Good(responses + [ok]) == Good(responses) + (if ok then 1 else 0)
  {
    assert (responses + [ok])[..|responses|] == responses;
  }

  lemma ResponseStep(s: State, a: Action)
    ensures Completed(Do(s, a).workers) == Completed(s.workers) + (if Responds(s, a) then 1 else 0)
    ensures Succeeded(Do(s, a).workers) == Succeeded(s.workers) + (if Responds(s, a) && a.ok then 1 else 0)
  {
    match a {
      case WorkerStep(i, ok) =>
        if i < |s.workers| {
          SumsUpdate(s.workers, i, NextWorker(s.workers[i], s.running, ok));
        }
      case CallerStep => SumsAppend(s.workers, Worker(TestFlag, 0, 0, 0));
      case Stop =>
    }
  }

  /** What the workers have noted is what the schedule has given them. */
  lemma {:induction false} WorkersNoteResponses(users: nat, actions: seq<Action>)
    ensures Completed(Run(users, actions).workers) == |Responses(users, actions)|
    ensures Succeeded(Run(users, actions).workers) == Good(Responses(users, actions))
  {
    if actions == [] {
      assert Run(users, actions).workers == [];
    } else {
      var front, a := actions[..|actions| - 1], actions[|actions| - 1];
      WorkersNoteResponses(users, front);
      ResponseStep(Run(users, front), a);
      if Responds(Run(users, front), a) {
        GoodSnoc(Responses(users, front), a.ok);
      } else {
        assert Responses(users, actions) == Responses(users, front);
      }
    }
  }

  /** The action lets worker i count an outcome although the flag is cleared. */
  predicate CountsLate(s: State, a: Action, i: nat) {
    a.WorkerStep? && a.worker == i < |s.workers| && s.workers[i].pc.Counting? && !s.running
  }

  function LateCounts(users: nat, actions: seq<Action>, i: nat): nat {
    if actions == [] then 0
    else
      var front, a := actions[..|actions| - 1], actions[|actions| - 1];
      LateCounts(users, front, i) + (if CountsLate(Run(users, front), a, i) then 1 else 0)
  }

  lemma {:induction false} WorkersNoteLateCounts(users: nat, actions: seq<Action>, i: nat)
    ensures var ws := Run(users, actions).workers;
            LateCounts(users, actions, i) == (if i < |ws| then ws[i].countedAfterStop else 0)
  {
    if actions == [] {
    } else {
      WorkersNoteLateCounts(users, actions[..|actions| - 1], i);
    }
  }

  // ----- the main results

  /** The flag is set exactly until `run` has slept or somebody has called `stop`. */
  lemma {:induction false} RunningIff(users: nat, actions: seq<Action>)
    ensures var s := Run(users, actions);
            s.running <==> (s.caller.Spawning? || s.caller.Sleeping?) && Stop !in actions
  {
    if actions == [] {
    } else {
      var front, a := actions[..|actions| - 1], actions[|actions| - 1];
      RunningIff(users, front);
      assert actions == front + [a];
    }
  }

  /** For any number of workers, any schedule and any time of stopping, the counters hold exactly
      the responses received, less those a worker is about to count. */
  lemma CountersExact(users: nat, actions: seq<Action>)
    ensures var s := Run(users, actions);
            && s.success + s.errors + Uncounted(s.workers) == Completed(s.workers) == |Responses(users, actions)|
            && s.success + UncountedGood(s.workers) == Succeeded(s.workers) == Good(Responses(users, actions))
  {
    InvAlways(users, actions);
    WorkersNoteResponses(users, actions);
  }

  /** The report, made after all workers were joined, counts every request of every worker. */
  lemma ReportExact(users: nat, actions: seq<Action>)
    requires Run(users, actions).report.Some?
    ensures var s := Run(users, actions);
            && |s.workers| == users
            && s.report.value.total == Completed(s.workers) == |Responses(users, actions)|
            && s.report.value.successful == Succeeded(s.workers) == Good(Responses(users, actions))
            && s.report.value.failed == |Responses(users, actions)| - Good(Responses(users, actions))
  {
    InvAlways(users, actions);
    WorkersNoteResponses(users, actions);
    NothingUncounted(Run(users, actions).workers);
  }

  /** As long as the flag is set a worker goes round: three statements of its own send a request, receive
      its response and count it, once, where it belongs. */
  lemma WorkerGoesRound(users: nat, actions: seq<Action>, i: nat, ok: bool)
    requires var s := Run(users, actions); s.running && i < |s.workers| && s.workers[i].pc == TestFlag
    ensures var s := Run(users, actions);
            var t := Do(Do(Do(s, WorkerStep(i, ok)), WorkerStep(i, ok)), WorkerStep(i, ok));
            && Do(s, WorkerStep(i, ok)).workers[i].pc == Executing
            && t.workers[i].pc == TestFlag
            && t.success == s.success + (if ok then 1 else 0)
            && t.errors == s.errors + (if ok then 0 else 1)
  {
  }

  /** Once it is cleared a worker at its test leaves the loop. */
  lemma WorkerLeaves(users: nat, actions: seq<Action>, i: nat, ok: bool)
    requires var s := Run(users, actions); !s.running && i < |s.workers| && s.workers[i].pc == TestFlag
    ensures Do(Run(users, actions), WorkerStep(i, ok)).workers[i].pc == Exited
  {
  }

  /** After the flag is cleared every worker counts at most one more request. */
  lemma AtMostOneMore(users: nat, actions: seq<Action>, i: nat)
    ensures LateCounts(users, actions, i) <= 1
    ensures Run(users, actions).running ==> LateCounts(users, actions, i) == 0
  {
    InvAlways(users, actions);
    WorkersNoteLateCounts(users, actions, i);
    if i < |Run(users, actions).workers| {
      assert WorkerOk(Run(users, actions), Run(users, actions).workers[i]);
    }
  }

  // ----- `run` returns

  /** How many statements of its own separate a worker from its exit once the flag is cleared. */
  function TurnsLeft(w: Worker): nat {
    match w.pc
    case Executing => 3
    case Counting(_) => 2
    case TestFlag => 1
    case Exited => 0
  }

  /** How many statements of `run` are left. */
  function StepsLeft(s: State): int {
    match s.caller
    case Spawning => 2 * s.users - |s.workers| + 3
    case Sleeping => s.users + 2
    case Joining(next) => s.users - next + 1
    case Reported => 0
  }

  function TurnsOf(actions: seq<Action>, i: nat): nat {
    if actions == [] then 0
    else TurnsOf(actions[..|actions| - 1], i) +
         (if actions[|actions| - 1].WorkerStep? && actions[|actions| - 1].worker == i then 1 else 0)
  }

  lemma StepGoesOn(s: State, a: Action)
    requires Inv(s)
    ensures var t := Do(s, a);
            && t.users == s.users && |s.workers| <= |t.workers| && StepsLeft(t) <= StepsLeft(s)
            && (StepsLeft(t) == StepsLeft(s) ==> t.caller == s.caller && |t.workers| == |s.workers|)
            && (!s.running ==> !t.running && forall i | 0 <= i < |s.workers| ::
                  && TurnsLeft(t.workers[i]) <= TurnsLeft(s.workers[i])
                  && (a.WorkerStep? && a.worker == i && !s.workers[i].pc.Exited? ==>
                        TurnsLeft(t.workers[i]) < TurnsLeft(s.workers[i])))
  {
  }

  /** Nothing leads back; and a worker the caller waits for comes nearer its exit with every statement of
      its own. */
  lemma {:induction false} GoesOn(s: State, more: seq<Action>)
    requires Inv(s)
    ensures var t := RunFrom(s, more);
            && Inv(t) && t.users == s.users && |s.workers| <= |t.workers| && StepsLeft(t) <= StepsLeft(s)
            && (StepsLeft(t) == StepsLeft(s) ==> t.caller == s.caller && |t.workers| == |s.workers|)
            && (!s.running ==> !t.running && forall i | 0 <= i < |s.workers| ::
                  t.workers[i].pc.Exited? || TurnsLeft(t.workers[i]) + TurnsOf(more, i) <= TurnsLeft(s.workers[i]))
  {
    if more == [] {
    } else {
      var front, a := more[..|more| - 1], more[|more| - 1];
      GoesOn(s, front);
      StepKeeps(RunFrom(s, front), a);
      StepGoesOn(RunFrom(s, front), a);
    }
  }

  /** Any interleaving in which the worker the caller waits for at the start gets three statements,
      followed by one statement of the caller. */
  predicate Round(s: State, actions: seq<Action>) {
    && actions != [] && actions[|actions| - 1] == CallerStep
    && (s.caller.Joining? ==> TurnsOf(actions[..|actions| - 1], s.caller.next) >= 3)
  }

  lemma RoundProgress(s: State, actions: seq<Action>)
    requires Inv(s) && Round(s, actions)
    ensures var t := RunFrom(s, actions);
            Inv(t) && (t.caller.Reported? || StepsLeft(t) < StepsLeft(s))
  {
    var front := actions[..|actions| - 1];
    var m := RunFrom(s, front);
    GoesOn(s, front);
    StepKeeps(m, CallerStep);
    StepGoesOn(m, CallerStep);
    if m.caller.Joining? && m.caller.next < |m.workers| && m.caller == s.caller {
      assert TurnsLeft(s.workers[m.caller.next]) <= 3;
      assert m.workers[m.caller.next].pc.Exited?;
    }
  }

  function RunRounds(s: State, rounds: seq<seq<Action>>): State {
    if rounds == [] then s else RunFrom(RunRounds(s, rounds[..|rounds| - 1]), rounds[|rounds| - 1])
  }

  predicate Fair(s: State, rounds: seq<seq<Action>>) {
    rounds == [] ||
    (Fair(s, rounds[..|rounds| - 1]) && Round(RunRounds(s, rounds[..|rounds| - 1]), rounds[|rounds| - 1]))
  }

  lemma {:induction false} RoundsProgress(s: State, rounds: seq<seq<Action>>)
    requires Inv(s) && Fair(s, rounds)
    ensures var t := RunRounds(s, rounds);
            Inv(t) && (t.caller.Reported? || StepsLeft(t) + |rounds| <= StepsLeft(s))
  {
    if rounds == [] {
    } else {
      RoundsProgress(s, rounds[..|rounds| - 1]);
      RoundProgress(RunRounds(s, rounds[..|rounds| - 1]), rounds[|rounds| - 1]);
    }
  }

  /** From any reachable state `run` makes its report under every interleaving of as many rounds as it
      has statements. */
  lemma RunReturns(users: nat, actions: seq<Action>, rounds: seq<seq<Action>>)
    requires |rounds| >= 2 * users + 3 && Fair(Run(users, actions), rounds)
    ensures RunRounds(Run(users, actions), rounds).report.Some?
    ensures forall w | w in RunRounds(Run(users, actions), rounds).workers :: w.pc.Exited?
  {
    InvAlways(users, actions);
    RoundsProgress(Run(users, actions), rounds);
  }

  // ----- the configuration and the rate

  const NANOS_PER_SECOND := 1_000_000_000

  /** Users, duration in seconds, and the request URL. */
  datatype Config = Config(users: int, seconds: int, url: string)

  method ValidateConfig(config: Config) returns (r: Result<()>)
    ensures r.Ok? <==> config.users > 0 && config.seconds > 0 && config.url != ""
    ensures r.Err? ==> r.code == InvalidConfig
  {
    if config.users <= 0 {
      return Err(InvalidConfig);
    }
    if config.seconds <= 0 {
      return Err(InvalidConfig);
    }
    if config.url == "" {
      return Err(InvalidConfig);
    }
    return Ok(());
  }

  /** `duration_cast<seconds>` of two clock readings in nanoseconds truncates toward zero. */
  function WholeSeconds(start: int, end: int): int {
    if start <= end then (end - start) / NANOS_PER_SECOND else -((start - end) / NANOS_PER_SECOND)
  }

  /** The reported rate is the total over that; None is a division by zero, which gives no number. */
  function Rate(total: nat, start: int, end: int): Option<real> {
    if WholeSeconds(start, end) == 0 then None else Some(total as real / WholeSeconds(start, end) as real)
  }

  /** The requests per second that really were made. */
  function TrueRate(total: nat, start: int, end: int): real
    requires start < end
  {
    total as real * NANOS_PER_SECOND as real / (end - start) as real
  }

  /** The clock went on by at least the configured duration. */
  predicate ClockWentOn(config: Config, start: int, end: int) {
    config.seconds > 0 && end - start >= config.seconds * NANOS_PER_SECOND
  }

  lemma Fractions(t: real, w: real, n: real, e: real)
    requires t >= 0.0 && w >= 1.0 && n > 0.0 && w * n <= e < 2.0 * (w * n)
    ensures t * n / e <= t / w
    ensures t > 0.0 ==> t / w < 2.0 * (t * n / e)
  {
    var p, q := t / w, t * n / e;
    assert p * w == t && q * e == t * n;
    assert q * e == p * (w * n) <= p * e;
    assert (p - q) * e >= 0.0;
    if t > 0.0 {
      assert q * e < q * (2.0 * (w * n));
      assert (2.0 * q - p) * (w * n) > 0.0;
    }
  }

  /** The reported rate is at least the true one and less than twice it. */
  predicate RateClose(total: nat, start: int, end: int) {
    && start < end && Rate(total, start, end).Some?
    && TrueRate(total, start, end) <= Rate(total, start, end).value < 2.0 * TrueRate(total, start, end)
  }

  lemma RateIsClose(total: nat, start: int, end: int)
    requires end - start >= NANOS_PER_SECOND
    ensures Rate(total, start, end).Some? && TrueRate(total, start, end) <= Rate(total, start, end).value
    ensures total > 0 ==> RateClose(total, start, end)
  {
    var whole := WholeSeconds(start, end);
    assert whole * NANOS_PER_SECOND <= end - start < (whole + 1) * NANOS_PER_SECOND;
    var w, n, e, t := whole as real, NANOS_PER_SECOND as real, (end - start) as real, total as real;
    assert w * n <= e < (w + 1.0) * n <= 2.0 * (w * n);
    Fractions(t, w, n, e);
  }

  /** For any two clock readings: there is no rate, but a division by zero, exactly if they are less than
      a second apart, either way; and if anything was counted the rate is close to the true one exactly if
      the clock went on by at least a second. */
  lemma RateIff(total: nat, start: int, end: int)
    ensures Rate(total, start, end).None? <==> -NANOS_PER_SECOND < end - start < NANOS_PER_SECOND
    ensures total > 0 ==> (RateClose(total, start, end) <==> end - start >= NANOS_PER_SECOND)
  {
    if end - start >= NANOS_PER_SECOND {
      RateIsClose(total, start, end);
    }
  }

  /** A benchmark of one second whose clock is set back by half of one has no rate. */
  lemma NoRateHappens(total: nat)
    ensures Rate(total, 0, 500_000_000).None?
  {
    RateIff(total, 0, 500_000_000);
  }

  /** With a clock that goes on by the configured duration, the divisor is at least that duration, and the
      rate is close to the true one. */
  lemma RateBound(config: Config, total: nat, start: int, end: int)
    requires ClockWentOn(config, start, end)
    ensures WholeSeconds(start, end) >= config.seconds
    ensures Rate(total, start, end).Some? && TrueRate(total, start, end) <= Rate(total, start, end).value
    ensures total > 0 ==> Rate(total, start, end).value < 2.0 * TrueRate(total, start, end)
  {
    RateIsClose(total, start, end);
  }

  lemma NegativeDivisor(t: real, w: real)
    requires t >= 0.0 && w < 0.0
    ensures t / w <= 0.0
  {
    var q := t / w;
    assert q * w == t;
  }

  /** With a clock set back to before the start the rate, if there is one, is not positive. */
  lemma ClockSetBack(total: nat, start: int, end: int)
    requires end <= start
    ensures start - end < NANOS_PER_SECOND <==> Rate(total, start, end).None?
    ensures Rate(total, start, end).Some? ==> Rate(total, start, end).value <= 0.0
  {
    if start - end >= NANOS_PER_SECOND {
      NegativeDivisor(total as real, WholeSeconds(start, end) as real);
    }
  }

  // ----- the engine

  /** What happens between two statements of `run`: a worker goes on, or somebody calls `stop`. */
  datatype Turn = Go(worker: nat, ok: bool) | StopCalled

  datatype BenchmarkResult = BenchmarkResult(metrics: Metrics, start: int, end: int, rate: Option<real>)

  function ActionOf(turn: Turn): Action {
    match turn
    case Go(worker, ok) => WorkerStep(worker, ok)
    case StopCalled => Stop
  }

  function ActionsOf(turns: seq<Turn>): seq<Action> {
    if turns == [] then [] else ActionsOf(turns[..|turns| - 1]) + [ActionOf(turns[|turns| - 1])]
  }

  /** What happens while `count` workers are started. */
  function SpawnActions(count: nat, turns: nat -> seq<Turn>): seq<Action> {
    if count == 0 then []
    else SpawnActions(count - 1, turns) + ActionsOf(turns(count - 1)) + [CallerStep]
  }

  lemma RunSnoc(s: State, actions: seq<Action>, a: Action)
    ensures RunFrom(s, actions + [a]) == Do(RunFrom(s, actions), a)
  {
    assert (actions + [a])[..|actions|] == actions;
  }

  class BenchmarkEngine {
    var isRunning: bool
    var success: nat
    var errors: nat
    var threads: seq<Worker>
    ghost var users: nat
    ghost var caller: Caller
    ghost var report: Option<Metrics>
    ghost var actions: seq<Action>   // everything that has happened since `run` began

    constructor ()
      ensures !isRunning
    {
      isRunning, success, errors, threads, users, caller, report := false, 0, 0, [], 0, Spawning, None;
      actions := [];
    }

    ghost function View(): State
      reads this
    {
      State(users, isRunning, success, errors, threads, caller, report)
    }

    /** The fields are where the actions lead. */
    ghost predicate Sound()
      reads this
    {
      View() == RunFrom(Start(users), actions) && Inv(View())
    }

    method Stop()
      modifies this`isRunning
      ensures View() == Do(old(View()), Action.Stop)
    {
      isRunning := false;
    }

    /** Counts the outcome a worker holds, if any, and moves it on. */
    method CountAndMove(i: nat, ok: bool)
      requires i < |threads|
      modifies this`success, this`errors, this`threads
      ensures View() == StepWorker(old(View()), i, ok)
    {
      var w := threads[i];
      if w.pc == Counting(true) {
        success := success + 1;
      } else if w.pc == Counting(false) {
        errors := errors + 1;
      }
      threads := threads[i := NextWorker(w, isRunning, ok)];
    }

    /** Notes that the caller goes on. */
    ghost method CallerSteps()
      requires Sound()
      modifies this`actions
      ensures actions == old(actions) + [CallerStep]
      ensures Do(View(), CallerStep) == RunFrom(Start(users), actions) && Inv(Do(View(), CallerStep))
    {
      StepKeeps(View(), CallerStep);
      RunSnoc(Start(users), actions, CallerStep);
      actions := actions + [CallerStep];
    }

    /** What happens between two statements of the caller: one turn. */
    method Take(turn: Turn)
      requires Sound()
      modifies this`isRunning, this`success, this`errors, this`threads, this`actions
      ensures Sound() && View() == Do(old(View()), ActionOf(turn))
      ensures actions == old(actions) + [ActionOf(turn)]
    {
      StepKeeps(View(), ActionOf(turn));
      RunSnoc(Start(users), actions, ActionOf(turn));
      actions := actions + [ActionOf(turn)];
      match turn {
        case Go(worker, ok) =>
          if worker < |threads| {
            CountAndMove(worker, ok);
          }
        case StopCalled => Stop();
      }
    }

    /** The workers take turns, and `stop` may be called, while the caller is between two statements. */
    method Interleave(turns: seq<Turn>)
      requires Sound()
      modifies this`isRunning, this`success, this`errors, this`threads, this`actions
      ensures Sound() && actions == old(actions) + ActionsOf(turns)
      ensures |threads| == old(|threads|) && (isRunning ==> old(isRunning))
      ensures !old(isRunning) ==> forall i | 0 <= i < |threads| :: TurnsLeft(threads[i]) <= TurnsLeft(old(threads)[i])
    {
      for k := 0 to |turns|
        invariant Sound() && actions == old(actions) + ActionsOf(turns[..k])
        invariant |threads| == old(|threads|) && (isRunning ==> old(isRunning))
        invariant !old(isRunning) ==>
                    forall i | 0 <= i < |threads| :: TurnsLeft(threads[i]) <= TurnsLeft(old(threads)[i])
      {
        assert turns[..k + 1][..k] == turns[..k];
        StepGoesOn(View(), ActionOf(turns[k]));
        Take(turns[k]);
      }
      assert turns[..|turns|] == turns;
    }

    method Joined(i: nat)
      requires Sound() && caller == Joining(i) && i < |threads| && threads[i].pc.Exited?
      modifies this`caller, this`actions
      ensures Sound() && caller == Joining(i + 1) && actions == old(actions) + [CallerStep]
    {
      CallerSteps();
      caller := Joining(i + 1);
    }

    /** Waits for one worker, which goes on until it has seen the cleared flag; `ok` is the outcome of a
        request it is still in, `between` what happens between its statements. */
    method Join(i: nat, ok: bool, between: nat -> seq<Turn>)
      requires Sound() && caller == Joining(i) && i < |threads|
      modifies this`isRunning, this`success, this`errors, this`threads, this`actions, this`caller
      ensures Sound() && |threads| == old(|threads|) && caller == Joining(i + 1)
      ensures old(actions) <= actions
    {
      var n := 0;
      while !threads[i].pc.Exited?
        invariant Sound() && |threads| == old(|threads|) && caller == Joining(i)
        invariant old(actions) <= actions
        decreases TurnsLeft(threads[i])
      {
        StepGoesOn(View(), WorkerStep(i, ok));
        Take(Go(i, ok));
        Interleave(between(n));
        n := n + 1;
      }
      Joined(i);
    }

    method SpawnOne()
      requires Sound() && caller == Spawning && |threads| < users
      modifies this`threads, this`actions
      ensures Sound() && actions == old(actions) + [CallerStep]
      ensures threads == old(threads) + [Worker(TestFlag, 0, 0, 0)]
    {
      CallerSteps();
      threads := threads + [Worker(TestFlag, 0, 0, 0)];
    }

    method AllSpawned()
      requires Sound() && caller == Spawning && |threads| == users
      modifies this`caller, this`actions
      ensures Sound() && caller == Sleeping && actions == old(actions) + [CallerStep]
    {
      CallerSteps();
      caller := Sleeping;
    }

    /** The loop that starts the workers; each runs from the moment it is started. */
    method SpawnAll(count: nat, turns: nat -> seq<Turn>)
      requires Sound() && caller == Spawning && threads == [] && users == count && actions == []
      modifies this`isRunning, this`success, this`errors, this`threads, this`actions, this`caller
      ensures Sound() && |threads| == count && caller == Sleeping
      ensures actions == SpawnActions(count, turns) + [CallerStep]
    {
      for i := 0 to count
        invariant Sound() && |threads| == i && caller == Spawning
        invariant actions == SpawnActions(i, turns)
      {
        Interleave(turns(i));
        SpawnOne();
      }
      AllSpawned();
    }

    /** The loop that joins the workers. */
    method JoinAll(turns: nat -> seq<Turn>, last: nat -> bool, between: (nat, nat) -> seq<Turn>)
      requires Sound() && caller == Joining(0)
      modifies this`isRunning, this`success, this`errors, this`threads, this`actions, this`caller
      ensures Sound() && caller == Joining(|threads|) && |threads| == old(|threads|)
      ensures old(actions) <= actions
    {
      for i := 0 to |threads|
        invariant Sound() && |threads| == old(|threads|) && caller == Joining(i)
        invariant old(actions) <= actions
      {
        Interleave(turns(i));
        Join(i, last(i), (n: nat) => between(i, n));
      }
    }

    method Reset(count: nat)
      modifies this
      ensures Sound() && caller == Spawning && threads == [] && users == count && actions == []
    {
      success, errors, threads := 0, 0, [];
      users, caller, report := count, Spawning, None;
      actions, isRunning := [], true;
    }

    /** The caller wakes up and clears the flag. */
    method StopWorkers()
      requires Sound() && caller == Sleeping
      modifies this`isRunning, this`caller, this`actions
      ensures Sound() && caller == Joining(0) && actions == old(actions) + [CallerStep]
    {
      CallerSteps();
      Stop();
      caller := Joining(0);
    }

    /** The counters are read when every worker has been joined. */
    method Report() returns (metrics: Metrics)
      requires Sound() && caller == Joining(|threads|)
      modifies this`caller, this`report, this`actions
      ensures Sound() && report == Some(metrics) && actions == old(actions) + [CallerStep]
    {
      CallerSteps();
      metrics := Metrics(success + errors, success, errors);
      caller, report := Reported, Some(metrics);
    }

    /** What `run` does with a valid configuration. */
    method Work(count: nat, spawning: nat -> seq<Turn>, sleeping: seq<Turn>,
                joining: nat -> seq<Turn>, last: nat -> bool, between: (nat, nat) -> seq<Turn>)
      returns (metrics: Metrics)
      modifies this
      ensures Sound() && users == count && report == Some(metrics)
      ensures SpawnActions(count, spawning) + [CallerStep] + ActionsOf(sleeping) + [CallerStep] <= actions
    {
      Reset(count);
      SpawnAll(count, spawning);
      Interleave(sleeping);
      StopWorkers();
      JoinAll(joining, last, between);
      metrics := Report();
    }

    /** `run`, for every way of letting the workers go on and others call `stop` while it spawns, sleeps
        and joins, and for any two clock readings: it returns, and what it reports is exactly the responses
        the workers have received. */
    method Run(config: Config, start: int, end: int, spawning: nat -> seq<Turn>, sleeping: seq<Turn>,
               joining: nat -> seq<Turn>, last: nat -> bool, between: (nat, nat) -> seq<Turn>)
      returns (r: Result<BenchmarkResult>)
      modifies this
      ensures r.Ok? <==> config.users > 0 && config.seconds > 0 && config.url != ""
      ensures r.Err? ==> r.code == InvalidConfig && unchanged(this)
      ensures r.Ok? ==>
                && View() == RunFrom(Start(config.users), actions) && report == Some(r.value.metrics)
                && SpawnActions(config.users, spawning) + [CallerStep] + ActionsOf(sleeping) + [CallerStep] <= actions
      ensures r.Ok? ==>
                && |threads| == config.users && !isRunning
                && (forall i | 0 <= i < |threads| :: threads[i].pc.Exited? && LateCounts(config.users, actions, i) <= 1)
                && var metrics, responses := r.value.metrics, Responses(config.users, actions);
                   && metrics.total == |responses|
                   && metrics.successful == Good(responses)
                   && metrics.failed == |responses| - Good(responses)
                   && r.value == BenchmarkResult(metrics, start, end, Rate(|responses|, start, end))
      ensures r.Ok? && ClockWentOn(config, start, end) ==>
                var total := |Responses(config.users, actions)|;
                && r.value.rate.Some?
                && TrueRate(total, start, end) <= r.value.rate.value
                && (total > 0 ==> r.value.rate.value < 2.0 * TrueRate(total, start, end))
    {
      var valid := ValidateConfig(config);
      if valid.Err? {
        return Err(valid.code);
      }
      var metrics := Work(config.users, spawning, sleeping, joining, last, between);
      r := Ok(BenchmarkResult(metrics, start, end, Rate(metrics.total, start, end)));
      ReportExact(config.users, actions);
      forall i | 0 <= i < |threads|
        ensures LateCounts(config.users, actions, i) <= 1
      {
        AtMostOneMore(config.users, actions, i);
      }
      if ClockWentOn(config, start, end) {
        RateBound(config, metrics.total, start, end);
      }
    }
  }
}
