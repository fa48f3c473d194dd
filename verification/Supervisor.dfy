/** The supervisor's lifecycle: the goroutine of Run, one goroutine per module, and everything
    that can happen between them. */
module Supervisor {

  // How many modules and hooks there are; each is known by its position.
  datatype Config = Config(modules: nat, postInit: nat, preStop: nat, postStop: nat)

  // What Run calls, in its own goroutine.
  datatype Call = Init(index: nat) | PostInit(index: nat) | CancelRun
                | PreStop(index: nat) | Stop(index: nat) | PostStop(index: nat)

  datatype Ending = EndedNormally | EndedWithError | EndedByPanic

  // The first terminal event, as waitFirstTerminal reports it.
  datatype First = ByContext | BySignal | ByModule(index: nat, ending: Ending)

  datatype Report = InitError | Shutdown(first: First)

  // Where Run is. Stopping(left) has left modules to stop, the next one being left - 1.
  datatype Phase =
    | Initialising(next: nat)
    | Hooking(next: nat)
    | Spawning(next: nat)
    | Waiting
    | Cancelling(first: First)
    | PreStopping(next: nat, first: First)
    | Stopping(left: nat, first: First)
    | PostStopping(next: nat, first: First)
    | Returned(report: Report)

  // The goroutine of Run, with every call it has made.
  datatype Main = Main(phase: Phase, calls: seq<Call>)

  // Where the goroutine of a module is.
  datatype Task = NotSpawned | Spawned | InStart | Sending(ending: Ending) | Done(ending: Ending)

  // A call of Start, made when Run had made after calls of its own.
  datatype Start = Start(index: nat, after: nat)

  // The goroutines, and the channel of the modules whose terminal event nobody has received.
  datatype Pool = Pool(tasks: seq<Task>, channel: seq<nat>, starts: seq<Start>)

  // The caller's context, the signal source, and the context handed to Start.
  datatype Env = Env(contextDone: bool, signalled: bool, runCancelled: bool)

  datatype State = State(cfg: Config, main: Main, pool: Pool, env: Env)

  datatype Step =
    | Proceed(ok: bool)                     // the next call of Run, and whether it succeeds
    | Spawn                                 // one turn of the spawning loop
    | SeeContext | SeeSignal | SeeEvent     // the branches of waitFirstTerminal
    | Begin(index: nat)                     // a goroutine calls Start
    | End(index: nat, ending: Ending)       // Start returns or panics
    | Send(index: nat)                      // the terminal event goes into the channel
    | CancelContext | RaiseSignal

  // make(chan modEvent, len(s.modules)+1)
  function Capacity(cfg: Config): nat {
    cfg.modules + 1
  }

  function Boot(cfg: Config): State {
    State(cfg, Main(Initialising(0), []), Pool(seq(cfg.modules, _ => NotSpawned), [], []), Env(false, false, false))
  }

  predicate CanProceed(p: Phase) {
    !p.Spawning? && !p.Waiting? && !p.Returned?
  }

  predicate HasTask(pool: Pool, m: nat) {
    m < |pool.tasks|
  }

  predicate Enabled(s: State, step: Step) {
    match step
    case Proceed(_) => CanProceed(s.main.phase)
    case Spawn => s.main.phase.Spawning?
    case SeeContext => s.main.phase.Waiting? && s.env.contextDone
    case SeeSignal => s.main.phase.Waiting? && s.env.signalled
    case SeeEvent => s.main.phase.Waiting? && HasEvent(s.pool)
    case Begin(m) => HasTask(s.pool, m) && s.pool.tasks[m].Spawned?
    case End(m, _) => HasTask(s.pool, m) && s.pool.tasks[m].InStart?
    case Send(m) => HasTask(s.pool, m) && s.pool.tasks[m].Sending? && |s.pool.channel| < Capacity(s.cfg)
    case CancelContext => true
    case RaiseSignal => true
  }

  predicate HasEvent(pool: Pool) {
    pool.channel != [] && HasTask(pool, pool.channel[0]) && pool.tasks[pool.channel[0]].Done?
  }

  function Called(m: Main, call: Call, phase: Phase): Main {
    Main(phase, m.calls + [call])
  }

  // One turn of the loop Run is in, or the step to the next loop.
  function Proceeded(cfg: Config, m: Main, ok: bool): Main
    requires CanProceed(m.phase)
  {
    match m.phase
    case Initialising(i) =>
      if i < cfg.modules then Called(m, Init(i), if ok then Initialising(i + 1) else Returned(InitError))
      else m.(phase := Hooking(0))
    case Hooking(j) =>
      if j < cfg.postInit then Called(m, PostInit(j), if ok then Hooking(j + 1) else Returned(InitError))
      else m.(phase := Spawning(0))
    case Cancelling(first) => Called(m, CancelRun, PreStopping(0, first))
    case PreStopping(j, first) =>
      if j < cfg.preStop then Called(m, PreStop(j), PreStopping(j + 1, first))
      else m.(phase := Stopping(cfg.modules, first))
    case Stopping(left, first) =>
      if left > 0 then Called(m, Stop(left - 1), Stopping(left - 1, first))
      else m.(phase := PostStopping(0, first))
    case PostStopping(j, first) =>
      if j < cfg.postStop then Called(m, PostStop(j), PostStopping(j + 1, first))
      else m.(phase := Returned(Shutdown(first)))
  }

  function SpawnNext(s: State): State
    requires s.main.phase.Spawning?
  {
    var i := s.main.phase.next;
    if i < |s.pool.tasks|
    then s.(main := s.main.(phase := Spawning(i + 1)), pool := s.pool.(tasks := s.pool.tasks[i := Spawned]))
    else s.(main := s.main.(phase := Waiting))
  }

  function Saw(s: State, first: First): State {
    s.(main := s.main.(phase := Cancelling(first)))
  }

  function Received(s: State): State
    requires HasEvent(s.pool)
  {
    var m := s.pool.channel[0];
    Saw(s, ByModule(m, s.pool.tasks[m].ending)).(pool := s.pool.(channel := s.pool.channel[1..]))
  }

  // The run context exists, and dies with the caller's.
  predicate Spawns(p: Phase) {
    !p.Initialising? && !p.Hooking? && p != Returned(InitError)
  }

  // The run context is made after the setup, out of the caller's, and cancelled after the first event.
  predicate RunContextDone(cfg: Config, s: State, ok: bool)
    requires CanProceed(s.main.phase)
  {
    s.env.runCancelled || s.main.phase.Cancelling? ||
    (s.env.contextDone && Proceeded(cfg, s.main, ok).phase.Spawning?)
  }

  function Next(s: State, step: Step): State
    requires Enabled(s, step)
  {
    match step
    case Proceed(ok) =>
      s.(main := Proceeded(s.cfg, s.main, ok),
        env := s.env.(runCancelled := RunContextDone(s.cfg, s, ok)))
    case Spawn => SpawnNext(s)
    case SeeContext => Saw(s, ByContext)
    case SeeSignal => Saw(s, BySignal)
    case SeeEvent => Received(s)
    case Begin(m) =>
      s.(pool := s.pool.(tasks := s.pool.tasks[m := InStart], starts := s.pool.starts + [Start(m, |s.main.calls|)]))
    case End(m, ending) => s.(pool := s.pool.(tasks := s.pool.tasks[m := Sending(ending)]))
    case Send(m) =>
      s.(pool := s.pool.(tasks := s.pool.tasks[m := Done(s.pool.tasks[m].ending)], channel := s.pool.channel + [m]))
    case CancelContext => s.(env := s.env.(contextDone := true,
      runCancelled := s.env.runCancelled || Spawns(s.main.phase)))
    case RaiseSignal => s.(env := s.env.(signalled := true))
  }

  ghost predicate Feasible(s: State, steps: seq<Step>)
    decreases |steps|
  {
    steps != [] ==> Enabled(s, steps[0]) && Feasible(Next(s, steps[0]), steps[1..])
  }

  ghost function Exec(s: State, steps: seq<Step>): State
    requires Feasible(s, steps)
    decreases |steps|
  {
    if steps == [] then s else Exec(Next(s, steps[0]), steps[1..])
  }

  /* The order of the calls */

  function Inits(n: nat): seq<Call> { seq(n, (i: nat) => Init(i)) }
  function PostInits(n: nat): seq<Call> { seq(n, (i: nat) => PostInit(i)) }
  function PreStops(n: nat): seq<Call> { seq(n, (i: nat) => PreStop(i)) }
  function StopsInReverse(n: nat): seq<Call> { seq(n, (i: nat) requires i < n => Stop(n - 1 - i)) }
  function PostStops(n: nat): seq<Call> { seq(n, (i: nat) => PostStop(i)) }

  function Setup(cfg: Config): seq<Call> {
    Inits(cfg.modules) + PostInits(cfg.postInit)
  }

  function Teardown(cfg: Config): seq<Call> {
    [CancelRun] + PreStops(cfg.preStop) + StopsInReverse(cfg.modules) + PostStops(cfg.postStop)
  }

  function Script(cfg: Config): seq<Call> {
    Setup(cfg) + Teardown(cfg)
  }

  // How many calls the phase comes after.
  function Position(cfg: Config, p: Phase): int
    requires p != Returned(InitError)
  {
    var setup := cfg.modules + cfg.postInit;
    match p
    case Initialising(i) => i
    case Hooking(j) => cfg.modules + j
    case Spawning(_) => setup
    case Waiting => setup
    case Cancelling(_) => setup
    case PreStopping(j, _) => setup + 1 + j
    case Stopping(left, _) => setup + 1 + cfg.preStop + cfg.modules - left
    case PostStopping(j, _) => setup + 1 + cfg.preStop + cfg.modules + j
    case Returned(_) => setup + 1 + cfg.preStop + cfg.modules + cfg.postStop
  }

  predicate InRange(cfg: Config, p: Phase) {
    match p
    case Initialising(i) => i <= cfg.modules
    case Hooking(j) => j <= cfg.postInit
    case PreStopping(j, _) => j <= cfg.preStop
    case Stopping(left, _) => left <= cfg.modules
    case PostStopping(j, _) => j <= cfg.postStop
    case _ => true
  }

  function CallAt(cfg: Config, i: nat): Call
    requires i < Position(cfg, Returned(Shutdown(ByContext)))
  {
    var n, k, p := cfg.modules, cfg.postInit, cfg.preStop;
    if i < n then Init(i)
    else if i < n + k then PostInit(i - n)
    else if i == n + k then CancelRun
    else if i < n + k + 1 + p then PreStop(i - (n + k + 1))
    else if i < n + k + 1 + p + n then Stop(n - 1 - (i - (n + k + 1 + p)))
    else PostStop(i - (n + k + 1 + p + n))
  }

  // The calls so far are the beginning of the script, and the phase tells how much of it.
  ghost predicate AsScripted(cfg: Config, m: Main) {
    && InRange(cfg, m.phase)
    && Follows(cfg, m.calls)
    && CountMatches(cfg, m.phase, |m.calls|)
  }

  ghost predicate Follows(cfg: Config, calls: seq<Call>) {
    forall i | 0 <= i < |calls| :: i < Position(cfg, Returned(Shutdown(ByContext))) && calls[i] == CallAt(cfg, i)
  }

  predicate CountMatches(cfg: Config, p: Phase, count: nat) {
    if p == Returned(InitError) then 0 < count <= cfg.modules + cfg.postInit else count == Position(cfg, p)
  }

  lemma ScriptIsCallAt(cfg: Config)
    ensures |Script(cfg)| == Position(cfg, Returned(Shutdown(ByContext)))
    ensures forall i | 0 <= i < |Script(cfg)| :: Script(cfg)[i] == CallAt(cfg, i)
  {
  }

  lemma ScriptedIsPrefix(cfg: Config, m: Main)
    requires AsScripted(cfg, m)
    ensures m.calls <= Script(cfg)
  {
    ScriptIsCallAt(cfg);
  }

  lemma CalledFollows(cfg: Config, m: Main, call: Call, phase: Phase)
    requires Follows(cfg, m.calls) && InRange(cfg, phase) && CountMatches(cfg, phase, |m.calls| + 1)
    requires |m.calls| < Position(cfg, Returned(Shutdown(ByContext))) && call == CallAt(cfg, |m.calls|)
    ensures AsScripted(cfg, Called(m, call, phase))
  {
  }

  // n is m after at most one more call, and that call is the next of the script.
  ghost predicate CallsNext(cfg: Config, m: Main, n: Main) {
    && InRange(cfg, n.phase)
    && (n.calls == m.calls ==> CountMatches(cfg, n.phase, |m.calls|))
    && (n.calls != m.calls ==>
          && |m.calls| < Position(cfg, Returned(Shutdown(ByContext)))
          && n.calls == m.calls + [CallAt(cfg, |m.calls|)]
          && CountMatches(cfg, n.phase, |m.calls| + 1))
  }

  lemma SetupCallsNext(cfg: Config, m: Main, ok: bool)
    requires InRange(cfg, m.phase) && CountMatches(cfg, m.phase, |m.calls|)
      && (m.phase.Initialising? || m.phase.Hooking?)
    ensures CallsNext(cfg, m, Proceeded(cfg, m, ok))
  {
  }

  lemma TeardownCallsNext(cfg: Config, m: Main, ok: bool)
    requires InRange(cfg, m.phase) && CountMatches(cfg, m.phase, |m.calls|)
    requires m.phase.Cancelling? || m.phase.PreStopping? || m.phase.Stopping? || m.phase.PostStopping?
    ensures CallsNext(cfg, m, Proceeded(cfg, m, ok))
  {
  }

  lemma ProceedAsScripted(cfg: Config, m: Main, ok: bool)
    requires AsScripted(cfg, m) && CanProceed(m.phase)
    ensures AsScripted(cfg, Proceeded(cfg, m, ok))
  {
    if m.phase.Initialising? || m.phase.Hooking? {
      SetupCallsNext(cfg, m, ok);
    } else {
      TeardownCallsNext(cfg, m, ok);
    }
    var n := Proceeded(cfg, m, ok);
    if n.calls != m.calls {
      CalledFollows(cfg, m, n.calls[|m.calls|], n.phase);
    }
  }

  /* Invariants of every interleaving */

  ghost predicate DistinctNats(xs: seq<nat>) {
    forall i, j | 0 <= i < j < |xs| :: xs[i] != xs[j]
  }

  // Goroutines exist only from the spawning loop on.
  ghost predicate TasksMatch(cfg: Config, p: Phase, tasks: seq<Task>) {
    && |tasks| == cfg.modules
    && (!Spawns(p) ==> forall m | 0 <= m < |tasks| :: tasks[m].NotSpawned?)
    && (p.Spawning? ==> forall m | p.next <= m < |tasks| :: tasks[m].NotSpawned?)
    && (Spawns(p) ==> forall m | 0 <= m < |tasks| && (p.Spawning? ==> m < p.next) :: !tasks[m].NotSpawned?)
  }

  // Each event in the channel is the only one of a goroutine that is done.
  ghost predicate ChannelMatches(pool: Pool) {
    && DistinctNats(pool.channel)
    && (forall k | 0 <= k < |pool.channel| :: HasTask(pool, pool.channel[k]) && pool.tasks[pool.channel[k]].Done?)
  }

  predicate Begun(pool: Pool, m: nat) {
    HasTask(pool, m) && !pool.tasks[m].NotSpawned? && !pool.tasks[m].Spawned?
  }

  // Every Start was made once, by a goroutine that exists, after the whole setup.
  ghost predicate StartsMatch(cfg: Config, pool: Pool, calls: nat) {
    && (forall p | 0 <= p < |pool.starts| :: Begun(pool, pool.starts[p].index))
    && StartedOnce(pool.starts)
    && StartsFollowSetup(cfg, pool.starts, calls)
    && (forall m: nat | Begun(pool, m) :: StartedBy(pool.starts, m, calls))
  }

  // Start of m was called when Run had made at most so many calls.
  ghost predicate StartedBy(starts: seq<Start>, m: nat, calls: nat) {
    exists p | 0 <= p < |starts| :: starts[p].index == m && starts[p].after <= calls
  }

  ghost predicate StartedOnce(starts: seq<Start>) {
    forall p, q | 0 <= p < q < |starts| :: starts[p].index != starts[q].index
  }

  ghost predicate StartsFollowSetup(cfg: Config, starts: seq<Start>, calls: nat) {
    forall p | 0 <= p < |starts| :: cfg.modules + cfg.postInit <= starts[p].after <= calls
  }

  // What Run saw first did happen.
  predicate FirstIsTrue(s: State, first: First) {
    match first
    case ByContext => s.env.contextDone
    case BySignal => s.env.signalled
    case ByModule(m, ending) => HasTask(s.pool, m) && s.pool.tasks[m] == Done(ending)
  }

  predicate PhaseIsTrue(s: State) {
    match s.main.phase
    case Cancelling(first) => FirstIsTrue(s, first)
    case PreStopping(_, first) => FirstIsTrue(s, first) && s.env.runCancelled
    case Stopping(_, first) => FirstIsTrue(s, first) && s.env.runCancelled
    case PostStopping(_, first) => FirstIsTrue(s, first) && s.env.runCancelled
    case Returned(Shutdown(first)) => FirstIsTrue(s, first) && s.env.runCancelled
    case _ => true
  }

  ghost predicate Inv(s: State) {
    && AsScripted(s.cfg, s.main)
    && TasksMatch(s.cfg, s.main.phase, s.pool.tasks)
    && ChannelMatches(s.pool)
    && StartsMatch(s.cfg, s.pool, |s.main.calls|)
    && PhaseIsTrue(s)
  }

  // What the goroutine of Run does to the phase, seen from the goroutines.
  lemma ProceedKeepsTasks(s: State, ok: bool)
    requires Inv(s) && CanProceed(s.main.phase)
    ensures TasksMatch(s.cfg, Proceeded(s.cfg, s.main, ok).phase, s.pool.tasks)
    ensures PhaseIsTrue(Next(s, Proceed(ok)))
  {
  }

  lemma ProceedKeepsInv(s: State, ok: bool)
    requires Inv(s) && CanProceed(s.main.phase)
    ensures Inv(Next(s, Proceed(ok)))
  {
    ProceedAsScripted(s.cfg, s.main, ok);
    ProceedKeepsTasks(s, ok);
  }

  lemma WaitKeepsInv(s: State, step: Step)
    requires Inv(s) && Enabled(s, step)
    requires step.Spawn? || step.SeeContext? || step.SeeSignal? || step.SeeEvent?
    ensures Inv(Next(s, step))
  {
    assert |s.main.calls| == s.cfg.modules + s.cfg.postInit;
    WaitKeepsTasks(s, step);
  }

  lemma WaitKeepsTasks(s: State, step: Step)
    requires InRange(s.cfg, s.main.phase) && TasksMatch(s.cfg, s.main.phase, s.pool.tasks) && Enabled(s, step)
    requires step.Spawn? || step.SeeContext? || step.SeeSignal? || step.SeeEvent?
    ensures TasksMatch(s.cfg, Next(s, step).main.phase, Next(s, step).pool.tasks)
  {
  }

  lemma SpawnedPastSetup(cfg: Config, m: Main, tasks: seq<Task>, i: nat)
    requires AsScripted(cfg, m) && TasksMatch(cfg, m.phase, tasks)
    requires i < |tasks| && !tasks[i].NotSpawned?
    ensures Spawns(m.phase) && |m.calls| >= cfg.modules + cfg.postInit
  {
  }

  // A goroutine that exists changes its own entry only.
  lemma TaskKeepsTasks(cfg: Config, m: Main, tasks: seq<Task>, i: nat, task: Task)
    requires AsScripted(cfg, m) && TasksMatch(cfg, m.phase, tasks)
    requires i < |tasks| && !tasks[i].NotSpawned? && !task.NotSpawned?
    ensures TasksMatch(cfg, m.phase, tasks[i := task])
  {
    SpawnedPastSetup(cfg, m, tasks, i);
  }

  lemma TaskKeepsInv(s: State, step: Step)
    requires Inv(s) && Enabled(s, step) && (step.Begin? || step.End? || step.Send?)
    ensures Inv(Next(s, step))
  {
    var n := Next(s, step);
    SpawnedPastSetup(s.cfg, s.main, s.pool.tasks, step.index);
    TaskKeepsTasks(s.cfg, s.main, s.pool.tasks, step.index, n.pool.tasks[step.index]);
    TaskKeepsPool(s, step);
  }

  lemma TaskKeepsPool(s: State, step: Step)
    requires ChannelMatches(s.pool) && StartsMatch(s.cfg, s.pool, |s.main.calls|)
    requires |s.main.calls| >= s.cfg.modules + s.cfg.postInit
    requires Enabled(s, step) && (step.Begin? || step.End? || step.Send?)
    ensures ChannelMatches(Next(s, step).pool) && StartsMatch(s.cfg, Next(s, step).pool, |s.main.calls|)
  {
    var n := Next(s, step);
    forall m: nat | Begun(n.pool, m) ensures StartedBy(n.pool.starts, m, |s.main.calls|) {
      if step.Begin? && m == step.index {
        assert n.pool.starts[|s.pool.starts|].index == m;
      } else {
        assert Begun(s.pool, m);
        StartedByLonger(s.pool.starts, n.pool.starts, m, |s.main.calls|);
      }
    }
  }

  lemma StartedByLonger(starts: seq<Start>, starts': seq<Start>, m: nat, calls: nat)
    requires starts <= starts' && StartedBy(starts, m, calls)
    ensures StartedBy(starts', m, calls)
  {
    var p :| 0 <= p < |starts| && starts[p].index == m && starts[p].after <= calls;
    assert starts'[p] == starts[p];
  }

  lemma StepKeepsInv(s: State, step: Step)
    requires Inv(s) && Enabled(s, step)
    ensures Inv(Next(s, step))
  {
    match step
    case Proceed(ok) => ProceedKeepsInv(s, ok);
    case Begin(_) => TaskKeepsInv(s, step);
    case End(_, _) => TaskKeepsInv(s, step);
    case Send(_) => TaskKeepsInv(s, step);
    case CancelContext =>
    case RaiseSignal =>
    case _ => WaitKeepsInv(s, step);
  }

  lemma {:induction false} RunKeepsInv(s: State, steps: seq<Step>)
    requires Inv(s) && Feasible(s, steps)
    ensures Inv(Exec(s, steps)) && Exec(s, steps).cfg == s.cfg
    decreases |steps|
  {
    if steps != [] {
      StepKeepsInv(s, steps[0]);
      RunKeepsInv(Next(s, steps[0]), steps[1..]);
    }
  }

  /* Main results */

  // Whatever fails, panics or times out, Run calls what the script says in its order,
  // and no module starts before the last call of the setup.
  lemma {:induction false} RunIsOrdered(cfg: Config, steps: seq<Step>)
    requires Feasible(Boot(cfg), steps)
    ensures var s := Exec(Boot(cfg), steps);
            && s.main.calls <= Script(cfg)
            && StartedOnce(s.pool.starts)
            && forall p | 0 <= p < |s.pool.starts| ::
                 && |Setup(cfg)| <= s.pool.starts[p].after <= |s.main.calls|
                 && s.pool.starts[p].index < cfg.modules
  {
    RunKeepsInv(Boot(cfg), steps);
    ScriptedIsPrefix(cfg, Exec(Boot(cfg), steps).main);
    assert |Setup(cfg)| == cfg.modules + cfg.postInit;
    forall p | 0 <= p < |Exec(Boot(cfg), steps).pool.starts|
      ensures Exec(Boot(cfg), steps).pool.starts[p].index < cfg.modules
    {
      assert Begun(Exec(Boot(cfg), steps).pool, Exec(Boot(cfg), steps).pool.starts[p].index);
    }
  }

  // A failed Init or post-init hook is the last call; nothing is started, then or later, and nothing stopped.
  lemma {:induction false} FailedInitStartsNothing(cfg: Config, steps: seq<Step>)
    requires Feasible(Boot(cfg), steps)
    requires Exec(Boot(cfg), steps).main.phase == Returned(InitError)
    ensures Exec(Boot(cfg), steps).pool.starts == []
    ensures [] < Exec(Boot(cfg), steps).main.calls <= Setup(cfg)
  {
    var s := Exec(Boot(cfg), steps);
    RunKeepsInv(Boot(cfg), steps);
    ScriptedIsPrefix(cfg, s.main);
    FirstBegun(cfg, s.pool, |s.main.calls|);
  }

  // An Init or a post-init hook is called and fails.
  predicate FailsSetup(s: State, step: Step) {
    && step == Proceed(false) && Enabled(s, step)
    && var (was, now) := (s.main.calls, Next(s, step).main.calls);
       |was| < |now| && (now[|now| - 1].Init? || now[|now| - 1].PostInit?)
  }

  ghost predicate SetupFails(s: State, steps: seq<Step>)
    requires Feasible(s, steps)
    decreases |steps|
  {
    steps != [] && (FailsSetup(s, steps[0]) || SetupFails(Next(s, steps[0]), steps[1..]))
  }

  lemma {:induction false} InitErrorStays(s: State, steps: seq<Step>)
    requires s.main.phase == Returned(InitError) && Feasible(s, steps)
    ensures Exec(s, steps).main == s.main && !SetupFails(s, steps)
    decreases |steps|
  {
    if steps != [] {
      InitErrorStays(Next(s, steps[0]), steps[1..]);
    }
  }

  lemma FailedSetup(s: State)
    requires Inv(s) && FailsSetup(s, Proceed(false))
    ensures Inv(Next(s, Proceed(false))) && Next(s, Proceed(false)).main.phase == Returned(InitError)
  {
    ProceedKeepsInv(s, false);
  }

  // Run gives up at the failing call, whatever happens around it: that call is the last one, ever, and no
  // goroutine of a module exists, then or later.
  lemma {:induction false} FailedSetupIsTheEnd(cfg: Config, before: seq<Step>, rest: seq<Step>)
    requires Feasible(Boot(cfg), before) && FailsSetup(Exec(Boot(cfg), before), Proceed(false))
    requires Feasible(Next(Exec(Boot(cfg), before), Proceed(false)), rest)
    ensures var n := Next(Exec(Boot(cfg), before), Proceed(false));
      var f := Exec(n, rest);
      && f.main.phase == Returned(InitError) && f.main.calls == n.main.calls
      && f.pool.starts == [] && forall m | 0 <= m < |f.pool.tasks| :: f.pool.tasks[m].NotSpawned?
  {
    var s := Exec(Boot(cfg), before);
    var n := Next(s, Proceed(false));
    RunKeepsInv(Boot(cfg), before);
    FailedSetup(s);
    RunKeepsInv(n, rest);
    InitErrorStays(n, rest);
    FirstBegun(cfg, Exec(n, rest).pool, |n.main.calls|);
  }

  lemma {:induction false} InitErrorFrom(s: State, steps: seq<Step>)
    requires Feasible(s, steps) && s.main.phase != Returned(InitError)
    ensures Exec(s, steps).main.phase == Returned(InitError) <==> SetupFails(s, steps)
    decreases |steps|
  {
    if steps != [] {
      var n := Next(s, steps[0]);
      if n.main.phase == Returned(InitError) {
        InitErrorStays(n, steps[1..]);
      } else {
        InitErrorFrom(n, steps[1..]);
      }
    }
  }

  // It reports an initialisation error exactly when some Init or post-init hook was called and failed.
  lemma {:induction false} InitErrorIff(cfg: Config, steps: seq<Step>)
    requires Feasible(Boot(cfg), steps)
    ensures Exec(Boot(cfg), steps).main.phase == Returned(InitError) <==> SetupFails(Boot(cfg), steps)
  {
    InitErrorFrom(Boot(cfg), steps);
  }

  // The first event is behind Run, and it has cancelled the run context.
  predicate PastCancel(p: Phase) {
    p.PreStopping? || p.Stopping? || p.PostStopping? || (p.Returned? && p.report.Shutdown?)
  }

  ghost predicate ContextsMatch(s: State) {
    s.env.runCancelled <==> Spawns(s.main.phase) && (s.env.contextDone || PastCancel(s.main.phase))
  }

  lemma StepKeepsContexts(s: State, step: Step)
    requires ContextsMatch(s) && Enabled(s, step)
    ensures ContextsMatch(Next(s, step))
  {
  }

  lemma {:induction false} RunKeepsContexts(s: State, steps: seq<Step>)
    requires ContextsMatch(s) && Feasible(s, steps)
    ensures ContextsMatch(Exec(s, steps))
    decreases |steps|
  {
    if steps != [] {
      StepKeepsContexts(s, steps[0]);
      RunKeepsContexts(Next(s, steps[0]), steps[1..]);
    }
  }

  // The context that modules run in ends exactly when the caller's has ended or Run has cancelled it.
  lemma {:induction false} RunContextEndsIff(cfg: Config, steps: seq<Step>)
    requires Feasible(Boot(cfg), steps) && Spawns(Exec(Boot(cfg), steps).main.phase)
    ensures var s := Exec(Boot(cfg), steps);
      s.env.runCancelled <==> s.env.contextDone || PastCancel(s.main.phase)
  {
    RunKeepsContexts(Boot(cfg), steps);
  }

  // Once Run waits for an event, every module has its goroutine.
  lemma {:induction false} EveryModuleIsSpawned(cfg: Config, steps: seq<Step>)
    requires Feasible(Boot(cfg), steps)
    requires var p := Exec(Boot(cfg), steps).main.phase;
      p.Waiting? || p.Cancelling? || p.PreStopping? || p.Stopping? || p.PostStopping? ||
      (p.Returned? && p.report.Shutdown?)
    ensures |Exec(Boot(cfg), steps).pool.tasks| == cfg.modules
    ensures forall m | 0 <= m < cfg.modules :: !Exec(Boot(cfg), steps).pool.tasks[m].NotSpawned?
  {
    RunKeepsInv(Boot(cfg), steps);
  }

  lemma FirstBegun(cfg: Config, pool: Pool, calls: nat)
    requires StartsMatch(cfg, pool, calls)
    ensures pool.starts != [] ==> Begun(pool, pool.starts[0].index)
  {
  }

  // The stop sequence is complete, in reverse order, after the cancellation, and for a true reason.
  lemma {:induction false} ShutdownIsComplete(cfg: Config, steps: seq<Step>, first: First)
    requires Feasible(Boot(cfg), steps)
    requires Exec(Boot(cfg), steps).main.phase == Returned(Shutdown(first))
    ensures Exec(Boot(cfg), steps).main.calls ==
            Inits(cfg.modules) + PostInits(cfg.postInit) + [CancelRun] +
            PreStops(cfg.preStop) + StopsInReverse(cfg.modules) + PostStops(cfg.postStop)
    ensures Exec(Boot(cfg), steps).env.runCancelled && FirstIsTrue(Exec(Boot(cfg), steps), first)
  {
    RunKeepsInv(Boot(cfg), steps);
    var s := Exec(Boot(cfg), steps);
    ScriptedIsPrefix(cfg, s.main);
    ScriptIsCallAt(cfg);
    assert s.main.calls == Script(cfg);
    ScriptFlat(cfg);
  }

  lemma ScriptFlat(cfg: Config)
    ensures Script(cfg) == Inits(cfg.modules) + PostInits(cfg.postInit) + [CancelRun] +
                           PreStops(cfg.preStop) + StopsInReverse(cfg.modules) + PostStops(cfg.postStop)
  {
  }

  lemma {:induction false} DistinctBelow(xs: seq<nat>, n: nat)
    requires DistinctNats(xs) && forall i | 0 <= i < |xs| :: xs[i] < n
    ensures |xs| <= n
    decreases n
  {
    assert |xs| > 0 ==> 0 <= xs[0] < n;
    if n > 0 {
      if k: nat :| k < |xs| && xs[k] == n - 1 {
        DistinctBelow(xs[..k] + xs[k + 1..], n - 1);
      } else {
        DistinctBelow(xs, n - 1);
      }
    }
  }

  // A goroutine with a terminal event always finds room for it; one slot less would do.
  lemma {:induction false} NoSendBlocks(cfg: Config, steps: seq<Step>, m: nat)
    requires Feasible(Boot(cfg), steps) && HasTask(Exec(Boot(cfg), steps).pool, m)
    requires Exec(Boot(cfg), steps).pool.tasks[m].Sending?
    ensures Enabled(Exec(Boot(cfg), steps), Send(m))
    ensures |Exec(Boot(cfg), steps).pool.channel| < cfg.modules
  {
    RunKeepsInv(Boot(cfg), steps);
    DistinctBelow(Exec(Boot(cfg), steps).pool.channel + [m], cfg.modules);
  }

  /* Start and Stop of one module */

  // What happens later is recorded later.
  lemma {:induction false} StartsGrow(s: State, steps: seq<Step>)
    requires Feasible(s, steps)
    ensures s.pool.starts <= Exec(s, steps).pool.starts
    ensures forall p | |s.pool.starts| <= p < |Exec(s, steps).pool.starts| ::
      Exec(s, steps).pool.starts[p].after >= |s.main.calls|
    decreases |steps|
  {
    if steps != [] {
      StartsGrow(Next(s, steps[0]), steps[1..]);
    }
  }

  // The record of every run that goes on has a Start of m from before its Stop if and only if the
  // goroutine of m has called Start when Run calls Stop.
  lemma {:induction false} StartPrecedesStopIff(cfg: Config, before: seq<Step>, ok: bool, rest: seq<Step>, m: nat)
    requires Feasible(Boot(cfg), before) && StopsNext(Exec(Boot(cfg), before), m)
    requires Feasible(Next(Exec(Boot(cfg), before), Proceed(ok)), rest)
    ensures var s := Exec(Boot(cfg), before);
      && Next(s, Proceed(ok)).main.calls == s.main.calls + [Stop(m)]
      && (StartedBy(Exec(Next(s, Proceed(ok)), rest).pool.starts, m, |s.main.calls|) <==> Begun(s.pool, m))
  {
    var s := Exec(Boot(cfg), before);
    var n := Next(s, Proceed(ok));
    RunKeepsInv(Boot(cfg), before);
    StartsGrow(n, rest);
    var starts := Exec(n, rest).pool.starts;
    if Begun(s.pool, m) {
      StartedByLonger(s.pool.starts, starts, m, |s.main.calls|);
    }
    if StartedBy(starts, m, |s.main.calls|) {
      var p :| 0 <= p < |starts| && starts[p].index == m && starts[p].after <= |s.main.calls|;
      assert p < |s.pool.starts| && s.pool.starts[p] == starts[p];
    }
  }

  // The next call of Run is Stop of module m.
  predicate StopsNext(s: State, m: nat) {
    s.main.phase.Stopping? && s.main.phase.left == m + 1
  }

  // So the module whose terminal event began the shutdown is always stopped after its Start.
  lemma {:induction false} TriggerStartedFirst(cfg: Config, before: seq<Step>, ok: bool, rest: seq<Step>, m: nat)
    requires Feasible(Boot(cfg), before) && StopsNext(Exec(Boot(cfg), before), m)
    requires Exec(Boot(cfg), before).main.phase.first.ByModule? && Exec(Boot(cfg), before).main.phase.first.index == m
    requires Feasible(Next(Exec(Boot(cfg), before), Proceed(ok)), rest)
    ensures StartedBy(Exec(Next(Exec(Boot(cfg), before), Proceed(ok)), rest).pool.starts, m,
      |Exec(Boot(cfg), before).main.calls|)
  {
    RunKeepsInv(Boot(cfg), before);
    StartPrecedesStopIff(cfg, before, ok, rest, m);
  }

  lemma {:induction false} Prepend(s: State, step: Step, rest: seq<Step>)
    requires Enabled(s, step) && Feasible(Next(s, step), rest)
    ensures Feasible(s, [step] + rest) && Exec(s, [step] + rest) == Exec(Next(s, step), rest)
  {
    assert ([step] + rest)[1..] == rest;
  }

  // Init, the spawning loop, and the caller cancels while Run waits.
  lemma CancelWhileWaiting(rest: seq<Step>) returns (steps: seq<Step>)
    requires Feasible(OneCancelled(), rest)
    ensures Feasible(Boot(ONE), steps) && Exec(Boot(ONE), steps) == Exec(OneCancelled(), rest)
  {
    var s0 := Boot(ONE);
    var s1 := s0.(main := Main(Initialising(1), [Init(0)]));
    var s2 := s0.(main := Main(Hooking(0), [Init(0)]));
    var s3 := s0.(main := Main(Spawning(0), [Init(0)]));
    var s4 := State(ONE, Main(Spawning(1), [Init(0)]), Pool([Spawned], [], []), s0.env);
    var s5 := State(ONE, Main(Waiting, [Init(0)]), Pool([Spawned], [], []), s0.env);
    assert s0.pool.tasks[0 := Spawned] == [Spawned];
    assert [] + [Init(0)] == [Init(0)];
    assert Next(s0, Proceed(true)) == s1;
    steps := [CancelContext] + rest;
    Prepend(s5, CancelContext, rest);
    Prepend(s4, Spawn, steps);
    steps := [Spawn] + steps;
    Prepend(s3, Spawn, steps);
    steps := [Spawn] + steps;
    Prepend(s2, Proceed(true), steps);
    steps := [Proceed(true)] + steps;
    Prepend(s1, Proceed(true), steps);
    steps := [Proceed(true)] + steps;
    Prepend(s0, Proceed(true), steps);
    steps := [Proceed(true)] + steps;
  }

  // One module and no hooks.
  const ONE := Config(1, 0, 0, 0)

  // Its goroutine exists and has not called Start yet.
  function OneCancelled(): State {
    State(ONE, Main(Waiting, [Init(0)]), Pool([Spawned], [], []), Env(true, false, true))
  }

  // Start is called by a goroutine nobody waits for: it may follow the Stop of its module.
  lemma StopMayPrecedeStart() returns (steps: seq<Step>)
    ensures Feasible(Boot(ONE), steps)
    ensures Exec(Boot(ONE), steps).main.calls == [Init(0), CancelRun, Stop(0)]
    ensures Exec(Boot(ONE), steps).pool.starts == [Start(0, 3)]
  {
    var s0 := OneCancelled();
    var s1 := s0.(main := Main(Cancelling(ByContext), [Init(0)]));
    var s2 := s0.(main := Main(PreStopping(0, ByContext), [Init(0), CancelRun]));
    var s3 := s0.(main := Main(Stopping(1, ByContext), [Init(0), CancelRun]));
    var s4 := s0.(main := Main(Stopping(0, ByContext), [Init(0), CancelRun, Stop(0)]));
    assert [Init(0)] + [CancelRun] == [Init(0), CancelRun];
    assert Next(s1, Proceed(true)) == s2;
    assert [Init(0), CancelRun] + [Stop(0)] == [Init(0), CancelRun, Stop(0)];
    steps := [Begin(0)] + [];
    Prepend(s4, Begin(0), []);
    Prepend(s3, Proceed(true), steps);
    steps := [Proceed(true)] + steps;
    Prepend(s2, Proceed(true), steps);
    steps := [Proceed(true)] + steps;
    Prepend(s1, Proceed(true), steps);
    steps := [Proceed(true)] + steps;
    Prepend(s0, SeeContext, steps);
    steps := [SeeContext] + steps;
    steps := CancelWhileWaiting(steps);
  }
}
