/** The in-memory event bus: Record, Start and Shutdown under the state lock, the jobs
    channel and the workers, in every interleaving. */
module MemoryBus {

  type TaskId = int
  type WorkerId = int
  type JobId = nat

  datatype Chan = Absent | Open | Closed

  // A Record call inside the read lock: the event being appended, or handlers left to queue.
  // sending: pending has been raised for a job that is not in the channel yet.
  datatype Record = Appending | Queueing(left: nat, sending: bool)

  datatype Worker = Idle | Busy(job: JobId) | Gone

  datatype State = State(
    workerCount: nat,
    capacity: nat,
    started: bool,
    closed: bool,
    chan: Chan,
    records: map<TaskId, Record>,
    jobs: seq<JobId>,
    pending: int,
    workers: map<WorkerId, Worker>,
    next: JobId,               // jobs accepted so far
    finished: seq<JobId>)      // jobs whose handler has been run, in order

  datatype Step =
    | Enter(task: TaskId)
    | AppendEvent(task: TaskId, handlers: nat)
    | AppendFails(task: TaskId)
    | Add(task: TaskId)
    | Send(task: TaskId)
    | SendCancelled(task: TaskId)
    | Leave(task: TaskId)
    | Start
    | CloseBus
    | CloseJobs
    | Take(w: WorkerId)
    | Finish(w: WorkerId)
    | Exit(w: WorkerId)

  // The goroutines that Start spawns.
  function Pool(n: nat): (pool: map<WorkerId, Worker>)
    ensures forall w :: w in pool <==> 0 <= w < n
    ensures forall w | w in pool :: pool[w] == Idle
  {
    if n == 0 then map[] else Pool(n - 1)[n - 1 := Idle]
  }

  predicate IsSending(records: map<TaskId, Record>, task: TaskId) {
    task in records && records[task].Queueing? && records[task].sending
  }

  predicate Enabled(s: State, step: Step) {
    match step
    case Enter(task) => task !in s.records && s.started && !s.closed
    case AppendEvent(task, _) => task in s.records && s.records[task].Appending?
    case AppendFails(task) => task in s.records && s.records[task].Appending?
    case Add(task) => task in s.records && s.records[task].Queueing? && !s.records[task].sending
      && s.records[task].left > 0
    case Send(task) => IsSending(s.records, task) && s.records[task].left > 0 && s.chan.Open? && |s.jobs| < s.capacity
    case SendCancelled(task) => IsSending(s.records, task)
    case Leave(task) => task in s.records && s.records[task] == Queueing(0, false)
    case Start => s.records == map[] && !s.closed && !s.started
    case CloseBus => s.records == map[]
    case CloseJobs => s.closed && s.started && s.chan.Open?
    case Take(w) => w in s.workers && s.workers[w].Idle? && s.jobs != []
    case Finish(w) => w in s.workers && s.workers[w].Busy?
    case Exit(w) => w in s.workers && s.workers[w].Idle? && s.chan.Closed? && s.jobs == []
  }

  function Next(s: State, step: Step): State
    requires Enabled(s, step)
  {
    match step
    case Enter(task) => s.(records := s.records[task := Appending])
    case AppendEvent(task, handlers) => s.(records := s.records[task := Queueing(handlers, false)])
    case AppendFails(task) => s.(records := s.records - {task})
    case Add(task) => s.(records := s.records[task := Queueing(s.records[task].left, true)], pending := s.pending + 1)
    case Send(task) =>
      s.(records := s.records[task := Queueing(s.records[task].left - 1, false)], jobs := s.jobs + [s.next],
        next := s.next + 1)
    case SendCancelled(task) => s.(records := s.records - {task}, pending := s.pending - 1)
    case Leave(task) => s.(records := s.records - {task})
    case Start => s.(started := true, chan := Open, workers := Pool(s.workerCount))
    case CloseBus => s.(closed := true)
    case CloseJobs => s.(chan := Closed)
    case Take(w) => s.(workers := s.workers[w := Busy(s.jobs[0])], jobs := s.jobs[1..])
    case Finish(w) =>
      s.(workers := s.workers[w := Idle], finished := s.finished + [s.workers[w].job], pending := s.pending - 1)
    case Exit(w) => s.(workers := s.workers[w := Gone])
  }

  ghost predicate Init(s: State) {
    && !s.started && !s.closed && s.chan.Absent? && s.records == map[] && s.jobs == [] && s.pending == 0
    && s.workers == map[] && s.next == 0 && s.finished == []
  }

  ghost predicate Feasible(s: State, steps: seq<Step>)
    decreases |steps|
  {
    steps == [] || (Enabled(s, steps[0]) && Feasible(Next(s, steps[0]), steps[1..]))
  }

  ghost function Exec(s: State, steps: seq<Step>): State
    requires Feasible(s, steps)
    decreases |steps|
  {
    if steps == [] then s else Exec(Next(s, steps[0]), steps[1..])
  }

  /* Counting */

  function Runners(workers: map<WorkerId, Worker>, j: JobId): set<WorkerId> {
    set w | w in workers && workers[w] == Busy(j)
  }

  function BusyWorkers(workers: map<WorkerId, Worker>): set<WorkerId> {
    set w | w in workers && workers[w].Busy?
  }

  function Senders(records: map<TaskId, Record>): set<TaskId> {
    set t | t in records && IsSending(records, t)
  }

  // How often the job is queued, running or finished.
  function Places(s: State, j: JobId): nat {
    multiset(s.jobs)[j] + |Runners(s.workers, j)| + multiset(s.finished)[j]
  }

  // Every accepted job is in exactly one place, no other job is anywhere.
  ghost predicate Accounted(s: State) {
    forall j: JobId :: Places(s, j) == if j < s.next then 1 else 0
  }

  ghost predicate PendingCounts(s: State) {
    s.pending == |s.jobs| + |BusyWorkers(s.workers)| + |Senders(s.records)|
  }

  ghost predicate Phases(s: State) {
    && (s.chan.Absent? <==> !s.started)
    && (!s.started ==> s.workers == map[] && s.jobs == [])
    && (s.started ==> s.workers.Keys == Pool(s.workerCount).Keys)
    && (s.records != map[] ==> s.chan.Open? && !s.closed)
    && (s.chan.Closed? ==> s.closed)
    && (forall t | IsSending(s.records, t) :: s.records[t].left > 0)
    && (forall w | w in s.workers && s.workers[w].Gone? :: s.chan.Closed? && s.jobs == [])
  }

  ghost predicate Inv(s: State) {
    Accounted(s) && PendingCounts(s) && Phases(s)
  }

  lemma KeepsPhases(s: State, step: Step)
    requires Inv(s) && Enabled(s, step)
    ensures Phases(Next(s, step))
  {
    if step.Enter? || step.AppendEvent? || step.Add? || step.Send? {
      assert step.task in Next(s, step).records;
    }
    if !step.Enter? && !step.Start? && !step.CloseBus? && !step.CloseJobs? && !step.Take? && !step.Finish?
      && !step.Exit? {
      assert step.task in s.records && s.records != map[];
    }
  }

  lemma KeepsAccounted(s: State, step: Step)
    requires Inv(s) && Enabled(s, step)
    ensures Accounted(Next(s, step))
  {
    var s' := Next(s, step);
    match step {
      case Send(t) => SendAccounted(s, t);
      case Take(w) => TakeAccounted(s, w);
      case Finish(w) => FinishAccounted(s, w);
      case _ => SameRunners(s, s');
    }
  }

  lemma SendAccounted(s: State, t: TaskId)
    requires Inv(s) && Enabled(s, Send(t))
    ensures Accounted(Next(s, Send(t)))
  {
    var s' := Next(s, Send(t));
    assert Places(s', s.next) == Places(s, s.next) + 1;
    assert forall j | j != s.next :: Places(s', j) == Places(s, j);
  }

  lemma SameRunners(s: State, s': State)
    requires Inv(s) && s'.jobs == s.jobs && s'.finished == s.finished && s'.next == s.next
    requires forall j :: Runners(s'.workers, j) == Runners(s.workers, j)
    ensures Accounted(s')
  {
    assert forall j :: Places(s', j) == Places(s, j);
  }

  lemma TakeAccounted(s: State, w: WorkerId)
    requires Inv(s) && Enabled(s, Take(w))
    ensures Accounted(Next(s, Take(w)))
  {
    var s' := Next(s, Take(w));
    var k := s.jobs[0];
    assert s.jobs == [k] + s'.jobs;
    TakeRuns(s, w);
    forall j ensures Places(s', j) == Places(s, j) {
      assert Runners(s'.workers, j) == Runners(s.workers, j) + if j == k then {w} else {};
    }
  }

  lemma TakeRuns(s: State, w: WorkerId)
    requires Enabled(s, Take(w))
    ensures forall j ::
              Runners(Next(s, Take(w)).workers, j) ==
              Runners(s.workers, j) + if j == s.jobs[0] then {w} else {}
    ensures w !in Runners(s.workers, s.jobs[0])
  {
  }

  lemma FinishAccounted(s: State, w: WorkerId)
    requires Inv(s) && Enabled(s, Finish(w))
    ensures Accounted(Next(s, Finish(w)))
  {
    var s' := Next(s, Finish(w));
    var k := s.workers[w].job;
    assert Runners(s'.workers, k) == Runners(s.workers, k) - {w};
    assert forall j | j != k :: Runners(s'.workers, j) == Runners(s.workers, j);
    assert forall j | j != k :: Places(s', j) == Places(s, j);
    assert Places(s', k) == Places(s, k);
  }

  predicate OfRecord(step: Step) {
    step.Enter? || step.AppendEvent? || step.AppendFails? || step.Leave?
  }

  // Steps of a Record that queue nothing.
  lemma RecordKeepsPending(s: State, step: Step)
    requires PendingCounts(s) && Enabled(s, step) && OfRecord(step)
    ensures PendingCounts(Next(s, step))
  {
    assert Senders(Next(s, step).records) == Senders(s.records);
  }

  // Entering and leaving the send changes the count by one; so does giving up.
  lemma SendersChange(records: map<TaskId, Record>, t: TaskId, left: nat)
    requires t in records
    ensures !IsSending(records, t) ==> |Senders(records[t := Queueing(left, true)])| == |Senders(records)| + 1
    ensures IsSending(records, t) ==> |Senders(records[t := Queueing(left, false)])| == |Senders(records)| - 1
    ensures IsSending(records, t) ==> |Senders(records - {t})| == |Senders(records)| - 1
  {
    if IsSending(records, t) {
      assert Senders(records[t := Queueing(left, false)]) == Senders(records) - {t};
      assert Senders(records - {t}) == Senders(records) - {t};
    } else {
      assert Senders(records[t := Queueing(left, true)]) == Senders(records) + {t};
    }
  }

  lemma BusyChange(workers: map<WorkerId, Worker>, w: WorkerId, j: JobId)
    requires w in workers
    ensures !workers[w].Busy? ==> |BusyWorkers(workers[w := Busy(j)])| == |BusyWorkers(workers)| + 1
    ensures workers[w].Busy? ==> |BusyWorkers(workers[w := Idle])| == |BusyWorkers(workers)| - 1
  {
    if workers[w].Busy? {
      assert BusyWorkers(workers[w := Idle]) == BusyWorkers(workers) - {w};
    } else {
      assert BusyWorkers(workers[w := Busy(j)]) == BusyWorkers(workers) + {w};
    }
  }

  lemma QueueKeepsPending(s: State, step: Step)
    requires PendingCounts(s) && Enabled(s, step) && (step.Add? || step.Send? || step.SendCancelled?)
    ensures PendingCounts(Next(s, step))
  {
    SendersChange(s.records, step.task,
      if step.Send? then s.records[step.task].left - 1 else s.records[step.task].left);
  }

  lemma WorkerKeepsPending(s: State, step: Step)
    requires PendingCounts(s) && Enabled(s, step) && (step.Take? || step.Finish? || step.Exit?)
    ensures PendingCounts(Next(s, step))
  {
    match step {
      case Take(w) => BusyChange(s.workers, w, s.jobs[0]);
      case Finish(w) => BusyChange(s.workers, w, 0);
      case Exit(w) => assert BusyWorkers(Next(s, step).workers) == BusyWorkers(s.workers);
    }
  }

  lemma KeepsPending(s: State, step: Step)
    requires Inv(s) && Enabled(s, step)
    ensures PendingCounts(Next(s, step))
  {
    if OfRecord(step) {
      RecordKeepsPending(s, step);
    } else if step.Add? || step.Send? || step.SendCancelled? {
      QueueKeepsPending(s, step);
    } else if step.Take? || step.Finish? || step.Exit? {
      WorkerKeepsPending(s, step);
    } else if step.Start? {
      assert BusyWorkers(Next(s, step).workers) == BusyWorkers(s.workers);
    }
  }

  lemma StepKeepsInv(s: State, step: Step)
    requires Inv(s) && Enabled(s, step)
    ensures Inv(Next(s, step))
  {
    KeepsPhases(s, step);
    KeepsAccounted(s, step);
    KeepsPending(s, step);
  }

  lemma {:induction false} RunKeepsInv(s: State, steps: seq<Step>)
    requires Inv(s) && Feasible(s, steps)
    ensures Inv(Exec(s, steps))
    decreases |steps|
  {
    if steps != [] {
      StepKeepsInv(s, steps[0]);
      RunKeepsInv(Next(s, steps[0]), steps[1..]);
    }
  }

  lemma InitInv(s: State)
    requires Init(s)
    ensures Inv(s)
  {
    assert forall j :: Runners(s.workers, j) == {};
  }

  /* Results */

  // A Record about to send finds the channel open: closing waits for every Record in progress.
  lemma {:induction false} NeverSendsOnClosed(s: State, steps: seq<Step>, task: TaskId)
    requires Init(s) && Feasible(s, steps) && IsSending(Exec(s, steps).records, task)
    ensures Exec(s, steps).chan.Open?
  {
    InitInv(s);
    RunKeepsInv(s, steps);
  }

  lemma {:induction false} AcceptedJobsAreAccountedFor(s: State, steps: seq<Step>)
    requires Init(s) && Feasible(s, steps)
    ensures Accounted(Exec(s, steps)) && PendingCounts(Exec(s, steps))
  {
    InitInv(s);
    RunKeepsInv(s, steps);
  }

  // The channel holds the jobs accepted last, in the order they were accepted.
  ghost predicate InOrder(s: State) {
    forall i | 0 <= i < |s.jobs| :: s.jobs[i] == s.next - |s.jobs| + i
  }

  // Jobs are handed to the workers in the order they were accepted: the one taken next is older than the rest.
  lemma {:induction false} JobsAreTakenInOrder(s: State, steps: seq<Step>)
    requires InOrder(s) && |s.jobs| <= s.next && Feasible(s, steps)
    ensures InOrder(Exec(s, steps)) && |Exec(s, steps).jobs| <= Exec(s, steps).next
    decreases |steps|
  {
    if steps != [] {
      JobsAreTakenInOrder(Next(s, steps[0]), steps[1..]);
    }
  }

  // After the close nothing is accepted and no Record gets in any more.
  lemma {:induction false} ClosedAcceptsNothing(s: State, steps: seq<Step>)
    requires Enabled(s, CloseBus) && Feasible(Next(s, CloseBus), steps)
    ensures var f := Exec(Next(s, CloseBus), steps); f.closed && f.records == map[] && f.next == s.next
  {
    StaysClosed(Next(s, CloseBus), steps);
  }

  lemma {:induction false} StaysClosed(s: State, steps: seq<Step>)
    requires s.closed && s.records == map[] && Feasible(s, steps)
    ensures var f := Exec(s, steps); f.closed && f.records == map[] && f.next == s.next
    decreases |steps|
  {
    if steps != [] {
      StaysClosed(Next(s, steps[0]), steps[1..]);
    }
  }

  predicate OfTask(step: Step, task: TaskId) {
    match step
    case Enter(t) => t == task
    case AppendEvent(t, _) => t == task
    case AppendFails(t) => t == task
    case SendCancelled(t) => t == task
    case Leave(t) => t == task
    case _ => false
  }

  // The task only queues.
  ghost predicate OnlyQueues(steps: seq<Step>, task: TaskId) {
    forall i | 0 <= i < |steps| :: !OfTask(steps[i], task)
  }

  function Sends(steps: seq<Step>, task: TaskId): nat
    decreases |steps|
  {
    if steps == [] then 0 else (if steps[0] == Send(task) then 1 else 0) + Sends(steps[1..], task)
  }

  lemma {:induction false} SendsAndLeft(s: State, steps: seq<Step>, task: TaskId)
    requires Feasible(s, steps) && OnlyQueues(steps, task) && task in s.records && s.records[task].Queueing?
    ensures task in Exec(s, steps).records && Exec(s, steps).records[task].Queueing?
    ensures Exec(s, steps).records[task].left + Sends(steps, task) == s.records[task].left
    decreases |steps|
  {
    if steps != [] {
      assert !OfTask(steps[0], task);
      assert forall i | 0 <= i < |steps[1..]| :: steps[1..][i] == steps[i + 1];
      SendsAndLeft(Next(s, steps[0]), steps[1..], task);
    }
  }

  // A Record that stored its event and returns without being cancelled has queued one job per handler.
  lemma {:induction false} RecordQueuesEveryHandler(s: State, task: TaskId, handlers: nat, steps: seq<Step>)
    requires Enabled(s, AppendEvent(task, handlers)) && Feasible(Next(s, AppendEvent(task, handlers)), steps)
    requires OnlyQueues(steps, task) && Enabled(Exec(Next(s, AppendEvent(task, handlers)), steps), Leave(task))
    ensures Sends(steps, task) == handlers
  {
    SendsAndLeft(Next(s, AppendEvent(task, handlers)), steps, task);
  }

  // Shutdown returns nil: the bus was never started, or every worker has left.
  predicate ShutdownReturnsNil(s: State) {
    s.closed && (!s.started || (s.chan.Closed? && forall w | w in s.workers :: s.workers[w].Gone?))
  }

  lemma {:induction false} ShutdownRanEveryJobOnce(s: State, steps: seq<Step>)
    requires Init(s) && Feasible(s, steps) && s.workerCount > 0 && ShutdownReturnsNil(Exec(s, steps))
    ensures var f := Exec(s, steps);
      f.jobs == [] && f.pending == 0 && forall j: JobId :: multiset(f.finished)[j] == if j < f.next then 1 else 0
  {
    InitInv(s);
    RunKeepsInv(s, steps);
    SameCount(s, steps);
    AllGone(Exec(s, steps));
  }

  lemma {:induction false} SameCount(s: State, steps: seq<Step>)
    requires Feasible(s, steps)
    ensures Exec(s, steps).workerCount == s.workerCount
    decreases |steps|
  {
    if steps != [] {
      SameCount(Next(s, steps[0]), steps[1..]);
    }
  }

  lemma AllGone(f: State)
    requires Inv(f) && f.workerCount > 0 && ShutdownReturnsNil(f)
    ensures f.jobs == [] && f.pending == 0 && forall j: JobId :: multiset(f.finished)[j] == if j < f.next then 1 else 0
  {
    if f.started {
      assert 0 in f.workers.Keys;
    }
    assert f.records == map[];
    assert Senders(f.records) == {} && BusyWorkers(f.workers) == {};
    forall j: JobId ensures multiset(f.finished)[j] == if j < f.next then 1 else 0 {
      assert Runners(f.workers, j) == {};
      assert Places(f, j) == multiset(f.finished)[j];
    }
  }
}
