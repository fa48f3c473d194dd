/** The persistent reaction bus as a state machine: one step per statement that other
    goroutines can observe, one process per database, crashes at any point. */
module ReactionProtocol {
  import opened ReactionTables

  type TaskId = int
  type WorkerId = int

  datatype Config = Config(workers: nat, queueCap: nat, pollLimit: nat)

  /* The bus */

  // A Record call holding the bus's read lock.
  datatype Record = Entered | Stored

  datatype Bus = Bus(
    starting: bool,              // inside Start, after the reset and before the goroutines
    started: bool,
    closed: bool,
    handlers: set<(EventType, HandlerName)>,
    records: map<TaskId, Record>)

  /* The dispatcher */

  datatype Chan = Absent | Open | Closed

  datatype Poller = Off | Wanting | Draining | Selecting | Exited

  datatype Poll = Poll(chan: Chan, wake: bool, cancelled: bool, poller: Poller)

  datatype Work = Taken(id: ReactionId) | Handled(id: ReactionId, ok: bool) | Marked(id: ReactionId) | Finishing {
    predicate HasId() { !Finishing? }
    predicate BeforeMark() { Taken? || Handled? }
  }

  datatype Own = Own(
    inFlight: set<ReactionId>,
    pending: int,
    jobs: seq<ReactionId>,
    workers: map<WorkerId, Work>)

  // Why an enqueue gives its reaction up.
  datatype Why = Missing | Undecodable | Release

  // Where enqueue stands, after markInFlight succeeded. A goroutine enters its select with the jobs channel
  // it reads at that moment: live if that is an open channel, otherwise nil, on which it can never send.
  datatype Stage =
    | Counting | Loading | Looking | Claiming | Decoding | Sending | Parked(live: bool)
    | Undoing(why: Why) | Clearing(why: Why) | Failing(why: Why)

  datatype Spot = Listing | Picking | Enqueuing(id: ReactionId, stage: Stage)

  datatype Who = ByPoller | ByCaller

  // One list pass of drainPending. rest, full and queued are its locals; the other
  // fields only record what happened since the list was read.
  datatype Pass = Pass(
    rest: seq<ReactionId>,
    full: bool,
    queued: bool,
    before: set<ReactionId>,     // pending when the list was read
    listed: set<ReactionId>,
    won: seq<ReactionId>,        // sent to the workers by this pass
    unhandled: set<ReactionId>,  // looked up without finding a handler
    anew: set<ReactionId>,       // inserted or reset since
    heard: set<ReactionId>,      // given a handler since
    clean: bool)                 // no error, no missing event, no cancellation

  // drainMu and the goroutine inside it.
  datatype Lock = Free | Held(who: Who, at: Spot, pass: Pass)

  /* What an observer writes down */

  // What became of a claim made by this process.
  datatype Fate = Claimed | Ran | MarkTried | FailedDecode | Released

  datatype Entry = ResetDone | Called(id: ReactionId)

  datatype Notes = Notes(log: seq<Entry>, fate: map<ReactionId, Fate>)

  datatype State = State(cfg: Config, tables: Tables, bus: Bus, poll: Poll, own: Own, lock: Lock, notes: Notes)

  /* Record and registration */

  datatype RecordStep =
    | Enter(task: TaskId)
    | Store(task: TaskId, e: EventId, ty: EventType, rows: seq<NewRow>)
    | StoreLost(task: TaskId, e: EventId, ty: EventType, rows: seq<NewRow>)   // committed, but reported as failed
    | Notify(task: TaskId)
    | Fail(task: TaskId)
    | Register(ty: EventType, h: HandlerName)
  {
    predicate Stores() { Store? || StoreLost? }
  }

  function Freshen(lock: Lock, ids: set<ReactionId>): Lock {
    if lock.Held? then lock.(pass := lock.pass.(anew := lock.pass.anew + ids)) else lock
  }

  function Hear(lock: Lock, ids: set<ReactionId>): Lock {
    if lock.Held? then lock.(pass := lock.pass.(heard := lock.pass.heard + ids)) else lock
  }

  function ListenersOf(t: Tables, ty: EventType, h: HandlerName): set<ReactionId> {
    set r | r in t.reactions && t.HasEvent(r) && t.events[t.reactions[r].event] == ty && t.reactions[r].handler == h
  }

  predicate CanStore(s: State, task: TaskId, e: EventId, ty: EventType, rows: seq<NewRow>) {
    && task in s.bus.records && s.bus.records[task].Entered?
    && e !in s.tables.events
    && FreshIds(s.tables, rows)
    && (forall i | 0 <= i < |rows| :: (ty, rows[i].handler) in s.bus.handlers)
  }

  function StoreRecord(s: State, task: TaskId, e: EventId, ty: EventType, rows: seq<NewRow>): State {
    var t := Recorded(s.tables, e, ty, rows);
    var ids := t.reactions.Keys - s.tables.reactions.Keys;
    s.(tables := t,
       bus := s.bus.(records := s.bus.records[task := Stored]),
       lock := Freshen(s.lock, ids))
  }

  function LeaveRecord(s: State, task: TaskId): State {
    s.(bus := s.bus.(records := s.bus.records - {task}))
  }

  function NotifyRecord(s: State, task: TaskId): State
    requires task in s.bus.records && s.bus.records[task].Stored?
  {
    s.(bus := s.bus.(records := s.bus.records - {task}),
       poll := s.poll.(wake := true))
  }

  function RegisterHandler(s: State, ty: EventType, h: HandlerName): State {
    s.(bus := s.bus.(handlers := s.bus.handlers + {(ty, h)}),
       lock := Hear(s.lock, ListenersOf(s.tables, ty, h)))
  }

  predicate RecordEnabled(s: State, step: RecordStep) {
    match step
    case Enter(task) => task !in s.bus.records && s.bus.started && !s.bus.closed
    case Store(task, e, ty, rows) => CanStore(s, task, e, ty, rows)
    case StoreLost(task, e, ty, rows) => CanStore(s, task, e, ty, rows)
    case Notify(task) => task in s.bus.records && s.bus.records[task].Stored?
    case Fail(task) => task in s.bus.records && s.bus.records[task].Entered?
    case Register(_, _) => true
  }

  function RecordNext(s: State, step: RecordStep): State
    requires RecordEnabled(s, step)
  {
    match step
    case Enter(task) => s.(bus := s.bus.(records := s.bus.records[task := Entered]))
    case Store(task, e, ty, rows) => StoreRecord(s, task, e, ty, rows)
    case StoreLost(task, e, ty, rows) => LeaveRecord(StoreRecord(s, task, e, ty, rows), task)
    case Notify(task) => NotifyRecord(s, task)
    case Fail(task) => LeaveRecord(s, task)
    case Register(ty, h) => RegisterHandler(s, ty, h)
  }

  /* Start, Shutdown, the poller and crashes */

  datatype LifeStep =
    | StartReset | ResetLost | StartOpen | ShutdownBegin | CancelRun | CloseJobs
    | PollerAcquire | PollerTake | PollerTick | PollerExit | CallerAcquire
    | Crash
  {
    predicate Resets() { StartReset? || ResetLost? }
  }

  const NO_PASS := Pass([], false, false, {}, {}, [], {}, {}, {}, true)

  // The reset statement of Start.
  function ResetTables(s: State): State {
    s.(tables := ResetRows(s.tables),
       lock := Freshen(s.lock, RunningIds(s.tables)),
       notes := s.notes.(log := s.notes.log + [ResetDone]))
  }

  function Reset(s: State): State {
    ResetTables(s).(bus := s.bus.(starting := true))
  }

  // A process that has built its bus and not started it. Only the tables survive.
  function Boot(s: State): State {
    s.(bus := Bus(false, false, false, {}, map[]),
       poll := Poll(Absent, false, false, Off),
       own := Own({}, 0, [], map[]),
       lock := Free,
       notes := Notes([], map[]))
  }

  // Start holds the write lock of a bus that is neither started nor closed.
  predicate CanReset(s: State) {
    !s.bus.starting && !s.bus.started && !s.bus.closed && s.bus.records == map[]
  }

  predicate LifeEnabled(s: State, step: LifeStep) {
    match step
    case StartReset => CanReset(s)
    case ResetLost => CanReset(s)
    case StartOpen => s.bus.starting
    case ShutdownBegin => !s.bus.starting && s.bus.records == map[]
    case CancelRun => s.bus.started
    case CloseJobs => s.bus.closed && s.bus.started && s.poll.cancelled && s.poll.poller.Exited? && s.poll.chan.Open?
    case PollerAcquire => s.poll.poller.Wanting? && s.lock.Free?
    case PollerTake => s.poll.poller.Selecting? && s.poll.wake
    case PollerTick => s.poll.poller.Selecting?
    case PollerExit => s.poll.poller.Selecting? && s.poll.cancelled
    case CallerAcquire => s.lock.Free?
    case Crash => true
  }

  function LifeNext(s: State, step: LifeStep): State
    requires LifeEnabled(s, step)
  {
    match step
    case StartReset => Reset(s)
    case ResetLost => ResetTables(s)
    case StartOpen => s.(bus := s.bus.(starting := false, started := true),
      poll := Poll(Open, false, s.poll.cancelled, Wanting))
    case ShutdownBegin => s.(bus := s.bus.(closed := true))
    case CancelRun => s.(poll := s.poll.(cancelled := true))
    case CloseJobs => s.(poll := s.poll.(chan := Closed))
    case PollerAcquire => s.(lock := Held(ByPoller, Listing, NO_PASS), poll := s.poll.(poller := Draining))
    case PollerTake => s.(poll := s.poll.(wake := false, poller := Wanting))
    case PollerTick => s.(poll := s.poll.(poller := Wanting))
    case PollerExit => s.(poll := s.poll.(poller := Exited))
    case CallerAcquire => s.(lock := Held(ByCaller, Listing, NO_PASS))
    case Crash => Boot(s)
  }

  /* drainPending, under drainMu */

  datatype DrainStep =
    | List(ids: seq<ReactionId>) | ListError | Stop | Pick | End
    | Enqueue(step: EnqueueStep)

  // The poller's context is the run context; a Drain caller brings its own, which may end at any time.
  predicate ContextDone(s: State) {
    s.lock.Held? && (s.lock.who.ByPoller? ==> s.poll.cancelled)
  }

  // drainPending returns and drops drainMu.
  function Unlock(s: State): State
    requires s.lock.Held?
  {
    s.(lock := Free, poll := if s.lock.who.ByPoller? then s.poll.(poller := Selecting) else s.poll)
  }

  function NewPass(s: State, ids: seq<ReactionId>): Pass {
    Pass(ids, |ids| == s.cfg.pollLimit, false, PendingIds(s.tables), set r | r in ids, [], {}, {}, {}, true)
  }

  function Listed(s: State, ids: seq<ReactionId>): State
    requires s.lock.Held?
  {
    if ids == [] then Unlock(s) else s.(lock := Held(s.lock.who, Picking, NewPass(s, ids)))
  }

  function PickNext(s: State): State
    requires s.lock.Held? && s.lock.pass.rest != []
  {
    var r := s.lock.pass.rest[0];
    var pass := s.lock.pass.(rest := s.lock.pass.rest[1..]);
    if r in s.own.inFlight then s.(lock := s.lock.(pass := pass))
    else s.(own := s.own.(inFlight := s.own.inFlight + {r}), lock := Held(s.lock.who, Enqueuing(r, Counting), pass))
  }

  function EndPass(s: State): State
    requires s.lock.Held?
  {
    if s.lock.pass.queued && s.lock.pass.full then s.(lock := s.lock.(at := Listing)) else Unlock(s)
  }

  predicate DrainEnabled(s: State, step: DrainStep) {
    && s.lock.Held?
    && match step
       case List(ids) => s.lock.at.Listing? && ListAnswer(s.tables, s.cfg.pollLimit, ids)
       case ListError => s.lock.at.Listing?
       case Stop => s.lock.at.Picking? && s.lock.pass.rest != [] && ContextDone(s)
       case Pick => s.lock.at.Picking? && s.lock.pass.rest != []
       case End => s.lock.at.Picking? && s.lock.pass.rest == []
       case Enqueue(e) => s.lock.at.Enqueuing? && EnqueueEnabled(s, s.lock.at.id, s.lock.at.stage, e)
  }

  function DrainNext(s: State, step: DrainStep): State
    requires DrainEnabled(s, step)
  {
    match step
    case List(ids) => Listed(s, ids)
    case ListError => Unlock(s)
    case Stop => Unlock(s)
    case Pick => PickNext(s)
    case End => EndPass(s)
    case Enqueue(e) => EnqueueNext(s, s.lock.at.id, s.lock.at.stage, e)
  }

  /* enqueue */

  datatype EnqueueStep =
    | Count | Load | LoadError | Look | Claim | ClaimError(applied: bool)
    | Decode(decoded: bool) | Select | Send | SendCancelled
    | Undo | Clear | MarkFailed(stored: bool)

  function MoveTo(s: State, r: ReactionId, stage: Stage): State
    requires s.lock.Held?
  {
    s.(lock := s.lock.(at := Enqueuing(r, stage)))
  }

  // As MoveTo, for a branch that logs an error: the pass is not clean any more.
  function Trouble(s: State, r: ReactionId, why: Why): State
    requires s.lock.Held?
  {
    s.(lock := s.lock.(at := Enqueuing(r, Undoing(why)), pass := s.lock.pass.(clean := false)))
  }

  function Decide(s: State, r: ReactionId, fate: Fate): State {
    s.(notes := s.notes.(fate := s.notes.fate[r := fate]))
  }

  predicate HasHandler(s: State, r: ReactionId) {
    s.tables.HasEvent(r) &&
    (s.tables.events[s.tables.reactions[r].event], s.tables.reactions[r].handler) in s.bus.handlers
  }

  function LookUp(s: State, r: ReactionId): State
    requires s.lock.Held?
  {
    if HasHandler(s, r) then MoveTo(s, r, Claiming)
    else s.(lock := s.lock.(at := Enqueuing(r, Undoing(Release)),
                            pass := s.lock.pass.(unhandled := s.lock.pass.unhandled + {r})))
  }

  function ClaimNow(s: State, r: ReactionId): State
    requires s.lock.Held?
  {
    if s.tables.HasStatus(r, Pending)
    then Decide(MoveTo(s, r, Decoding), r, Claimed).(tables := ClaimedRow(s.tables, r))
    else MoveTo(s, r, Undoing(Release))
  }

  function ClaimFailed(s: State, r: ReactionId, applied: bool): State
    requires s.lock.Held?
  {
    Trouble(s, r, Release).(tables := if applied then ClaimedRow(s.tables, r) else s.tables)
  }

  function SendJob(s: State, r: ReactionId): State
    requires s.lock.Held?
  {
    s.(own := s.own.(jobs := s.own.jobs + [r]),
       lock := Held(s.lock.who, Picking, s.lock.pass.(queued := true, won := s.lock.pass.won + [r])))
  }

  function ClearEntry(s: State, r: ReactionId, why: Why): State
    requires s.lock.Held?
  {
    s.(own := s.own.(inFlight := s.own.inFlight - {r}),
       lock := s.lock.(at := if why.Release? then Picking else Enqueuing(r, Failing(why))))
  }

  function FailEntry(s: State, r: ReactionId, stored: bool): State
    requires s.lock.Held?
  {
    s.(tables := if stored then MarkedAs(s.tables, r, Failed) else s.tables, lock := s.lock.(at := Picking))
  }

  predicate EnqueueEnabled(s: State, r: ReactionId, stage: Stage, step: EnqueueStep) {
    match step
    case Count => stage.Counting?
    case Load => stage.Loading?
    case LoadError => stage.Loading?
    case Look => stage.Looking?
    case Claim => stage.Claiming?
    case ClaimError(_) => stage.Claiming?
    case Decode(_) => stage.Decoding?
    case Select => stage.Sending?
    case Send => stage == Parked(true) && s.poll.chan.Open? && |s.own.jobs| < s.cfg.queueCap
    case SendCancelled => stage.Parked? && ContextDone(s)
    case Undo => stage.Undoing?
    case Clear => stage.Clearing?
    case MarkFailed(_) => stage.Failing?
  }

  function EnqueueNext(s: State, r: ReactionId, stage: Stage, step: EnqueueStep): State
    requires s.lock.Held? && EnqueueEnabled(s, r, stage, step)
  {
    match step
    case Count => MoveTo(s, r, Loading).(own := s.own.(pending := s.own.pending + 1))
    case Load => if s.tables.HasEvent(r) then MoveTo(s, r, Looking) else Trouble(s, r, Missing)
    case LoadError => Trouble(s, r, Release)
    case Look => LookUp(s, r)
    case Claim => ClaimNow(s, r)
    case ClaimError(applied) => ClaimFailed(s, r, applied)
    case Decode(decoded) => if decoded then MoveTo(s, r, Sending)
      else Decide(Trouble(s, r, Undecodable), r, FailedDecode)
    case Select => MoveTo(s, r, Parked(s.poll.chan.Open?))
    case Send => SendJob(s, r)
    case SendCancelled => Decide(Trouble(s, r, Release), r, Released)
    case Undo => MoveTo(s, r, Clearing(stage.why)).(own := s.own.(pending := s.own.pending - 1))
    case Clear => ClearEntry(s, r, stage.why)
    case MarkFailed(stored) => FailEntry(s, r, stored)
  }

  /* work and run */

  datatype WorkStep =
    | Take(w: WorkerId) | Call(w: WorkerId, ok: bool) | Mark(w: WorkerId, stored: bool)
    | ClearJob(w: WorkerId) | Finish(w: WorkerId)

  function TakeJob(s: State, w: WorkerId): State
    requires s.own.jobs != []
  {
    s.(own := s.own.(jobs := s.own.jobs[1..], workers := s.own.workers[w := Taken(s.own.jobs[0])]))
  }

  function CallHandler(s: State, w: WorkerId, r: ReactionId, ok: bool): State {
    s.(own := s.own.(workers := s.own.workers[w := Handled(r, ok)]),
       notes := s.notes.(log := s.notes.log + [Called(r)], fate := s.notes.fate[r := Ran]))
  }

  function MarkJob(s: State, w: WorkerId, r: ReactionId, ok: bool, stored: bool): State {
    s.(own := s.own.(workers := s.own.workers[w := Marked(r)]),
       tables := if stored then MarkedAs(s.tables, r, if ok then Succeeded else Failed) else s.tables,
       notes := s.notes.(fate := s.notes.fate[r := MarkTried]))
  }

  predicate WorkEnabled(s: State, step: WorkStep) {
    match step
    case Take(w) => s.own.jobs != [] && w !in s.own.workers && |s.own.workers| < s.cfg.workers
    case Call(w, _) => w in s.own.workers && s.own.workers[w].Taken?
    case Mark(w, _) => w in s.own.workers && s.own.workers[w].Handled?
    case ClearJob(w) => w in s.own.workers && s.own.workers[w].Marked?
    case Finish(w) => w in s.own.workers && s.own.workers[w].Finishing?
  }

  function WorkNext(s: State, step: WorkStep): State
    requires WorkEnabled(s, step)
  {
    match step
    case Take(w) => TakeJob(s, w)
    case Call(w, ok) => CallHandler(s, w, s.own.workers[w].id, ok)
    case Mark(w, stored) => MarkJob(s, w, s.own.workers[w].id, s.own.workers[w].ok, stored)
    case ClearJob(w) =>
      s.(own := s.own.(inFlight := s.own.inFlight - {s.own.workers[w].id}, workers := s.own.workers[w := Finishing]))
    case Finish(w) => s.(own := s.own.(workers := s.own.workers - {w}, pending := s.own.pending - 1))
  }

  /* Steps and runs */

  datatype Step = Recording(r: RecordStep) | Life(l: LifeStep) | Drain(d: DrainStep) | Working(w: WorkStep)

  predicate Enabled(s: State, step: Step) {
    match step
    case Recording(r) => RecordEnabled(s, r)
    case Life(l) => LifeEnabled(s, l)
    case Drain(d) => DrainEnabled(s, d)
    case Working(w) => WorkEnabled(s, w)
  }

  function Next(s: State, step: Step): State
    requires Enabled(s, step)
  {
    match step
    case Recording(r) => RecordNext(s, r)
    case Life(l) => LifeNext(s, l)
    case Drain(d) => DrainNext(s, d)
    case Working(w) => WorkNext(s, w)
  }

  ghost predicate Feasible(s: State, steps: seq<Step>)
    decreases |steps|
  {
    steps == [] || (Enabled(s, steps[0]) && Feasible(Next(s, steps[0]), steps[1..]))
  }

  ghost function Exec(s: State, steps: seq<Step>): State
    requires Feasible(s, steps)
    decreases |steps|
  {
    if steps == [] then s else Exec(Next(s, steps[0]), steps[1..])
  }

  // A fresh process on any database that satisfies its own constraints, whatever was left in it.
  ghost predicate Init(s: State) {
    s == Boot(s) && Unique(s.tables)
  }

  predicate WorksOn(workers: map<WorkerId, Work>, w: WorkerId, r: ReactionId) {
    w in workers && workers[w].HasId() && workers[w].id == r
  }

  // The lock holder has moved the row to running and has neither handed it over nor given it up.
  predicate HoldsClaim(lock: Lock) {
    lock.Held? && lock.at.Enqueuing? && ClaimStage(lock.at.stage)
  }

  // The claim can still reach the workers.
  predicate OnTheWay(lock: Lock) {
    && lock.Held? && lock.at.Enqueuing?
    && (lock.at.stage.Decoding? || lock.at.stage.Sending? || lock.at.stage == Parked(true))
  }

  predicate ClaimStage(stage: Stage) {
    match stage
    case Decoding => true
    case Sending => true
    case Parked(_) => true
    case Undoing(why) => why.Undecodable?
    case Clearing(why) => why.Undecodable?
    case Failing(why) => why.Undecodable?
    case _ => false
  }
}
