/** What the code of the dispatcher is measured by: runs of the state machine in a given company, what the other
    goroutines leave alone, and what enqueue may conclude. */
module DispatcherRuns {
  import opened Counting
  import opened ReactionTables
  import opened ReactionProtocol
  import opened ReactionRuns
  import opened Ownership
  import opened Orderly
  import opened Outcomes
  import opened DrainPass
  import opened DrainAlone
  import Rows = ReactionStore

  /* Runs in company */

  // What the process does meanwhile: anything; no insert and no reset of rows; or nothing but one goroutine's
  // drainPending, without failures.
  datatype Company = Anyone | Calm | Nobody

  predicate Allowed(c: Company, step: Step) {
    match c
    case Anyone => true
    case Calm => Quiet(step)
    case Nobody => Smooth(step)
  }

  ghost predicate AllAllowed(c: Company, steps: seq<Step>) {
    forall i | 0 <= i < |steps| :: Allowed(c, steps[i])
  }

  // The process goes from a to b, without dying, by steps that the company allows.
  ghost predicate Runs(c: Company, a: State, b: State) {
    exists steps :: LeadsIn(c, a, steps, b)
  }

  ghost predicate LeadsIn(c: Company, a: State, steps: seq<Step>, b: State) {
    Leads(a, steps, b) && AllAllowed(c, steps)
  }

  lemma RunsSelf(c: Company, a: State)
    ensures Runs(c, a, a)
  {
    assert LeadsIn(c, a, [], a);
  }

  lemma RunsStep(c: Company, a: State, b: State, step: Step, d: State)
    requires Runs(c, a, b) && Took(b, step, d) && Allowed(c, step)
    ensures Runs(c, a, d)
  {
    var steps :| LeadsIn(c, a, steps, b);
    FeasibleAppend(a, steps, step);
    assert LeadsIn(c, a, steps + [step], d);
  }

  lemma RunsOn(c: Company, a: State, b: State, d: State)
    requires Runs(c, a, b) && Runs(c, b, d)
    ensures Runs(c, a, d)
  {
    var first :| LeadsIn(c, a, first, b);
    var second :| LeadsIn(c, b, second, d);
    RunsCompose(a, first, second);
    assert LeadsIn(c, a, first + second, d);
  }

  lemma RunsReach(c: Company, a: State, b: State)
    requires Runs(c, a, b)
    ensures Reaches(a, b)
  {
    var steps :| LeadsIn(c, a, steps, b);
  }

  // Nothing takes a row or an event back, or a handler, or the cancellation of the run context.
  ghost predicate Grown(a: State, b: State) {
    Extends(a.tables, b.tables) && a.bus.handlers <= b.bus.handlers && (a.poll.cancelled ==> b.poll.cancelled)
  }

  lemma StepGrows(s: State, step: Step)
    requires Enabled(s, step) && step != Life(Crash)
    ensures s.bus.handlers <= Next(s, step).bus.handlers && (s.poll.cancelled ==> Next(s, step).poll.cancelled)
  {
    match step {
      case Recording(_) =>
      case Life(_) =>
      case Drain(d) => DrainGrows(s, d);
      case Working(_) =>
    }
  }

  lemma DrainGrows(s: State, step: DrainStep)
    requires DrainEnabled(s, step)
    ensures DrainNext(s, step).bus == s.bus && DrainNext(s, step).poll.cancelled == s.poll.cancelled
  {
  }

  lemma {:induction false} RunGrows(s: State, steps: seq<Step>)
    requires Feasible(s, steps) && !Crashes(steps)
    ensures Grown(s, Exec(s, steps))
    decreases |steps|
  {
    if steps != [] {
      assert steps[0] != Life(Crash);
      assert forall i | 0 <= i < |steps[1..]| :: steps[1..][i] == steps[i + 1];
      StepGrows(s, steps[0]);
      StepExtends(s, steps[0]);
      RunGrows(Next(s, steps[0]), steps[1..]);
    }
  }

  lemma {:induction false} QuietRunPending(s: State, steps: seq<Step>)
    requires Feasible(s, steps) && AllQuiet(steps)
    ensures PendingIds(Exec(s, steps).tables) <= PendingIds(s.tables)
    decreases |steps|
  {
    if steps != [] {
      assert forall i | 0 <= i < |steps[1..]| :: steps[1..][i] == steps[i + 1];
      QuietPending(s, steps[0]);
      QuietRunPending(Next(s, steps[0]), steps[1..]);
    }
  }

  // What any run leaves behind.
  lemma RunsGrow(c: Company, a: State, b: State)
    requires Runs(c, a, b)
    ensures Grown(a, b) && (!c.Anyone? ==> PendingIds(b.tables) <= PendingIds(a.tables))
  {
    var steps :| LeadsIn(c, a, steps, b);
    RunGrows(a, steps);
    if !c.Anyone? {
      assert forall i | 0 <= i < |steps| :: Allowed(c, steps[i]) && Quiet(steps[i]);
      QuietRunPending(a, steps);
    }
  }

  // A run that begins with step.
  ghost predicate Starts(c: Company, a: State, step: Step, b: State) {
    step != Life(Crash) && Enabled(a, step) && Runs(c, Next(a, step), b)
  }

  // Whatever the other goroutines did in between, the code kept the protocol's invariant, and a finished
  // reaction is what it was.
  lemma RunsKeepInv(c: Company, a: State, b: State)
    requires Inv(a) && Runs(c, a, b)
    ensures Inv(b) && TerminalKept(a.tables, b.tables)
  {
    var steps :| LeadsIn(c, a, steps, b);
    RunKeepsInv(a, steps);
    TerminalIsFinal(a, steps);
  }

  // What a run keeps of the facts about the pass of the lock holder.
  ghost predicate Orderable(c: Company, s: State) {
    Inv(s) && Shrinks(s) && (!c.Anyone? ==> NothingNew(s.lock))
  }

  lemma RunsKeepOrderable(c: Company, a: State, b: State)
    requires Runs(c, a, b) && Orderable(c, a)
    ensures Orderable(c, b) && (!c.Anyone? ==> PendingIds(b.tables) <= PendingIds(a.tables))
  {
    var steps :| LeadsIn(c, a, steps, b);
    RunKeepsInv(a, steps);
    RunShrinks(a, steps);
    if !c.Anyone? {
      assert forall i | 0 <= i < |steps| :: Allowed(c, steps[i]) && Quiet(steps[i]);
      QuietRunKeeps(a, steps);
    }
  }

  function InEnqueue(step: EnqueueStep): Step {
    Drain(DrainStep.Enqueue(step))
  }

  /* What the other goroutines leave alone */

  // The goroutine whose code is being run.
  datatype Me = Drainer | Worker(w: WorkerId) | Recorder(task: TaskId) | Starter | Waiter

  predicate Others(me: Me, step: Step) {
    && step != Life(Crash)
    && match me
       case Drainer => !step.Drain?
       case Worker(w) => !(step.Working? && step.w.w == w)
       case Recorder(task) => !(step.Recording? && !step.r.Register? && step.r.task == task)
       case Starter => step != Life(StartOpen)
       case Waiter => true
  }

  // The locals and the place in the code of the goroutine inside drainMu.
  predicate SamePlace(a: Lock, b: Lock) {
    a.Held? && b.Held? && a.who == b.who && a.at == b.at
    && a.pass.rest == b.pass.rest && a.pass.full == b.pass.full && a.pass.queued == b.pass.queued
    && a.pass.before == b.pass.before
  }

  predicate KeptFor(me: Me, a: State, b: State) {
    match me
    case Drainer => a.lock.Held? ==> SamePlace(a.lock, b.lock)
    case Worker(w) => w in a.own.workers ==> w in b.own.workers && b.own.workers[w] == a.own.workers[w]
    case Recorder(task) => task in a.bus.records ==> task in b.bus.records && b.bus.records[task] == a.bus.records[task]
    case Starter => a.bus.starting ==> b.bus.starting
    case Waiter => true
  }

  lemma OthersKeep(me: Me, s: State, step: Step)
    requires Enabled(s, step) && Others(me, step)
    ensures KeptFor(me, s, Next(s, step))
  {
    match step {
      case Recording(r) => RecordersKeep(me, s, r);
      case Drain(d) => DrainersKeep(me, s, d);
      case _ =>
    }
  }

  lemma RecordersKeep(me: Me, s: State, step: RecordStep)
    requires RecordEnabled(s, step) && Others(me, Recording(step))
    ensures KeptFor(me, s, RecordNext(s, step))
  {
  }

  lemma DrainersKeep(me: Me, s: State, step: DrainStep)
    requires DrainEnabled(s, step) && Others(me, Drain(step))
    ensures KeptFor(me, s, DrainNext(s, step))
  {
  }

  /* What enqueue concludes */

  datatype SendResult = Sent | Cancelled | Waiting

  // Why enqueue ended as it did.
  datatype Verdict =
    | InFlight                                             // somebody has the reaction already
    | LoadLost | NoEvent | NoHandler
    | ClaimLost | NotPending | BadPayload
    | Queued | Withdrawn | Waits                           // in the select: sent, cancelled, not yet either
  {
    predicate Claims() { ClaimLost? || NotPending? || BadPayload? || Queued? || Withdrawn? || Waits? }
  }

  function ResultOf(v: Verdict): SendResult {
    match v
    case Queued => Sent
    case Waits => Waiting
    case _ => Cancelled
  }

  // The statements behind a verdict, in order.
  function Asked(v: Verdict, id: ReactionId, e: EventId): seq<Rows.Statement> {
    match v
    case InFlight => []
    case LoadLost => [Rows.GetEvent(e)]
    case NoHandler => [Rows.GetEvent(e)]
    case NoEvent => [Rows.GetEvent(e), Rows.MarkOne(id, Failed)]
    case BadPayload => [Rows.GetEvent(e), Rows.ClaimOne(id), Rows.MarkOne(id, Failed)]
    case _ => [Rows.GetEvent(e), Rows.ClaimOne(id)]
  }

  // The same from the claim on.
  function AskedAfterLoad(v: Verdict, id: ReactionId): seq<Rows.Statement> {
    if v.BadPayload? then [Rows.ClaimOne(id), Rows.MarkOne(id, Failed)] else [Rows.ClaimOne(id)]
  }

  // What comes after the load.
  function AskedNext(v: Verdict, id: ReactionId): seq<Rows.Statement> {
    if v.NoEvent? then [Rows.MarkOne(id, Failed)]
    else if v.Claims() then AskedAfterLoad(v, id)
    else []
  }

  // Each verdict on the event and the handler has its reason, in the answers or in what is stored and
  // registered; e and h are those of the row. a and b are before and after.
  predicate LoadJudged(v: Verdict, id: ReactionId, e: EventId, h: HandlerName, script: seq<Rows.Answer>, a: State,
      b: State) {
    && (v.LoadLost? <==> Rows.AnswerAt(script, 0).Lost?)
    && (v.NoEvent? ==> e !in a.tables.events && (Rows.AnswerAt(script, 1).Applied() ==> b.tables.HasStatus(id, Failed)))
    && (!v.LoadLost? && !v.NoEvent? ==> e in b.tables.events)
    && (v.NoHandler? ==> (b.tables.events[e], h) !in a.bus.handlers)
    && (v.Claims() ==> (b.tables.events[e], h) in b.bus.handlers)
  }

  // The same for the verdicts from the claim on; script is that of the claim, done whether the context has ended.
  predicate ClaimJudged(v: Verdict, id: ReactionId, e: EventId, undecodable: set<EventId>, script: seq<Rows.Answer>,
      t: Tables, done: bool) {
    && v.Claims()
    && (v.ClaimLost? <==> Rows.AnswerAt(script, 0).Lost?)
    && (v.BadPayload? ==> e in undecodable && (Rows.AnswerAt(script, 1).Applied() ==> t.HasStatus(id, Failed)))
    && (v.Queued? || v.Withdrawn? || v.Waits? ==> e !in undecodable)
    && (v.Withdrawn? ==> done)
  }

  // The load was made in a, and m is behind it.
  lemma JudgedAfterLoad(c: Company, v: Verdict, id: ReactionId, e: EventId, h: HandlerName,
      script: seq<Rows.Answer>, a: State, m: State, b: State)
    requires Runs(c, a, m) && Runs(c, m, b) && !v.InFlight?
    requires v.LoadLost? <==> Rows.AnswerAt(script, 0).Lost?
    requires v.NoEvent? <==> !v.LoadLost? && e !in a.tables.events
    requires v.NoEvent? && Rows.AnswerAt(script, 1).Applied() ==> b.tables.HasStatus(id, Failed)
    requires v.NoHandler? ==> e in a.tables.events && (a.tables.events[e], h) !in m.bus.handlers
    requires v.Claims() ==> e in a.tables.events && (a.tables.events[e], h) in m.bus.handlers
    ensures LoadJudged(v, id, e, h, script, a, b)
    ensures v.InFlight? || Asked(v, id, e) == [Rows.GetEvent(e)] + AskedNext(v, id)
  {
    RunsGrow(c, a, m);
    RunsGrow(c, m, b);
  }

  function Popped(lock: Lock): Lock
    requires lock.Held? && lock.pass.rest != []
  {
    lock.(pass := lock.pass.(rest := lock.pass.rest[1..]))
  }

  // enqueue is over, or waiting in its select.
  predicate EnqueueDone(before: Lock, after: Lock, id: ReactionId, r: SendResult) {
    && before.Held? && after.Held? && before.who == after.who
    && before.pass.rest == after.pass.rest && before.pass.full == after.pass.full
    && before.pass.before == after.pass.before
    && match r
       case Sent => after.at.Picking? && after.pass.queued
       case Cancelled => after.at.Picking? && after.pass.queued == before.pass.queued
       case Waiting => after.at.Enqueuing? && after.at.id == id && after.at.stage.Parked?
  }

  // The locals of drainPending, without the place in the code.
  predicate SameLocals(a: Lock, b: Lock) {
    a.Held? && b.Held? && a.who == b.who
    && a.pass.rest == b.pass.rest && a.pass.full == b.pass.full && a.pass.queued == b.pass.queued
    && a.pass.before == b.pass.before
  }

  /* Results of whole calls */

  datatype PassResult = Again | PassOver | StillSending
  datatype TurnResult = GoOn(sent: bool) | Leave(how: PassResult)
  datatype DrainResult = AllDone | NotYet(how: PassResult)
  datatype RecordOutcome = Recorded | ErrClosed | ErrNotStarted | RecordFailed
  datatype StartOutcome = StartDone | StartClosed | AlreadyStarted | StartFailed

  // Some run of some fresh process leads to s.
  ghost predicate Reachable(s: State) {
    exists s0 :: Init(s0) && Reaches(s0, s)
  }

  // Every claim of this process had its handler run and its mark tried, failed to decode, or was released.
  predicate AllSettled(notes: Notes) {
    forall r | r in notes.fate :: notes.fate[r] in {MarkTried, FailedDecode, Released}
  }

  lemma DrainedIsSettled(a: State, b: State, c: State)
    requires Took(a, Life(CallerAcquire), b) && Reaches(b, c) && c.own.pending == 0
    ensures Reachable(a) ==> AllSettled(c.notes)
  {
    if Reachable(a) {
      var s0 :| Init(s0) && Reaches(s0, a);
      ReachesStep(s0, a, Life(CallerAcquire), b);
      ReachesOn(s0, b, c);
      var steps :| Leads(s0, steps, c);
      DrainedMeansSettled(s0, steps);
    }
  }

  lemma ReachableOrderable(c: Company, s: State)
    requires Reachable(s) && s.lock.Free?
    ensures Orderable(c, s)
  {
    var s0 :| Init(s0) && Reaches(s0, s);
    var steps :| Leads(s0, steps, s);
    InitInv(s0);
    RunKeepsInv(s0, steps);
    RunShrinks(s0, steps);
  }

  lemma StartsOrderable(c: Company, a: State, step: LifeStep, b: State)
    requires Took(a, Life(step), b) && (step.PollerAcquire? || step.CallerAcquire?)
    ensures Orderable(c, a) ==> Orderable(c, b)
  {
    if Orderable(c, a) {
      StepKeepsInv(a, Life(step));
      StepShrinks(a, Life(step));
    }
  }

  predicate HandlersInOrder(rows: seq<NewRow>, names: seq<HandlerName>) {
    |rows| == |names| && forall i | 0 <= i < |rows| :: rows[i].handler == names[i]
  }

  ghost predicate HasRows(t: Tables, e: EventId, ty: EventType, names: seq<HandlerName>) {
    e in t.events && t.events[e] == ty && forall i | 0 <= i < |names| :: PairStored(t, e, names[i])
  }

  lemma {:induction false} StoreHasRows(a: State, task: TaskId, e: EventId, ty: EventType, rows: seq<NewRow>,
      names: seq<HandlerName>)
    requires CanStore(a, task, e, ty, rows) && HandlersInOrder(rows, names)
    ensures HasRows(StoreRecord(a, task, e, ty, rows).tables, e, ty, names)
  {
    var t := a.tables.(events := a.tables.events[e := ty]);
    InsertAllKeepsRows(t, e, rows);
    InsertAllCoversHandlers(t, e, rows);
    forall i | 0 <= i < |names| ensures PairStored(InsertAll(t, e, rows), e, names[i]) {
      assert rows[i].handler == names[i];
    }
  }

  lemma HasRowsLasts(t: Tables, t': Tables, e: EventId, ty: EventType, names: seq<HandlerName>)
    requires HasRows(t, e, ty, names) && Extends(t, t')
    ensures HasRows(t', e, ty, names)
  {
    forall i | 0 <= i < |names| ensures PairStored(t', e, names[i]) {
      assert PairStored(t, e, names[i]);
      var r :| r in t.reactions && t.reactions[r].event == e && t.reactions[r].handler == names[i];
      assert r in t'.reactions;
    }
  }

  // What a store leaves behind, whatever follows it.
  lemma StartsHasRows(c: Company, a: State, task: TaskId, e: EventId, ty: EventType, rows: seq<NewRow>,
      names: seq<HandlerName>, b: State)
    requires Starts(c, a, Recording(Store(task, e, ty, rows)), b) && HandlersInOrder(rows, names)
    ensures HasRows(b.tables, e, ty, names)
  {
    var n := Next(a, Recording(Store(task, e, ty, rows)));
    StoreHasRows(a, task, e, ty, rows, names);
    RunsGrow(c, n, b);
    HasRowsLasts(n.tables, b.tables, e, ty, names);
  }

  lemma EveryNamed(t: Tables, e: EventId, ty: EventType, names: seq<HandlerName>,
      handlers: set<(EventType, HandlerName)>)
    requires HasRows(t, e, ty, names) && forall h | (ty, h) in handlers :: h in names
    ensures forall h | (ty, h) in handlers :: PairStored(t, e, h)
  {
    forall h | (ty, h) in handlers ensures PairStored(t, e, h) {
      var i :| 0 <= i < |names| && names[i] == h;
      assert PairStored(t, e, names[i]);
    }
  }

  /* A finished job */

  // The mark of a worker stays.
  lemma MarkLasts(c: Company, a: State, w: WorkerId, b: State, f: State)
    requires Inv(a) && Took(a, Working(Mark(w, true)), b) && Runs(c, b, f)
    ensures f.tables.HasStatus(a.own.workers[w].id, if a.own.workers[w].ok then Succeeded else Failed)
  {
    StepKeepsInv(a, Working(Mark(w, true)));
    RunsKeepInv(c, b, f);
    assert b.tables.IsTerminal(a.own.workers[w].id);
  }

  /* A drain alone */

  // Nothing has overtaken a claim, every reaction has its event, and fewer than a page lack a handler.
  ghost predicate ReadyToDrain(s: State) {
    Inv(s) && Tidy(s) && Referenced(s.tables) && |WithoutHandler(s)| < s.cfg.pollLimit
  }

  lemma AloneDrainsEverything(a: State, step: LifeStep, b: State, f: State)
    requires ReadyToDrain(a) && Took(a, Life(step), b) && (step.PollerAcquire? || step.CallerAcquire?)
    requires Runs(Nobody, b, f) && f.lock.Free?
    ensures Drained(a, f)
  {
    StepKeepsInv(a, Life(step));
    StepKeepsTidy(a, Life(step));
    var steps :| LeadsIn(Nobody, b, steps, f);
    assert forall i | 0 <= i < |steps| :: Allowed(Nobody, steps[i]) && Smooth(steps[i]);
    assert WithoutHandler(b) == WithoutHandler(a);
    DrainsEverything(b, steps);
    assert forall r :: Ready(b, r) <==> Ready(a, r);
  }
}
