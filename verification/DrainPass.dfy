/** drainPending, pass by pass: every repeated pass starts with strictly fewer pending
    reactions, so without new ones the passes are bounded, and a clean return leaves only
    reactions without a handler. */
module DrainPass {
  import opened Counting
  import opened ReactionTables
  import opened ReactionProtocol
  import opened ReactionRuns
  import opened Ownership
  import opened Orderly

  // A list has been read in this critical section.
  predicate InPass(lock: Lock) {
    lock.Held? && (lock.at.Listing? ==> lock.pass.queued)
  }

  // What is pending now was pending at the list, or became so since; what was sent is not pending.
  ghost predicate PassShrinks(t: Tables, lock: Lock) {
    InPass(lock) ==>
      && (forall r | r in PendingIds(t) :: r in lock.pass.before || r in lock.pass.anew)
      && (forall i | 0 <= i < |lock.pass.won| ::
            lock.pass.won[i] in lock.pass.before
              && (lock.pass.won[i] in PendingIds(t) ==> lock.pass.won[i] in lock.pass.anew))
      && (lock.pass.queued <==> lock.pass.won != [])
      && (forall r | r in lock.pass.rest :: r in lock.pass.before)
      && (lock.at.Enqueuing? ==> lock.at.id in lock.pass.before)
      && (HoldsClaim(lock) && lock.at.id in PendingIds(t) ==> lock.at.id in lock.pass.anew)
  }

  ghost predicate Shrinks(s: State) {
    PassShrinks(s.tables, s.lock)
  }

  // The reaction is the current one and enqueue has not decided about it.
  predicate Undecided(lock: Lock, r: ReactionId) {
    EnqueuerHas(lock, r) && !lock.at.stage.Undoing? && !lock.at.stage.Clearing? && !lock.at.stage.Failing?
  }

  // Unless something went wrong, every listed reaction is ahead, current, sent or without a handler.
  ghost predicate PassAccounts(s: State) {
    InPass(s.lock) && s.lock.pass.clean ==>
      forall r | r in s.lock.pass.listed ::
        r in s.lock.pass.rest || Undecided(s.lock, r) || r in s.lock.pass.unhandled || r in s.lock.pass.won
  }

  // A reaction without a handler stays pending, and without one unless it was registered since.
  ghost predicate UnhandledWait(s: State) {
    InPass(s.lock) ==>
      && (forall r | r in s.lock.pass.unhandled ::
            s.tables.HasEvent(r) && r in PendingIds(s.tables) && (HasHandler(s, r) ==> r in s.lock.pass.heard))
      && (forall r | r in s.lock.pass.unhandled :: r !in s.lock.pass.rest && !Undecided(s.lock, r)
            && (EnqueuerHas(s.lock, r) ==> s.lock.at.stage == Undoing(Release) || s.lock.at.stage == Clearing(Release)))
  }

  ghost predicate ListComplete(s: State) {
    InPass(s.lock) ==>
      if s.lock.pass.full then |s.lock.pass.listed| == s.cfg.pollLimit
      else forall r | r in s.lock.pass.before :: r in s.lock.pass.listed
  }

  /* Every repeated pass is smaller, in every interleaving */

  lemma StoreShrinks(s: State, task: TaskId, e: EventId, ty: EventType, rows: seq<NewRow>)
    requires Shrinks(s) && CanStore(s, task, e, ty, rows)
    ensures Shrinks(StoreRecord(s, task, e, ty, rows))
  {
    InsertAllKeepsRows(s.tables.(events := s.tables.events[e := ty]), e, rows);
    var t' := StoreRecord(s, task, e, ty, rows).tables;
    var ids := t'.reactions.Keys - s.tables.reactions.Keys;
    assert forall r | r in PendingIds(t') :: r in PendingIds(s.tables) || r in ids;
  }

  lemma RecordShrinks(s: State, step: RecordStep)
    requires RecordEnabled(s, step) && Shrinks(s)
    ensures Shrinks(RecordNext(s, step))
  {
    if step.Stores() {
      StoreShrinks(s, step.task, step.e, step.ty, step.rows);
    }
  }

  lemma EnqueueShrinks(s: State, r: ReactionId, stage: Stage, step: EnqueueStep)
    requires Inv(s) && Shrinks(s)
    requires AtStage(s, r, stage) && EnqueueEnabled(s, r, stage, step)
    ensures Shrinks(EnqueueNext(s, r, stage, step))
  {
    if step.Claim? || step.ClaimError? {
      ClaimShrinks(s, r, step.Claim? || step.applied);
    } else if step.Send? {
      SendShrinks(s, r);
    }
  }

  lemma ClaimShrinks(s: State, r: ReactionId, applied: bool)
    requires Inv(s) && Shrinks(s) && AtStage(s, r, Claiming)
    ensures Shrinks(ClaimNow(s, r)) && Shrinks(ClaimFailed(s, r, applied))
  {
    assert PendingIds(ClaimedRow(s.tables, r)) <= PendingIds(s.tables);
  }

  lemma SendShrinks(s: State, r: ReactionId)
    requires Inv(s) && Shrinks(s) && AtStage(s, r, Parked(true))
    ensures Shrinks(SendJob(s, r))
  {
  }

  lemma DrainShrinks(s: State, step: DrainStep)
    requires Inv(s) && Shrinks(s) && DrainEnabled(s, step)
    ensures Shrinks(DrainNext(s, step))
  {
    match step {
      case Enqueue(e) => EnqueueShrinks(s, s.lock.at.id, s.lock.at.stage, e);
      case _ =>
    }
  }

  lemma StepShrinks(s: State, step: Step)
    requires Inv(s) && Shrinks(s) && Enabled(s, step)
    ensures Shrinks(Next(s, step))
  {
    match step {
      case Recording(r) => RecordShrinks(s, r);
      case Drain(d) => DrainShrinks(s, d);
      case Life(l) => LifeShrinks(s, l);
      case Working(w) => WorkShrinks(s, w);
    }
  }

  lemma LifeShrinks(s: State, step: LifeStep)
    requires Inv(s) && Shrinks(s) && LifeEnabled(s, step)
    ensures Shrinks(LifeNext(s, step))
  {
  }

  lemma WorkShrinks(s: State, step: WorkStep)
    requires Inv(s) && Shrinks(s) && WorkEnabled(s, step)
    ensures Shrinks(WorkNext(s, step))
  {
  }

  lemma {:induction false} RunShrinks(s: State, steps: seq<Step>)
    requires Inv(s) && Shrinks(s) && Feasible(s, steps)
    ensures Shrinks(Exec(s, steps))
    decreases |steps|
  {
    if steps != [] {
      StepKeepsInv(s, steps[0]);
      StepShrinks(s, steps[0]);
      RunShrinks(Next(s, steps[0]), steps[1..]);
    }
  }

  lemma RepeatIsSmaller(t: Tables, lock: Lock)
    requires PassShrinks(t, lock) && InPass(lock) && lock.pass.queued
    ensures PendingIds(t) - lock.pass.anew < lock.pass.before
  {
    var r := lock.pass.won[0];
    var left := PendingIds(t) - lock.pass.anew;
    assert r in lock.pass.before && r !in left;
    forall q | q in left ensures q in lock.pass.before {
      assert q in PendingIds(t) && q !in lock.pass.anew;
    }
    assert left != lock.pass.before;
  }

  // The variant of the loop in drainPending: going round again means that the pending rows are
  // a proper subset of those listed for, apart from what was inserted or reset meanwhile.
  lemma {:induction false} NextPassIsSmaller(s: State, steps: seq<Step>)
    requires Init(s) && Feasible(s, steps)
    requires Repeats(Exec(s, steps))
    ensures PendingIds(Exec(s, steps).tables) - Exec(s, steps).lock.pass.anew < Exec(s, steps).lock.pass.before
  {
    InitInv(s);
    RunShrinks(s, steps);
    RepeatIsSmaller(Exec(s, steps).tables, Exec(s, steps).lock);
  }

  /* The number of passes */

  // Nothing is inserted or reset. Handlers may be registered.
  predicate Quiet(step: Step) {
    match step
    case Recording(r) => !r.Stores()
    case Life(l) => !l.Resets() && !l.Crash?
    case _ => true
  }

  ghost predicate AllQuiet(steps: seq<Step>) {
    forall i | 0 <= i < |steps| :: Quiet(steps[i])
  }

  lemma QuietPending(s: State, step: Step)
    requires Enabled(s, step) && Quiet(step)
    ensures PendingIds(Next(s, step).tables) <= PendingIds(s.tables)
  {
  }

  predicate IsList(step: Step) {
    step.Drain? && (step.d.List? || step.d.ListError?)
  }

  // The list statements until the lock is released.
  ghost function Lists(s: State, steps: seq<Step>): nat
    requires Feasible(s, steps)
    decreases |steps|
  {
    if steps == [] || s.lock.Free? then 0
    else (if IsList(steps[0]) then 1 else 0) + Lists(Next(s, steps[0]), steps[1..])
  }

  // How many of them can be left.
  function Budget(s: State): nat {
    if s.lock.Free? then 0
    else if s.lock.at.Listing? then |PendingIds(s.tables)| + 1
    else |s.lock.pass.before|
  }

  predicate NothingNew(lock: Lock) {
    lock.Held? && !lock.at.Listing? ==> lock.pass.anew == {}
  }

  lemma QuietStepSpends(s: State, step: Step)
    requires Inv(s) && Shrinks(s) && NothingNew(s.lock) && s.lock.Held? && Enabled(s, step) && Quiet(step)
    ensures NothingNew(Next(s, step).lock)
    ensures Budget(Next(s, step)) + (if IsList(step) then 1 else 0) <= Budget(s)
  {
    QuietPending(s, step);
    SubsetCount(PendingIds(Next(s, step).tables), PendingIds(s.tables));
    if step == Drain(End) && s.lock.pass.queued {
      RepeatIsSmaller(s.tables, s.lock);
      SmallerCount(PendingIds(s.tables), s.lock.pass.before);
    }
  }

  lemma {:induction false} QuietRunSpends(s: State, steps: seq<Step>)
    requires Inv(s) && Shrinks(s) && NothingNew(s.lock) && Feasible(s, steps) && AllQuiet(steps)
    ensures Lists(s, steps) <= Budget(s)
    decreases |steps|
  {
    if steps != [] && s.lock.Held? {
      QuietStepSpends(s, steps[0]);
      StepKeepsInv(s, steps[0]);
      StepShrinks(s, steps[0]);
      assert forall i | 0 <= i < |steps[1..]| :: steps[1..][i] == steps[i + 1];
      QuietRunSpends(Next(s, steps[0]), steps[1..]);
    }
  }

  lemma {:induction false} QuietRunKeeps(s: State, steps: seq<Step>)
    requires NothingNew(s.lock) && Feasible(s, steps) && AllQuiet(steps)
    ensures NothingNew(Exec(s, steps).lock) && PendingIds(Exec(s, steps).tables) <= PendingIds(s.tables)
    decreases |steps|
  {
    if steps != [] {
      QuietPending(s, steps[0]);
      QuietKeepsOld(s, steps[0]);
      assert forall i | 0 <= i < |steps[1..]| :: steps[1..][i] == steps[i + 1];
      QuietRunKeeps(Next(s, steps[0]), steps[1..]);
    }
  }

  lemma QuietKeepsOld(s: State, step: Step)
    requires NothingNew(s.lock) && Enabled(s, step) && Quiet(step)
    ensures NothingNew(Next(s, step).lock)
  {
  }

  // drainPending ends: from any point where it is about to list, while nothing is inserted or reset, it
  // lists at most once more than reactions are pending, whatever else the other goroutines do.
  lemma {:induction false} PassesAreBounded(s: State, before: seq<Step>, steps: seq<Step>)
    requires Init(s) && Feasible(s, before) && Feasible(Exec(s, before), steps) && AllQuiet(steps)
    requires Exec(s, before).lock.Held? && Exec(s, before).lock.at.Listing?
    ensures Lists(Exec(s, before), steps) <= |PendingIds(Exec(s, before).tables)| + 1
  {
    InitInv(s);
    RunKeepsInv(s, before);
    RunShrinks(s, before);
    QuietRunSpends(Exec(s, before), steps);
  }

  // The pass is over and drainPending lists again.
  predicate Repeats(s: State) {
    s.lock.Held? && s.lock.at.Picking? && s.lock.pass.rest == [] && EndPass(s).lock.Held?
  }

  /* What a clean pass leaves behind, in orderly runs */

  ghost predicate PassInv(s: State) {
    PassAccounts(s) && UnhandledWait(s) && ListComplete(s)
  }

  lemma RecordPass(s: State, step: RecordStep)
    requires Inv(s) && Tidy(s) && PassInv(s) && RecordEnabled(s, step)
    ensures PassInv(RecordNext(s, step))
  {
    if step.Stores() {
      InsertAllKeepsRows(s.tables.(events := s.tables.events[step.e := step.ty]), step.e, step.rows);
    }
  }

  lemma PickPass(s: State)
    requires Inv(s) && Tidy(s) && PassInv(s) && DrainEnabled(s, Pick)
    ensures PassInv(PickNext(s))
  {
    var r := s.lock.pass.rest[0];
    assert s.lock.pass.rest == [r] + s.lock.pass.rest[1..];
    assert r in s.lock.pass.rest && s.tables.HasStatus(r, Pending);
    NotInHands(s, r);
  }

  lemma WorkerNotPending(s: State, r: ReactionId)
    requires Inv(s) && Tidy(s)
    ensures (exists w :: WorksOn(s.own.workers, w, r)) ==> NotPending(s.tables, r)
  {
  }

  // A pending reaction that is not the current one is nobody's.
  lemma NotInHands(s: State, r: ReactionId)
    requires Inv(s) && Tidy(s) && r in PendingIds(s.tables) && !EnqueuerHas(s.lock, r)
    ensures r !in s.own.inFlight
  {
    WorkerNotPending(s, r);
    assert r in s.own.inFlight <==> Owned(s.own, s.lock, r);
  }

  lemma ListPass(s: State, ids: seq<ReactionId>)
    requires DrainEnabled(s, List(ids))
    ensures PassInv(Listed(s, ids))
  {
    DistinctCount(ids);
  }

  lemma LookPass(s: State, r: ReactionId)
    requires Inv(s) && Tidy(s) && PassInv(s) && AtStage(s, r, Looking)
    ensures PassInv(LookUp(s, r))
  {
  }

  lemma ClaimPass(s: State, r: ReactionId, applied: bool)
    requires Inv(s) && Tidy(s) && PassInv(s) && AtStage(s, r, Claiming)
    ensures PassInv(ClaimNow(s, r)) && PassInv(ClaimFailed(s, r, applied))
  {
  }

  lemma EnqueuePass(s: State, r: ReactionId, stage: Stage, step: EnqueueStep)
    requires Inv(s) && Tidy(s) && PassInv(s) && AtStage(s, r, stage) && EnqueueEnabled(s, r, stage, step)
    ensures PassInv(EnqueueNext(s, r, stage, step))
  {
    match step {
      case Look => LookPass(s, r);
      case Claim => ClaimPass(s, r, true);
      case ClaimError(applied) => ClaimPass(s, r, applied);
      case _ =>
    }
  }

  lemma DrainKeepsPass(s: State, step: DrainStep)
    requires Inv(s) && Tidy(s) && PassInv(s) && DrainEnabled(s, step)
    ensures PassInv(DrainNext(s, step))
  {
    match step {
      case List(ids) => ListPass(s, ids);
      case Pick => PickPass(s);
      case Enqueue(e) => EnqueuePass(s, s.lock.at.id, s.lock.at.stage, e);
      case _ =>
    }
  }

  lemma WorkPass(s: State, step: WorkStep)
    requires Inv(s) && Tidy(s) && PassInv(s) && WorkEnabled(s, step)
    ensures PassInv(WorkNext(s, step))
  {
  }

  lemma StepKeepsPass(s: State, step: Step)
    requires Inv(s) && Tidy(s) && PassInv(s) && Enabled(s, step)
    ensures PassInv(Next(s, step))
  {
    match step {
      case Recording(r) => RecordPass(s, r);
      case Drain(d) => DrainKeepsPass(s, d);
      case Life(l) => LifePass(s, l);
      case Working(w) => WorkPass(s, w);
    }
  }

  lemma LifePass(s: State, step: LifeStep)
    requires Inv(s) && PassInv(s) && LifeEnabled(s, step)
    ensures PassInv(LifeNext(s, step))
  {
  }

  lemma {:induction false} HarmlessRunPass(s: State, steps: seq<Step>)
    requires Inv(s) && Tidy(s) && PassInv(s) && Feasible(s, steps) && HarmlessRun(s, steps)
    ensures PassInv(Exec(s, steps))
    decreases |steps|
  {
    if steps != [] {
      StepKeepsInv(s, steps[0]);
      StepKeepsTidy(s, steps[0]);
      StepKeepsPass(s, steps[0]);
      HarmlessRunPass(Next(s, steps[0]), steps[1..]);
    }
  }

  function WithoutHandler(s: State): set<ReactionId> {
    set r | r in PendingIds(s.tables) && !HasHandler(s, r)
  }

  // drainPending returns from the end of a pass that met no error, with nothing inserted, reset or
  // registered since its list, and with fewer than pollLimit pending reactions lacking a handler:
  // then no pending reaction has one.
  lemma {:induction false} CleanReturnIsComplete(s: State, steps: seq<Step>)
    requires Init(s) && Feasible(s, steps) && HarmlessSinceCrash(s, steps)
    requires ReturnsClean(Exec(s, steps)) && |WithoutHandler(Exec(s, steps))| < Exec(s, steps).cfg.pollLimit
    ensures WithoutHandler(Exec(s, steps)) == PendingIds(Exec(s, steps).tables)
  {
    CurrentRunIsARun(s, steps);
    var (b, rest) := CurrentRun(s, steps);
    InitInv(b);
    RunShrinks(b, rest);
    HarmlessRunPass(b, rest);
    CleanEnd(Exec(s, steps));
  }

  // The pass is over, drainPending returns, and nothing happened to the pass that was not its own doing.
  predicate ReturnsClean(f: State) {
    && f.lock.Held? && f.lock.at.Picking? && f.lock.pass.rest == [] && EndPass(f).lock.Free?
    && f.lock.pass.clean && f.lock.pass.anew == {} && f.lock.pass.heard == {}
  }

  lemma CleanEnd(f: State)
    requires Shrinks(f) && PassInv(f)
    requires ReturnsClean(f) && |WithoutHandler(f)| < f.cfg.pollLimit
    ensures WithoutHandler(f) == PendingIds(f.tables)
  {
    var pass := f.lock.pass;
    assert InPass(f.lock);
    assert forall r | r in pass.listed :: r in pass.unhandled || r in pass.won;
    assert forall r | r in pass.unhandled :: r in WithoutHandler(f);
    if pass.full {
      SubsetCount(pass.listed, WithoutHandler(f));
      assert false;
    }
  }

  // The other return: an empty list, which means that nothing is pending.
  lemma EmptyListIsComplete(s: State)
    requires DrainEnabled(s, List([])) && s.cfg.pollLimit > 0
    ensures PendingIds(s.tables) == {}
  {
    var none: seq<ReactionId> := [];
    assert forall r | r in PendingIds(s.tables) :: r in none;
  }
}
