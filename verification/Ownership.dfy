/** Single ownership: what holds in every reachable state of the persistent bus,
    whatever the interleaving, the errors and the crashes. */
module Ownership {
  import opened ReactionTables
  import opened ReactionProtocol

  predicate EnqueuerHas(lock: Lock, r: ReactionId) {
    lock.Held? && lock.at.Enqueuing? && lock.at.id == r
  }

  // A reaction is queued once, or with one worker, or with the lock holder.
  ghost predicate Exclusive(jobs: seq<ReactionId>, workers: map<WorkerId, Work>, lock: Lock) {
    && (forall i, j | 0 <= i < j < |jobs| :: jobs[i] != jobs[j])
    && (forall w, v | w in workers && v in workers && w != v && workers[w].HasId() && workers[v].HasId() ::
          workers[w].id != workers[v].id)
    && (forall w | w in workers && workers[w].HasId() :: workers[w].id !in jobs)
    && (lock.Held? && lock.at.Enqueuing? ==> OutOfHands(jobs, workers, lock.at.id))
  }

  // Neither queued nor with a worker.
  ghost predicate OutOfHands(jobs: seq<ReactionId>, workers: map<WorkerId, Work>, r: ReactionId) {
    r !in jobs && (forall w | w in workers && workers[w].HasId() :: workers[w].id != r)
  }

  ghost predicate Owned(own: Own, lock: Lock, r: ReactionId) {
    || r in own.jobs
    || (exists w :: WorksOn(own.workers, w, r))
    || (EnqueuerHas(lock, r) && !lock.at.stage.Failing?)
  }

  ghost predicate InFlightIsOwned(own: Own, lock: Lock) {
    forall r :: r in own.inFlight <==> Owned(own, lock, r)
  }

  // Each reaction of a pass is still ahead, or the current one, never both.
  ghost predicate PassOrder(lock: Lock) {
    lock.Held? ==>
      && (forall i, j | 0 <= i < j < |lock.pass.rest| :: lock.pass.rest[i] != lock.pass.rest[j])
      && (lock.at.Enqueuing? ==> lock.at.id !in lock.pass.rest)
  }

  predicate Counted(lock: Lock) {
    lock.Held? && lock.at.Enqueuing? &&
    !lock.at.stage.Counting? && !lock.at.stage.Clearing? && !lock.at.stage.Failing?
  }

  // The wait group: jobs queued, jobs with a worker, and the enqueue in progress.
  ghost predicate PendingCounts(own: Own, lock: Lock) {
    own.pending == |own.jobs| + |own.workers| + if Counted(lock) then 1 else 0
  }

  // Not finished, and its event can be loaded.
  predicate Runnable(t: Tables, r: ReactionId) {
    t.HasEvent(r) && !t.IsTerminal(r)
  }

  // A listed reaction is still pending, or at least its event exists.
  predicate Loadable(t: Tables, r: ReactionId) {
    r in t.reactions && (t.reactions[r].status.Pending? || t.HasEvent(r))
  }

  predicate GivingUp(t: Tables, r: ReactionId, why: Why) {
    match why
    case Missing => t.HasStatus(r, Pending)
    case Undecodable => Runnable(t, r)
    case Release => r in t.reactions
  }

  predicate StageGrounded(t: Tables, r: ReactionId, stage: Stage) {
    match stage
    case Counting => Loadable(t, r)
    case Loading => Loadable(t, r)
    case Looking => t.HasEvent(r)
    case Claiming => t.HasEvent(r)
    case Decoding => Runnable(t, r)
    case Sending => Runnable(t, r)
    case Parked(_) => Runnable(t, r)
    case Undoing(why) => GivingUp(t, r, why)
    case Clearing(why) => GivingUp(t, r, why)
    case Failing(why) => GivingUp(t, r, why) && !why.Release?
  }

  ghost predicate HandsGrounded(t: Tables, own: Own) {
    && (forall r | r in own.jobs :: Runnable(t, r))
    && (forall w | w in own.workers && own.workers[w].BeforeMark() :: Runnable(t, own.workers[w].id))
  }

  ghost predicate LockGrounded(t: Tables, lock: Lock) {
    lock.Held? ==>
      && (forall r | r in lock.pass.rest :: Loadable(t, r))
      && (lock.at.Enqueuing? ==> StageGrounded(t, lock.at.id, lock.at.stage))
  }

  // How the phases of the bus, the poller, the channel and the lock go together.
  ghost predicate Phases(s: State) {
    && (s.bus.starting ==> !s.bus.started)
    && (s.poll.chan.Absent? <==> !s.bus.started)
    && (s.poll.poller.Off? <==> !s.bus.started)
    && (s.poll.poller.Draining? <==> s.lock.Held? && s.lock.who.ByPoller?)
    && (s.poll.chan.Closed? ==> s.bus.closed && s.poll.cancelled && s.poll.poller.Exited?)
    && (!s.bus.started ==> s.own.jobs == [] && s.own.workers == map[] && s.bus.records == map[])
    && (s.bus.closed ==> s.bus.records == map[] && !s.bus.starting)
    && |s.own.jobs| <= s.cfg.queueCap && |s.own.workers| <= s.cfg.workers
    && (ParkedLive(s.lock) ==> !s.poll.chan.Absent?)
  }

  predicate ParkedLive(lock: Lock) {
    lock.Held? && lock.at.Enqueuing? && lock.at.stage == Parked(true)
  }

  ghost predicate Inv(s: State) {
    && Unique(s.tables)
    && Exclusive(s.own.jobs, s.own.workers, s.lock)
    && InFlightIsOwned(s.own, s.lock)
    && PassOrder(s.lock)
    && PendingCounts(s.own, s.lock)
    && HandsGrounded(s.tables, s.own)
    && LockGrounded(s.tables, s.lock)
    && Phases(s)
  }

  /* How the tables may change under an owner */

  // Rows stay and keep their event; rows that are not terminal do not become terminal, except perhaps r.
  ghost predicate Tame(t: Tables, t': Tables, touched: set<ReactionId>) {
    && (forall e | e in t.events :: e in t'.events)
    && (forall r | r in t.reactions :: r in t'.reactions && t'.reactions[r].event == t.reactions[r].event)
    && (forall r | r in t.reactions && r !in touched && t.reactions[r].status.Pending? ::
      t'.reactions[r].status.Pending?)
    && (forall r | r in t.reactions && r !in touched && !t.IsTerminal(r) :: !t'.IsTerminal(r))
  }

  lemma TameKeepsHands(t: Tables, t': Tables, touched: set<ReactionId>, own: Own)
    requires Tame(t, t', touched) && HandsGrounded(t, own)
    requires forall r | r in own.jobs :: r !in touched
    requires forall w | w in own.workers && own.workers[w].BeforeMark() :: own.workers[w].id !in touched
    ensures HandsGrounded(t', own)
  {
  }

  lemma TameKeepsLock(t: Tables, t': Tables, touched: set<ReactionId>, lock: Lock)
    requires Tame(t, t', touched) && LockGrounded(t, lock)
    requires forall r | r in touched :: t.HasEvent(r)
    requires lock.Held? && lock.at.Enqueuing? ==> lock.at.id !in touched
    ensures LockGrounded(t', lock)
  {
  }

  /* Steps that leave the reactions, their owners and the pass alone */

  ghost predicate SameSpot(lock: Lock, lock': Lock) {
    || (lock.Free? && lock'.Free?)
    || (lock.Held? && lock'.Held? && lock'.who == lock.who && lock'.at == lock.at && lock'.pass.rest == lock.pass.rest)
  }

  lemma OutsideKeeps(s: State, s': State)
    requires Inv(s) && Phases(s')
    requires s'.own == s.own && SameSpot(s.lock, s'.lock)
    requires Unique(s'.tables) && Tame(s.tables, s'.tables, {})
    ensures Inv(s')
  {
    TameKeepsHands(s.tables, s'.tables, {}, s.own);
    TameKeepsLock(s.tables, s'.tables, {}, s.lock);
    assert forall r :: EnqueuerHas(s.lock, r) == EnqueuerHas(s'.lock, r);
    assert forall r :: Owned(s.own, s.lock, r) == Owned(s'.own, s'.lock, r);
  }

  lemma StoreKeeps(s: State, task: TaskId, e: EventId, ty: EventType, rows: seq<NewRow>)
    requires Inv(s) && CanStore(s, task, e, ty, rows)
    ensures Inv(StoreRecord(s, task, e, ty, rows))
  {
    var t1 := s.tables.(events := s.tables.events[e := ty]);
    InsertAllUnique(t1, e, rows);
    InsertAllKeepsRows(t1, e, rows);
    OutsideKeeps(s, StoreRecord(s, task, e, ty, rows));
  }

  lemma RecordKeeps(s: State, step: RecordStep)
    requires Inv(s) && RecordEnabled(s, step)
    ensures Inv(RecordNext(s, step))
  {
    match step {
      case Store(task, e, ty, rows) => StoreKeeps(s, task, e, ty, rows);
      case StoreLost(task, e, ty, rows) =>
        StoreKeeps(s, task, e, ty, rows);
        OutsideKeeps(StoreRecord(s, task, e, ty, rows), RecordNext(s, step));
      case _ => OutsideKeeps(s, RecordNext(s, step));
    }
  }

  lemma BootKeeps(s: State)
    requires Inv(s)
    ensures Inv(Boot(s))
  {
    var b := Boot(s);
    assert forall r :: !Owned(b.own, b.lock, r);
  }

  // A lock holder that is not enqueuing owns nothing; taking or leaving the lock changes no owner.
  lemma RelockKeeps(s: State, s': State)
    requires Inv(s) && Phases(s')
    requires s'.own == s.own && s'.tables == s.tables
    requires s.lock.Held? ==> !s.lock.at.Enqueuing?
    requires s'.lock.Held? ==> !s'.lock.at.Enqueuing? && PassOrder(s'.lock) && LockGrounded(s'.tables, s'.lock)
    ensures Inv(s')
  {
    assert forall r :: Owned(s.own, s.lock, r) == Owned(s'.own, s'.lock, r);
  }

  lemma LifeKeeps(s: State, step: LifeStep)
    requires Inv(s) && LifeEnabled(s, step)
    ensures Inv(LifeNext(s, step))
  {
    match step {
      case Crash => BootKeeps(s);
      case PollerAcquire => RelockKeeps(s, LifeNext(s, step));
      case CallerAcquire => RelockKeeps(s, LifeNext(s, step));
      case _ => OutsideKeeps(s, LifeNext(s, step));
    }
  }

  lemma ListKeeps(s: State, ids: seq<ReactionId>)
    requires Inv(s) && DrainEnabled(s, List(ids))
    ensures Inv(Listed(s, ids))
  {
    RelockKeeps(s, Listed(s, ids));
  }

  lemma PickKeeps(s: State)
    requires Inv(s) && DrainEnabled(s, Pick)
    ensures Inv(PickNext(s))
  {
    var r := s.lock.pass.rest[0];
    var s' := PickNext(s);
    if r in s.own.inFlight {
      RelockKeeps(s, s');
    } else {
      assert !Owned(s.own, s.lock, r);
      forall w | w in s.own.workers && s.own.workers[w].HasId() ensures s.own.workers[w].id != r {
        assert s.own.workers[w].id == r ==> WorksOn(s.own.workers, w, r);
      }
      assert forall q :: Owned(s'.own, s'.lock, q) <==> Owned(s.own, s.lock, q) || q == r;
    }
  }

  lemma DrainKeeps(s: State, step: DrainStep)
    requires Inv(s) && DrainEnabled(s, step)
    ensures Inv(DrainNext(s, step))
  {
    match step {
      case List(ids) => ListKeeps(s, ids);
      case Pick => PickKeeps(s);
      case Enqueue(e) => EnqueueKeeps(s, s.lock.at.id, s.lock.at.stage, e);
      case ListError => RelockKeeps(s, Unlock(s));
      case Stop => RelockKeeps(s, Unlock(s));
      case End => RelockKeeps(s, EndPass(s));
    }
  }

  ghost predicate AtStage(s: State, r: ReactionId, stage: Stage) {
    s.lock.Held? && s.lock.at == Enqueuing(r, stage)
  }

  // enqueue moves on within the same reaction, owning it before and after.
  lemma MoveKeeps(s: State, s': State, r: ReactionId, stage: Stage, stage': Stage)
    requires Inv(s) && AtStage(s, r, stage) && AtStage(s', r, stage')
    requires !stage.Failing? && !stage'.Failing?
    requires s'.lock.who == s.lock.who && s'.lock.pass.rest == s.lock.pass.rest
    requires s'.own.(pending := 0) == s.own.(pending := 0) && PendingCounts(s'.own, s'.lock)
    requires s'.poll == s.poll && s'.bus == s.bus && s'.cfg == s.cfg
    requires Unique(s'.tables) && Tame(s.tables, s'.tables, {r})
    requires StageGrounded(s'.tables, r, stage') && (stage' == Parked(true) ==> !s.poll.chan.Absent?)
    ensures Inv(s')
  {
    TameKeepsHands(s.tables, s'.tables, {r}, s.own);
    assert forall q | q in s.lock.pass.rest :: Loadable(s'.tables, q);
    assert forall q :: EnqueuerHas(s.lock, q) == EnqueuerHas(s'.lock, q);
    assert forall q :: Owned(s.own, s.lock, q) == Owned(s'.own, s'.lock, q);
  }

  lemma ClaimIsTame(t: Tables, r: ReactionId)
    requires Unique(t)
    ensures Unique(ClaimedRow(t, r)) && Tame(t, ClaimedRow(t, r), {r})
  {
  }

  lemma MarkIsTame(t: Tables, r: ReactionId, status: Status)
    requires Unique(t)
    ensures Unique(MarkedAs(t, r, status)) && Tame(t, MarkedAs(t, r, status), {r})
  {
  }

  lemma ClaimKeeps(s: State, r: ReactionId)
    requires Inv(s) && AtStage(s, r, Claiming)
    ensures Inv(ClaimNow(s, r))
  {
    ClaimIsTame(s.tables, r);
    var s' := ClaimNow(s, r);
    MoveKeeps(s, s', r, Claiming, s'.lock.at.stage);
  }

  lemma ClaimFailedKeeps(s: State, r: ReactionId, applied: bool)
    requires Inv(s) && AtStage(s, r, Claiming)
    ensures Inv(ClaimFailed(s, r, applied))
  {
    ClaimIsTame(s.tables, r);
    MoveKeeps(s, ClaimFailed(s, r, applied), r, Claiming, Undoing(Release));
  }

  lemma SendKeeps(s: State, r: ReactionId)
    requires Inv(s) && AtStage(s, r, Parked(true)) && s.poll.chan.Open? && |s.own.jobs| < s.cfg.queueCap
    ensures Inv(SendJob(s, r))
  {
    var s' := SendJob(s, r);
    assert forall q :: q in s'.own.jobs <==> q in s.own.jobs || q == r;
    assert forall q :: Owned(s.own, s.lock, q) == Owned(s'.own, s'.lock, q);
  }

  lemma ClearKeeps(s: State, r: ReactionId, why: Why)
    requires Inv(s) && AtStage(s, r, Clearing(why))
    ensures Inv(ClearEntry(s, r, why))
  {
    var s' := ClearEntry(s, r, why);
    forall w | w in s.own.workers ensures !WorksOn(s.own.workers, w, r) { }
    assert forall q :: Owned(s'.own, s'.lock, q) <==> Owned(s.own, s.lock, q) && q != r;
  }

  lemma FailKeeps(s: State, r: ReactionId, why: Why, stored: bool)
    requires Inv(s) && AtStage(s, r, Failing(why))
    ensures Inv(FailEntry(s, r, stored))
  {
    var s' := FailEntry(s, r, stored);
    MarkIsTame(s.tables, r, Failed);
    assert Tame(s.tables, s'.tables, {r});
    TameKeepsHands(s.tables, s'.tables, {r}, s.own);
    assert forall q | q in s.lock.pass.rest :: q != r && Loadable(s'.tables, q);
    assert forall q :: Owned(s'.own, s'.lock, q) == Owned(s.own, s.lock, q);
  }

  lemma EnqueueKeeps(s: State, r: ReactionId, stage: Stage, step: EnqueueStep)
    requires Inv(s) && AtStage(s, r, stage) && EnqueueEnabled(s, r, stage, step)
    ensures Inv(EnqueueNext(s, r, stage, step))
  {
    match step {
      case Claim => ClaimKeeps(s, r);
      case ClaimError(applied) => ClaimFailedKeeps(s, r, applied);
      case Send => SendKeeps(s, r);
      case Clear => ClearKeeps(s, r, stage.why);
      case MarkFailed(stored) => FailKeeps(s, r, stage.why, stored);
      case _ => StageKeeps(s, r, stage, step);
    }
  }

  // The steps that touch neither the in-flight set nor the tables.
  lemma StageKeeps(s: State, r: ReactionId, stage: Stage, step: EnqueueStep)
    requires Inv(s) && AtStage(s, r, stage) && EnqueueEnabled(s, r, stage, step)
    requires !stage.Claiming? && !stage.Clearing? && !stage.Failing? && !step.Send?
    ensures Inv(EnqueueNext(s, r, stage, step))
  {
    var s' := EnqueueNext(s, r, stage, step);
    MoveKeeps(s, s', r, stage, s'.lock.at.stage);
  }

  lemma TakeKeeps(s: State, w: WorkerId)
    requires Inv(s) && WorkEnabled(s, Take(w))
    ensures Inv(TakeJob(s, w))
  {
    var s' := TakeJob(s, w);
    var r := s.own.jobs[0];
    assert s.own.jobs == [r] + s'.own.jobs;
    assert WorksOn(s'.own.workers, w, r);
    assert forall v, q :: WorksOn(s'.own.workers, v, q) <==> WorksOn(s.own.workers, v, q) || (v == w && q == r);
    assert forall q :: q in s.own.jobs <==> q in s'.own.jobs || q == r;
    assert forall q :: Owned(s.own, s.lock, q) == Owned(s'.own, s'.lock, q);
  }

  // The worker keeps the reaction it has.
  lemma WorkerMoveKeeps(s: State, s': State, w: WorkerId, work: Work)
    requires Inv(s) && w in s.own.workers && s.own.workers[w].BeforeMark()
    requires work.HasId() && work.id == s.own.workers[w].id
    requires s'.own == s.own.(workers := s.own.workers[w := work])
    requires s'.lock == s.lock && s'.poll == s.poll && s'.bus == s.bus && s'.cfg == s.cfg
    requires Unique(s'.tables) && Tame(s.tables, s'.tables, {work.id})
    requires work.BeforeMark() ==> s'.tables == s.tables
    ensures Inv(s')
  {
    var r := work.id;
    assert forall v, q :: WorksOn(s'.own.workers, v, q) == WorksOn(s.own.workers, v, q);
    assert forall q :: Owned(s.own, s.lock, q) == Owned(s'.own, s'.lock, q);
    assert WorksOn(s.own.workers, w, r);
    TameKeepsLock(s.tables, s'.tables, {r}, s.lock);
  }

  lemma ClearJobKeeps(s: State, w: WorkerId)
    requires Inv(s) && WorkEnabled(s, ClearJob(w))
    ensures Inv(WorkNext(s, ClearJob(w)))
  {
    var s' := WorkNext(s, ClearJob(w));
    var r := s.own.workers[w].id;
    assert forall v, q :: WorksOn(s'.own.workers, v, q) <==> WorksOn(s.own.workers, v, q) && v != w;
    assert WorksOn(s.own.workers, w, r);
    assert forall q :: Owned(s'.own, s'.lock, q) <==> Owned(s.own, s.lock, q) && q != r;
  }

  lemma FinishKeeps(s: State, w: WorkerId)
    requires Inv(s) && WorkEnabled(s, Finish(w))
    ensures Inv(WorkNext(s, Finish(w)))
  {
    var s' := WorkNext(s, Finish(w));
    assert forall v, q :: WorksOn(s'.own.workers, v, q) == WorksOn(s.own.workers, v, q);
    assert forall q :: Owned(s.own, s.lock, q) == Owned(s'.own, s'.lock, q);
  }

  lemma WorkKeeps(s: State, step: WorkStep)
    requires Inv(s) && WorkEnabled(s, step)
    ensures Inv(WorkNext(s, step))
  {
    match step {
      case Take(w) => TakeKeeps(s, w);
      case Call(w, ok) => WorkerMoveKeeps(s, WorkNext(s, step), w, Handled(s.own.workers[w].id, ok));
      case Mark(w, stored) =>
        MarkIsTame(s.tables, s.own.workers[w].id, Succeeded);
        MarkIsTame(s.tables, s.own.workers[w].id, Failed);
        WorkerMoveKeeps(s, WorkNext(s, step), w, Marked(s.own.workers[w].id));
      case ClearJob(w) => ClearJobKeeps(s, w);
      case Finish(w) => FinishKeeps(s, w);
    }
  }

  lemma StepKeepsInv(s: State, step: Step)
    requires Inv(s) && Enabled(s, step)
    ensures Inv(Next(s, step))
  {
    match step {
      case Recording(r) => RecordKeeps(s, r);
      case Life(l) => LifeKeeps(s, l);
      case Drain(d) => DrainKeeps(s, d);
      case Working(w) => WorkKeeps(s, w);
    }
  }

  lemma InitInv(s: State)
    requires Init(s)
    ensures Inv(s)
  {
    assert forall r :: !Owned(s.own, s.lock, r);
  }

  lemma {:induction false} RunKeepsInv(s: State, steps: seq<Step>)
    requires Inv(s) && Feasible(s, steps)
    ensures Inv(Exec(s, steps))
    decreases |steps|
  {
    if steps != [] {
      StepKeepsInv(s, steps[0]);
      RunKeepsInv(Next(s, steps[0]), steps[1..]);
    }
  }
}
