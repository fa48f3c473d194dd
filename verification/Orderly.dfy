/** What a reset during an open claim breaks, and exactly when nothing is broken.
    Start puts every running row back to pending. A Drain call made before or during
    Start may hold a claim at that moment: a run is orderly when none does, and harmless
    when none does that can still reach the workers. */
module Orderly {
  import opened ReactionTables
  import opened ReactionProtocol
  import opened ReactionRuns
  import opened Ownership

  // What workers have or will get stands on a running row until its mark.
  ghost predicate HandsRun(t: Tables, own: Own, lock: Lock) {
    && (forall r | r in own.jobs :: t.HasStatus(r, Running))
    && (forall w | w in own.workers && own.workers[w].BeforeMark() :: t.HasStatus(own.workers[w].id, Running))
    && (OnTheWay(lock) ==> t.HasStatus(lock.at.id, Running))
  }

  // Every claim that is not marked yet stands on a running row.
  ghost predicate ClaimsRun(t: Tables, own: Own, lock: Lock) {
    HandsRun(t, own, lock) && (HoldsClaim(lock) ==> t.HasStatus(lock.at.id, Running))
  }

  // The handlers called since the last reset.
  function CalledSince(log: seq<Entry>): set<ReactionId> {
    if log == [] then {}
    else match log[|log| - 1]
      case ResetDone => {}
      case Called(r) => CalledSince(log[..|log| - 1]) + {r}
  }

  // Between two calls for one reaction there is a reset.
  ghost predicate OncePerStart(log: seq<Entry>) {
    forall i, j | 0 <= i < j < |log| && log[i].Called? && log[j] == log[i] ::
      exists k :: i < k < j && log[k] == ResetDone
  }

  predicate NotPending(t: Tables, r: ReactionId) {
    r in t.reactions && !t.reactions[r].status.Pending?
  }

  ghost predicate CallsTidy(t: Tables, own: Own, lock: Lock, called: set<ReactionId>) {
    && (forall r | r in called :: NotPending(t, r))
    && (forall r | r in own.jobs :: r !in called)
    && (forall w | w in own.workers && own.workers[w].Taken? :: own.workers[w].id !in called)
    && (OnTheWay(lock) ==> lock.at.id !in called)
    && (forall w | w in own.workers && own.workers[w].HasId() :: NotPending(t, own.workers[w].id))
  }

  predicate BeforeClaim(stage: Stage) {
    stage.Counting? || stage.Loading? || stage.Looking? || stage.Claiming?
  }

  ghost predicate AheadPending(t: Tables, lock: Lock) {
    lock.Held? ==>
      && (forall r | r in lock.pass.rest :: t.HasStatus(r, Pending))
      && (lock.at.Enqueuing? && BeforeClaim(lock.at.stage) ==> t.HasStatus(lock.at.id, Pending))
  }

  ghost predicate Tidy(s: State) {
    && HandsRun(s.tables, s.own, s.lock)
    && CallsTidy(s.tables, s.own, s.lock, CalledSince(s.notes.log))
    && AheadPending(s.tables, s.lock)
    && OncePerStart(s.notes.log)
    && (s.bus.starting || s.bus.started ==> s.notes.log != [])
    && (s.notes.log != [] ==> s.notes.log[0] == ResetDone)
  }

  // The rows are reset under a claim.
  predicate Overlaps(s: State, step: Step) {
    step.Life? && step.l.Resets() && HoldsClaim(s.lock)
  }

  // The rows are reset under a claim that can still reach the workers.
  predicate Harms(s: State, step: Step) {
    step.Life? && step.l.Resets() && OnTheWay(s.lock)
  }

  /* Tables that change only at reactions nobody else has */

  ghost predicate SameOutside(t: Tables, t': Tables, touched: set<ReactionId>) {
    forall r | r in t.reactions && r !in touched :: r in t'.reactions && t'.reactions[r].status == t.reactions[r].status
  }

  // Nothing changes hands.
  lemma StillTidy(s: State, s': State)
    requires Tidy(s) && s'.own == s.own && SameSpot(s.lock, s'.lock)
    requires s'.bus.starting || s'.bus.started ==> s.bus.starting || s.bus.started
    requires SameOutside(s.tables, s'.tables, {}) && s'.notes.log == s.notes.log
    ensures Tidy(s')
  {
  }

  lemma RecordTidy(s: State, step: RecordStep)
    requires Inv(s) && Tidy(s) && RecordEnabled(s, step)
    ensures Tidy(RecordNext(s, step))
  {
    match step {
      case Store(task, e, ty, rows) =>
        InsertAllKeepsRows(s.tables.(events := s.tables.events[e := ty]), e, rows);
        StillTidy(s, StoreRecord(s, task, e, ty, rows));
      case StoreLost(task, e, ty, rows) =>
        InsertAllKeepsRows(s.tables.(events := s.tables.events[e := ty]), e, rows);
        StillTidy(s, RecordNext(s, step));
      case _ => StillTidy(s, RecordNext(s, step));
    }
  }

  lemma {:induction false} ResetExtends(log: seq<Entry>)
    requires OncePerStart(log)
    ensures OncePerStart(log + [ResetDone]) && CalledSince(log + [ResetDone]) == {}
  {
    var log' := log + [ResetDone];
    forall i, j | 0 <= i < j < |log'| && log'[i].Called? && log'[j] == log'[i]
      ensures exists k :: i < k < j && log'[k] == ResetDone
    {
      assert j < |log| && log[j] == log[i];
      var k :| i < k < j && log[k] == ResetDone;
      assert log'[k] == ResetDone;
    }
  }

  lemma ResetTidy(s: State)
    requires Inv(s) && Tidy(s) && CanReset(s) && !OnTheWay(s.lock)
    ensures Tidy(ResetTables(s)) && Tidy(Reset(s))
  {
    ResetExtends(s.notes.log);
  }

  // Taking or leaving the lock outside any enqueue.
  lemma RelockTidy(s: State, s': State)
    requires Tidy(s) && s'.own == s.own && s'.tables == s.tables && s'.notes.log == s.notes.log && s'.bus == s.bus
    requires s'.lock.Held? ==> !s'.lock.at.Enqueuing?
    requires s'.lock.Held? ==> forall r | r in s'.lock.pass.rest :: s.tables.HasStatus(r, Pending)
    ensures Tidy(s')
  {
  }

  lemma LifeTidy(s: State, step: LifeStep)
    requires Inv(s) && Tidy(s) && LifeEnabled(s, step)
    requires step.Resets() ==> !OnTheWay(s.lock)
    ensures Tidy(LifeNext(s, step))
  {
    match step {
      case StartReset => ResetTidy(s);
      case ResetLost => ResetTidy(s);
      case Crash =>
      case PollerAcquire => RelockTidy(s, LifeNext(s, step));
      case CallerAcquire => RelockTidy(s, LifeNext(s, step));
      case _ => StillTidy(s, LifeNext(s, step));
    }
  }

  lemma DrainTidy(s: State, step: DrainStep)
    requires Inv(s) && Tidy(s) && DrainEnabled(s, step)
    ensures Tidy(DrainNext(s, step))
  {
    match step {
      case List(ids) => RelockTidy(s, Listed(s, ids));
      case ListError => RelockTidy(s, Unlock(s));
      case Stop => RelockTidy(s, Unlock(s));
      case End => RelockTidy(s, EndPass(s));
      case Pick => PickTidy(s);
      case Enqueue(e) => EnqueueTidy(s, s.lock.at.id, s.lock.at.stage, e);
    }
  }

  lemma PickTidy(s: State)
    requires Tidy(s) && DrainEnabled(s, Pick)
    ensures Tidy(PickNext(s))
  {
  }

  // enqueue changes at most the row of the reaction it has.
  lemma MoveTidy(s: State, s': State, r: ReactionId)
    requires Inv(s) && Tidy(s) && s.lock.Held? && s.lock.at.Enqueuing? && s.lock.at.id == r
    requires s'.own.jobs == s.own.jobs && s'.own.workers == s.own.workers
      && s'.notes.log == s.notes.log && s'.bus == s.bus
    requires SameOutside(s.tables, s'.tables, {r})
    requires NotPending(s.tables, r) ==> NotPending(s'.tables, r)
    requires s'.lock.Held? && s'.lock.pass.rest == s.lock.pass.rest
    requires s'.lock.at.Enqueuing? ==>
      s'.lock.at.id == r && (BeforeClaim(s'.lock.at.stage) ==> s'.tables.HasStatus(r, Pending))
    requires OnTheWay(s'.lock) ==> s'.tables.HasStatus(r, Running) && r !in CalledSince(s.notes.log)
    ensures Tidy(s')
  {
  }

  lemma SendTidy(s: State, r: ReactionId)
    requires Inv(s) && Tidy(s) && AtStage(s, r, Parked(true))
    ensures Tidy(SendJob(s, r))
  {
    assert forall q :: q in SendJob(s, r).own.jobs <==> q in s.own.jobs || q == r;
  }

  lemma ClaimTidy(s: State, r: ReactionId, applied: bool)
    requires Inv(s) && Tidy(s) && AtStage(s, r, Claiming)
    ensures Tidy(ClaimNow(s, r)) && Tidy(ClaimFailed(s, r, applied))
  {
    MoveTidy(s, ClaimNow(s, r), r);
    MoveTidy(s, ClaimFailed(s, r, applied), r);
  }

  lemma EnqueueTidy(s: State, r: ReactionId, stage: Stage, step: EnqueueStep)
    requires Inv(s) && Tidy(s) && AtStage(s, r, stage) && EnqueueEnabled(s, r, stage, step)
    ensures Tidy(EnqueueNext(s, r, stage, step))
  {
    match step {
      case Send => SendTidy(s, r);
      case Claim => ClaimTidy(s, r, true);
      case ClaimError(applied) => ClaimTidy(s, r, applied);
      case _ => if BeforeClaim(stage) { EarlyTidy(s, r, stage, step); } else { LateTidy(s, r, stage, step); }
    }
  }

  lemma EarlyTidy(s: State, r: ReactionId, stage: Stage, step: EnqueueStep)
    requires Inv(s) && Tidy(s) && AtStage(s, r, stage) && EnqueueEnabled(s, r, stage, step)
    requires BeforeClaim(stage) && !stage.Claiming?
    ensures Tidy(EnqueueNext(s, r, stage, step))
  {
    MoveTidy(s, EnqueueNext(s, r, stage, step), r);
  }

  lemma LateTidy(s: State, r: ReactionId, stage: Stage, step: EnqueueStep)
    requires Inv(s) && Tidy(s) && AtStage(s, r, stage) && EnqueueEnabled(s, r, stage, step)
    requires !BeforeClaim(stage) && !step.Send?
    ensures Tidy(EnqueueNext(s, r, stage, step))
  {
    MoveTidy(s, EnqueueNext(s, r, stage, step), r);
  }

  lemma {:induction false} CallExtends(log: seq<Entry>, r: ReactionId)
    requires OncePerStart(log) && r !in CalledSince(log)
    ensures OncePerStart(log + [Called(r)]) && CalledSince(log + [Called(r)]) == CalledSince(log) + {r}
  {
    var log' := log + [Called(r)];
    assert log'[..|log|] == log;
    forall i, j | 0 <= i < j < |log'| && log'[i].Called? && log'[j] == log'[i]
      ensures exists k :: i < k < j && log'[k] == ResetDone
    {
      if j < |log| {
        var k :| i < k < j && log[k] == ResetDone;
        assert log'[k] == ResetDone;
      } else {
        var k := ResetAfter(log, i, r);
        assert log'[k] == ResetDone;
      }
    }
  }

  // A call that is not among the calls since the last reset was followed by one.
  lemma {:induction false} ResetAfter(log: seq<Entry>, i: nat, r: ReactionId) returns (k: nat)
    requires i < |log| && log[i] == Called(r) && r !in CalledSince(log)
    ensures i < k < |log| && log[k] == ResetDone
    decreases |log|
  {
    if log[|log| - 1] == ResetDone {
      k := |log| - 1;
    } else {
      k := ResetAfter(log[..|log| - 1], i, r);
    }
  }

  lemma CallInHand(t: Tables, own: Own, lock: Lock, called: set<ReactionId>, w: WorkerId, ok: bool)
    requires Exclusive(own.jobs, own.workers, lock) && HandsRun(t, own, lock) && CallsTidy(t, own, lock, called)
    requires w in own.workers && own.workers[w].Taken?
    ensures own.workers[w].id !in called
    ensures var own' := own.(workers := own.workers[w := Handled(own.workers[w].id, ok)]);
            HandsRun(t, own', lock) && CallsTidy(t, own', lock, called + {own.workers[w].id})
  {
  }

  lemma CallTidy(s: State, w: WorkerId, ok: bool)
    requires Inv(s) && Tidy(s) && WorkEnabled(s, Call(w, ok))
    ensures Tidy(WorkNext(s, Call(w, ok)))
  {
    CallInHand(s.tables, s.own, s.lock, CalledSince(s.notes.log), w, ok);
    CallExtends(s.notes.log, s.own.workers[w].id);
  }

  lemma MarkTidy(s: State, w: WorkerId, stored: bool)
    requires Inv(s) && Tidy(s) && WorkEnabled(s, Mark(w, stored))
    ensures Tidy(WorkNext(s, Mark(w, stored)))
  {
  }

  lemma WorkTidy(s: State, step: WorkStep)
    requires Inv(s) && Tidy(s) && WorkEnabled(s, step)
    ensures Tidy(WorkNext(s, step))
  {
    match step {
      case Take(w) => assert forall q :: q in s.own.jobs <==> q in s.own.jobs[1..] || q == s.own.jobs[0];
      case Call(w, ok) => CallTidy(s, w, ok);
      case Mark(w, stored) => MarkTidy(s, w, stored);
      case ClearJob(_) =>
      case Finish(_) =>
    }
  }

  lemma StepKeepsTidy(s: State, step: Step)
    requires Inv(s) && Tidy(s) && Enabled(s, step) && !Harms(s, step)
    ensures Tidy(Next(s, step))
  {
    match step {
      case Recording(r) => RecordTidy(s, r);
      case Life(l) => LifeTidy(s, l);
      case Drain(d) => DrainTidy(s, d);
      case Working(w) => WorkTidy(s, w);
    }
  }

  /* The claims of the lock holder */

  // Nobody but its owner touches the row of a claim, except a reset.
  lemma StepKeepsClaim(s: State, step: Step)
    requires Inv(s) && Tidy(s) && Enabled(s, step) && !Overlaps(s, step)
    requires ClaimsRun(s.tables, s.own, s.lock) && HoldsClaim(Next(s, step).lock)
    ensures Next(s, step).tables.HasStatus(Next(s, step).lock.at.id, Running)
  {
    match step {
      case Recording(r) => RecordKeepsClaim(s, r);
      case Life(_) =>
      case Drain(d) => DrainKeepsClaim(s, d);
      case Working(_) =>
    }
  }

  lemma RecordKeepsClaim(s: State, step: RecordStep)
    requires RecordEnabled(s, step) && HoldsClaim(s.lock) && s.tables.HasStatus(s.lock.at.id, Running)
    ensures RecordNext(s, step).tables.HasStatus(s.lock.at.id, Running)
  {
    if step.Stores() {
      InsertAllKeepsRows(s.tables.(events := s.tables.events[step.e := step.ty]), step.e, step.rows);
    }
  }

  lemma DrainKeepsClaim(s: State, step: DrainStep)
    requires Tidy(s) && DrainEnabled(s, step)
    requires ClaimsRun(s.tables, s.own, s.lock) && HoldsClaim(DrainNext(s, step).lock)
    ensures DrainNext(s, step).tables.HasStatus(DrainNext(s, step).lock.at.id, Running)
  {
  }

  /* Over whole runs */

  // No reset of the rows while a Drain call holds a claim.
  ghost predicate OrderlyRun(s: State, steps: seq<Step>)
    requires Feasible(s, steps)
    decreases |steps|
  {
    steps == [] || (!Overlaps(s, steps[0]) && OrderlyRun(Next(s, steps[0]), steps[1..]))
  }

  // No reset of the rows while a claim of a Drain call can still reach the workers.
  ghost predicate HarmlessRun(s: State, steps: seq<Step>)
    requires Feasible(s, steps)
    decreases |steps|
  {
    steps == [] || (!Harms(s, steps[0]) && HarmlessRun(Next(s, steps[0]), steps[1..]))
  }

  ghost predicate ClaimsRunThroughout(s: State, steps: seq<Step>)
    requires Feasible(s, steps)
    decreases |steps|
  {
    ClaimsRun(s.tables, s.own, s.lock) && (steps == [] || ClaimsRunThroughout(Next(s, steps[0]), steps[1..]))
  }

  lemma OverlapBreaksClaim(s: State, step: Step)
    requires Enabled(s, step) && Overlaps(s, step) && ClaimsRun(s.tables, s.own, s.lock)
    ensures !ClaimsRun(Next(s, step).tables, Next(s, step).own, Next(s, step).lock)
  {
    assert Next(s, step).tables.HasStatus(s.lock.at.id, Pending);
    assert HoldsClaim(Next(s, step).lock);
  }

  lemma {:induction false} ClaimsRunIffOrderly(s: State, steps: seq<Step>)
    requires Inv(s) && Tidy(s) && ClaimsRun(s.tables, s.own, s.lock) && Feasible(s, steps)
    ensures ClaimsRunThroughout(s, steps) <==> OrderlyRun(s, steps)
    decreases |steps|
  {
    if steps != [] {
      if Overlaps(s, steps[0]) {
        OverlapBreaksClaim(s, steps[0]);
      } else {
        OrderlyStep(s, steps[0]);
        ClaimsRunIffOrderly(Next(s, steps[0]), steps[1..]);
      }
    }
  }

  lemma OrderlyStep(s: State, step: Step)
    requires Inv(s) && Tidy(s) && ClaimsRun(s.tables, s.own, s.lock) && Enabled(s, step) && !Overlaps(s, step)
    ensures var n := Next(s, step); Inv(n) && Tidy(n) && ClaimsRun(n.tables, n.own, n.lock)
  {
    StepKeepsInv(s, step);
    StepKeepsTidy(s, step);
    if HoldsClaim(Next(s, step).lock) {
      StepKeepsClaim(s, step);
    }
  }

  lemma {:induction false} ClaimedRowsRunExactlyWhenOrderly(s: State, steps: seq<Step>)
    requires Init(s) && Feasible(s, steps)
    ensures ClaimsRunThroughout(s, steps) <==> OrderlyRun(s, steps)
  {
    InitInv(s);
    ClaimsRunIffOrderly(s, steps);
  }

  lemma {:induction false} HarmlessRunTidy(s: State, steps: seq<Step>)
    requires Inv(s) && Tidy(s) && Feasible(s, steps) && HarmlessRun(s, steps)
    ensures Inv(Exec(s, steps)) && Tidy(Exec(s, steps))
    decreases |steps|
  {
    if steps != [] {
      StepKeepsInv(s, steps[0]);
      StepKeepsTidy(s, steps[0]);
      HarmlessRunTidy(Next(s, steps[0]), steps[1..]);
    }
  }

  // Harmless since the process that is alive at the end was started.
  ghost predicate HarmlessSinceCrash(s: State, steps: seq<Step>)
    requires Init(s) && Feasible(s, steps)
  {
    CurrentRunIsARun(s, steps);
    var (b, rest) := CurrentRun(s, steps);
    HarmlessRun(b, rest)
  }

  lemma {:induction false} TidySinceCrash(s: State, steps: seq<Step>)
    requires Init(s) && Feasible(s, steps) && HarmlessSinceCrash(s, steps)
    ensures Inv(Exec(s, steps)) && Tidy(Exec(s, steps))
  {
    CurrentRunIsARun(s, steps);
    var (b, rest) := CurrentRun(s, steps);
    InitInv(b);
    HarmlessRunTidy(b, rest);
  }

  // The log is that of the current process. It begins with a reset, so nothing an earlier process
  // called is called again without one either.
  lemma {:induction false} CalledAtMostOncePerStart(s: State, steps: seq<Step>)
    requires Init(s) && Feasible(s, steps) && HarmlessSinceCrash(s, steps)
    ensures OncePerStart(Exec(s, steps).notes.log)
    ensures Exec(s, steps).notes.log != [] ==> Exec(s, steps).notes.log[0] == ResetDone
  {
    TidySinceCrash(s, steps);
  }
}
