/** drainPending when nothing gets in its way: no other goroutine acts, no statement fails, every payload
    decodes. Then it does its whole job. */
module DrainAlone {
  import opened Counting
  import opened ReactionTables
  import opened ReactionProtocol
  import opened Ownership
  import opened Orderly
  import opened DrainPass

  // A step of drainPending, and not one of its failures.
  predicate Smooth(step: Step) {
    step.Drain? &&
    match step.d
    case ListError => false
    case Stop => false
    case Enqueue(LoadError) => false
    case Enqueue(ClaimError(_)) => false
    case Enqueue(Decode(decoded)) => decoded
    case Enqueue(SendCancelled) => false
    case Enqueue(MarkFailed(stored)) => stored
    case _ => true
  }

  ghost predicate AllSmooth(steps: seq<Step>) {
    forall i | 0 <= i < |steps| :: Smooth(steps[i])
  }

  // Every reaction refers to an event that is stored: a foreign key.
  ghost predicate Referenced(t: Tables) {
    forall r | r in t.reactions :: t.reactions[r].event in t.events
  }

  // Pending, with a handler for the type of its event.
  predicate Ready(s: State, r: ReactionId) {
    && r in s.tables.reactions && s.tables.reactions[r].status == Pending
    && s.tables.reactions[r].event in s.tables.events
    && (s.tables.events[s.tables.reactions[r].event], s.tables.reactions[r].handler) in s.bus.handlers
  }

  // From a to b: every ready row is running, and the jobs for them, each once, are queued behind the old ones.
  // No other row has changed.
  ghost predicate Drained(a: State, b: State) {
    && b.tables.events == a.tables.events && b.tables.reactions.Keys == a.tables.reactions.Keys
    && (forall r | r in a.tables.reactions :: b.tables.reactions[r] ==
          if Ready(a, r) then a.tables.reactions[r].(status := Running) else a.tables.reactions[r])
    && a.own.jobs <= b.own.jobs
    && (forall r :: r in b.own.jobs[|a.own.jobs|..] <==> Ready(a, r))
    && (forall i, j | 0 <= i < j < |b.own.jobs| :: b.own.jobs[i] != b.own.jobs[j])
    && b.own.workers == a.own.workers && b.bus == a.bus
  }

  /* On the way there */

  predicate CarriesClaim(lock: Lock, r: ReactionId) {
    && EnqueuerHas(lock, r)
    && (lock.at.stage.Decoding? || lock.at.stage.Sending? || lock.at.stage.Parked?)
  }

  // A row is as it was, or it was ready and is running, and its job is queued or about to be.
  ghost predicate RowOnTheWay(a: State, s: State, r: ReactionId)
    requires r in a.tables.reactions && r in s.tables.reactions
  {
    || s.tables.reactions[r] == a.tables.reactions[r]
    || (&& Ready(a, r) && s.tables.reactions[r] == a.tables.reactions[r].(status := Running)
        && (r in s.own.jobs || CarriesClaim(s.lock, r)))
  }

  ghost predicate RowsOnTheWay(a: State, s: State) {
    && s.tables.events == a.tables.events && s.tables.reactions.Keys == a.tables.reactions.Keys
    && (forall r | r in a.tables.reactions :: RowOnTheWay(a, s, r))
  }

  ghost predicate JobsOnTheWay(a: State, s: State) {
    && a.own.jobs <= s.own.jobs
    && (forall i | |a.own.jobs| <= i < |s.own.jobs| :: Ready(a, s.own.jobs[i]))
    && (forall r | CarriesClaim(s.lock, r) :: Ready(a, r))
  }

  // Nothing has gone wrong in the pass.
  predicate Untroubled(lock: Lock) {
    lock.Held? ==>
      && lock.pass.clean && lock.pass.anew == {} && lock.pass.heard == {}
      && (lock.at.Enqueuing? ==> match lock.at.stage
          case Undoing(why) => why.Release?
          case Clearing(why) => why.Release?
          case Failing(why) => false
          case _ => true)
  }

  ghost predicate Going(a: State, s: State) {
    && s.own.workers == a.own.workers && s.bus == a.bus && s.cfg == a.cfg
    && RowsOnTheWay(a, s) && JobsOnTheWay(a, s) && Untroubled(s.lock)
  }

  ghost predicate Grounded(s: State) {
    Inv(s) && Tidy(s) && PassInv(s) && Shrinks(s)
  }

  lemma StepKeepsGrounded(s: State, step: Step)
    requires Grounded(s) && Enabled(s, step) && Smooth(step)
    ensures Grounded(Next(s, step))
  {
    StepKeepsInv(s, step);
    StepKeepsTidy(s, step);
    StepKeepsPass(s, step);
    StepShrinks(s, step);
  }

  // What a claim finds is ready: its handler was looked up.
  ghost predicate LookedUp(s: State) {
    s.lock.Held? && s.lock.at.Enqueuing? && s.lock.at.stage.Claiming? ==> HasHandler(s, s.lock.at.id)
  }

  lemma EnqueueGoes(a: State, s: State, r: ReactionId, stage: Stage, step: EnqueueStep)
    requires Referenced(a.tables) && Going(a, s) && LookedUp(s) && Grounded(s)
    requires AtStage(s, r, stage) && EnqueueEnabled(s, r, stage, step) && Smooth(Drain(Enqueue(step)))
    ensures Going(a, EnqueueNext(s, r, stage, step)) && LookedUp(EnqueueNext(s, r, stage, step))
  {
    var n := EnqueueNext(s, r, stage, step);
    assert r in s.tables.reactions;
    match step {
      case Claim => ClaimGoes(a, s, r);
      case Send =>
        assert CarriesClaim(s.lock, r);
        assert forall q | q in s.own.jobs :: q in n.own.jobs;
        assert n.own.jobs[|s.own.jobs|] == r;
      case _ => SameRows(a, s, n);
    }
  }

  lemma SameRows(a: State, s: State, n: State)
    requires RowsOnTheWay(a, s) && JobsOnTheWay(a, s)
    requires n.tables == s.tables && n.own.jobs == s.own.jobs
    requires forall r :: CarriesClaim(n.lock, r) <==> CarriesClaim(s.lock, r)
    ensures RowsOnTheWay(a, n) && JobsOnTheWay(a, n)
  {
    forall r | r in a.tables.reactions ensures RowOnTheWay(a, n, r) {
      assert RowOnTheWay(a, s, r);
    }
  }

  lemma ClaimGoes(a: State, s: State, r: ReactionId)
    requires Going(a, s) && LookedUp(s) && AtStage(s, r, Claiming) && r in s.tables.reactions
    ensures Going(a, ClaimNow(s, r))
  {
    var n := ClaimNow(s, r);
    assert RowOnTheWay(a, s, r);
    assert forall q :: !CarriesClaim(s.lock, q);
    if s.tables.HasStatus(r, Pending) {
      assert Ready(a, r);
      assert CarriesClaim(n.lock, r);
      forall q | q in a.tables.reactions ensures RowOnTheWay(a, n, q) {
        assert RowOnTheWay(a, s, q);
      }
    } else {
      SameRows(a, s, n);
    }
  }

  // When the lock is free, nothing pending has a handler.
  ghost predicate Complete(s: State) {
    s.lock.Free? ==> WithoutHandler(s) == PendingIds(s.tables)
  }

  lemma FewerWithout(a: State, s: State)
    requires Going(a, s) && |WithoutHandler(a)| < a.cfg.pollLimit
    ensures |WithoutHandler(s)| < s.cfg.pollLimit
  {
    forall r | r in WithoutHandler(s) ensures r in WithoutHandler(a) {
      assert RowOnTheWay(a, s, r);
    }
    SubsetCount(WithoutHandler(s), WithoutHandler(a));
  }

  lemma DrainGoes(a: State, s: State, step: DrainStep)
    requires Referenced(a.tables) && Going(a, s) && LookedUp(s) && Grounded(s)
    requires |WithoutHandler(a)| < a.cfg.pollLimit
    requires DrainEnabled(s, step) && Smooth(Drain(step))
    ensures var n := DrainNext(s, step); Going(a, n) && LookedUp(n) && Complete(n)
  {
    match step {
      case Enqueue(e) => EnqueueGoes(a, s, s.lock.at.id, s.lock.at.stage, e);
      case List(ids) =>
        SameRows(a, s, DrainNext(s, step));
        if ids == [] {
          EmptyListIsComplete(s);
        }
      case Pick => SameRows(a, s, DrainNext(s, step));
      case End =>
        SameRows(a, s, DrainNext(s, step));
        FewerWithout(a, s);
        if DrainNext(s, step).lock.Free? {
          CleanEnd(s);
        }
    }
  }

  lemma {:induction false} SmoothRun(a: State, s: State, steps: seq<Step>)
    requires Referenced(a.tables) && |WithoutHandler(a)| < a.cfg.pollLimit
    requires Going(a, s) && LookedUp(s) && Grounded(s) && Complete(s)
    requires Feasible(s, steps) && AllSmooth(steps)
    ensures var n := Exec(s, steps); Going(a, n) && Grounded(n) && Complete(n)
    decreases |steps|
  {
    if steps != [] {
      assert Smooth(steps[0]);
      assert forall i | 0 <= i < |steps[1..]| :: steps[1..][i] == steps[i + 1];
      DrainGoes(a, s, steps[0].d);
      StepKeepsGrounded(s, steps[0]);
      SmoothRun(a, Next(s, steps[0]), steps[1..]);
    }
  }

  lemma CompleteIsDrained(a: State, s: State)
    requires Tidy(a) && Going(a, s) && Inv(s) && Complete(s) && s.lock.Free?
    ensures Drained(a, s)
  {
    forall r | r in a.tables.reactions
      ensures s.tables.reactions[r] == if Ready(a, r) then a.tables.reactions[r].(status := Running)
                                       else a.tables.reactions[r]
      ensures Ready(a, r) ==> r in s.own.jobs
    {
      assert RowOnTheWay(a, s, r);
      assert Ready(a, r) && s.tables.reactions[r] == a.tables.reactions[r] ==> r in PendingIds(s.tables);
      assert HasHandler(s, r) ==> r !in WithoutHandler(s);
    }
    var old_, new_ := a.own.jobs, s.own.jobs[|a.own.jobs|..];
    assert s.own.jobs == old_ + new_;
    forall r ensures r in new_ <==> Ready(a, r) {
      if Ready(a, r) {
        assert r in s.own.jobs && r !in old_;
      }
      if r in new_ {
        var i :| 0 <= i < |new_| && new_[i] == r;
        assert s.own.jobs[|old_| + i] == r;
      }
    }
  }

  // The whole critical section of drainPending on a process in which nothing has overtaken a claim: if fewer
  // reactions than a page lack a handler, it claims and queues every one that has a handler, and nothing else.
  lemma {:induction false} DrainsEverything(s: State, steps: seq<Step>)
    requires Inv(s) && Tidy(s) && Referenced(s.tables) && |WithoutHandler(s)| < s.cfg.pollLimit
    requires s.lock.Held? && s.lock.at.Listing? && s.lock.pass == NO_PASS
    requires Feasible(s, steps) && AllSmooth(steps) && Exec(s, steps).lock.Free?
    ensures Drained(s, Exec(s, steps))
  {
    assert Going(s, s) by {
      assert forall r | r in s.tables.reactions :: RowOnTheWay(s, s, r);
    }
    SmoothRun(s, s, steps);
    CompleteIsDrained(s, Exec(s, steps));
  }
}
