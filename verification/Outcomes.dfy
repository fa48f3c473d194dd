/** Consequences of single ownership over every run: terminal rows stay as they are,
    handlers only see unfinished reactions, and the pending count tells when every
    claim of this process is settled. */
module Outcomes {
  import opened ReactionTables
  import opened ReactionProtocol
  import opened ReactionRuns
  import opened Ownership

  /* One owner */

  function Bearers(workers: map<WorkerId, Work>, r: ReactionId): set<WorkerId> {
    set w | w in workers && WorksOn(workers, w, r)
  }

  // How many goroutines or queue slots have the reaction.
  function OwnerCount(s: State, r: ReactionId): nat {
    multiset(s.own.jobs)[r] + |Bearers(s.own.workers, r)| +
    if EnqueuerHas(s.lock, r) && !s.lock.at.stage.Failing? then 1 else 0
  }

  lemma {:induction false} NoRepeats(jobs: seq<ReactionId>, r: ReactionId)
    requires forall i, j | 0 <= i < j < |jobs| :: jobs[i] != jobs[j]
    ensures multiset(jobs)[r] == if r in jobs then 1 else 0
    decreases |jobs|
  {
    if jobs != [] {
      assert jobs == [jobs[0]] + jobs[1..];
      NoRepeats(jobs[1..], r);
    }
  }

  lemma OneOwnerInFlight(s: State, r: ReactionId)
    requires Inv(s)
    ensures OwnerCount(s, r) == if r in s.own.inFlight then 1 else 0
  {
    NoRepeats(s.own.jobs, r);
    var b := Bearers(s.own.workers, r);
    assert r in s.own.inFlight <==> Owned(s.own, s.lock, r);
    if w :| WorksOn(s.own.workers, w, r) {
      assert w in b;
      assert b == {w};
    } else {
      assert b == {};
    }
  }

  lemma {:induction false} SingleOwnership(s: State, steps: seq<Step>, r: ReactionId)
    requires Init(s) && Feasible(s, steps)
    ensures OwnerCount(Exec(s, steps), r) == if r in Exec(s, steps).own.inFlight then 1 else 0
  {
    InitInv(s);
    RunKeepsInv(s, steps);
    OneOwnerInFlight(Exec(s, steps), r);
  }

  /* Terminal is final */

  ghost predicate TerminalKept(t: Tables, t': Tables) {
    forall r | t.IsTerminal(r) :: r in t'.reactions && t'.reactions[r] == t.reactions[r]
  }

  lemma EnqueueKeepsTerminal(s: State, r: ReactionId, stage: Stage, step: EnqueueStep)
    requires Inv(s) && AtStage(s, r, stage) && EnqueueEnabled(s, r, stage, step)
    ensures TerminalKept(s.tables, EnqueueNext(s, r, stage, step).tables)
  {
  }

  lemma StepKeepsTerminal(s: State, step: Step)
    requires Inv(s) && Enabled(s, step)
    ensures TerminalKept(s.tables, Next(s, step).tables)
  {
    match step {
      case Recording(r) =>
        if r.Stores() {
          InsertAllKeepsRows(s.tables.(events := s.tables.events[r.e := r.ty]), r.e, r.rows);
        }
      case Life(_) =>
      case Drain(Enqueue(e)) => EnqueueKeepsTerminal(s, s.lock.at.id, s.lock.at.stage, e);
      case Drain(_) =>
      case Working(_) =>
    }
  }

  lemma {:induction false} TerminalIsFinal(s: State, steps: seq<Step>)
    requires Inv(s) && Feasible(s, steps)
    ensures TerminalKept(s.tables, Exec(s, steps).tables)
    decreases |steps|
  {
    if steps != [] {
      StepKeepsInv(s, steps[0]);
      StepKeepsTerminal(s, steps[0]);
      TerminalIsFinal(Next(s, steps[0]), steps[1..]);
    }
  }

  // The handler of r is registered for the type of its event.
  predicate Registered(s: State, r: ReactionId) {
    && r in s.tables.reactions && s.tables.reactions[r].event in s.tables.events
    && (s.tables.events[s.tables.reactions[r].event], s.tables.reactions[r].handler) in s.bus.handlers
  }

  // enqueue has looked the handler up, so has whoever got the job from it.
  ghost predicate HandsRegistered(s: State) {
    && (forall r | r in s.own.jobs :: Registered(s, r))
    && (forall w | w in s.own.workers && s.own.workers[w].BeforeMark() :: Registered(s, s.own.workers[w].id))
    && (s.lock.Held? && s.lock.at.Enqueuing? && (s.lock.at.stage.Claiming? || LockClaims(s.lock, s.lock.at.id)) ==>
          Registered(s, s.lock.at.id))
  }

  lemma StepKeepsRegistered(s: State, step: Step)
    requires HandsRegistered(s) && Enabled(s, step)
    ensures HandsRegistered(Next(s, step))
  {
    StepExtends(s, step);
    match step {
      case Recording(r) => RecordKeepsRegistered(s, r);
      case Life(l) => LifeKeepsRegistered(s, l);
      case Drain(d) => DrainKeepsRegistered(s, d);
      case Working(w) => WorkKeepsRegistered(s, w);
    }
  }

  lemma RecordKeepsRegistered(s: State, step: RecordStep)
    requires HandsRegistered(s) && RecordEnabled(s, step) && Extends(s.tables, RecordNext(s, step).tables)
    ensures HandsRegistered(RecordNext(s, step))
  {
  }

  lemma LifeKeepsRegistered(s: State, step: LifeStep)
    requires HandsRegistered(s) && LifeEnabled(s, step) && Extends(s.tables, LifeNext(s, step).tables)
    ensures HandsRegistered(LifeNext(s, step))
  {
  }

  lemma WorkKeepsRegistered(s: State, step: WorkStep)
    requires HandsRegistered(s) && WorkEnabled(s, step) && Extends(s.tables, WorkNext(s, step).tables)
    ensures HandsRegistered(WorkNext(s, step))
  {
    if step.Take? {
      assert s.own.jobs[0] in s.own.jobs;
      assert forall r | r in s.own.jobs[1..] :: r in s.own.jobs;
    }
  }

  lemma DrainKeepsRegistered(s: State, step: DrainStep)
    requires HandsRegistered(s) && DrainEnabled(s, step) && Extends(s.tables, DrainNext(s, step).tables)
    ensures HandsRegistered(DrainNext(s, step))
  {
  }

  lemma {:induction false} RunKeepsRegistered(s: State, steps: seq<Step>)
    requires HandsRegistered(s) && Feasible(s, steps)
    ensures HandsRegistered(Exec(s, steps))
    decreases |steps|
  {
    if steps != [] {
      StepKeepsRegistered(s, steps[0]);
      RunKeepsRegistered(Next(s, steps[0]), steps[1..]);
    }
  }

  // What a worker hands to a handler is a stored, unfinished reaction whose event exists, and the handler is
  // registered for the type of that event.
  lemma {:induction false} CallsAreUnfinished(s: State, steps: seq<Step>, w: WorkerId, ok: bool)
    requires Init(s) && Feasible(s, steps) && WorkEnabled(Exec(s, steps), Call(w, ok))
    ensures var f := Exec(s, steps);
      Runnable(f.tables, f.own.workers[w].id) && Registered(f, f.own.workers[w].id)
  {
    InitInv(s);
    RunKeepsInv(s, steps);
    RunKeepsRegistered(s, steps);
  }

  // The wait group is never taken below zero, and only a Drain caller can be left on a closed channel.
  lemma {:induction false} NoPanicFromOwnSteps(s: State, steps: seq<Step>)
    requires Init(s) && Feasible(s, steps)
    ensures var f := Exec(s, steps);
      && (f.lock.Held? && f.lock.at.Enqueuing? && f.lock.at.stage.Undoing? ==> f.own.pending > 0)
      && (forall w | w in f.own.workers :: f.own.pending > 0)
      && (f.poll.chan.Closed? && f.lock.Held? ==> f.lock.who.ByCaller?)
  {
    InitInv(s);
    RunKeepsInv(s, steps);
  }

  /* The fate of a claim */

  ghost predicate Holds(own: Own, w: WorkerId, work: Work) {
    w in own.workers && own.workers[w] == work
  }

  predicate LockClaims(lock: Lock, r: ReactionId) {
    EnqueuerHas(lock, r) && (lock.at.stage.Decoding? || lock.at.stage.Sending? || lock.at.stage.Parked?)
  }

  ghost predicate AwaitsRun(own: Own, lock: Lock, r: ReactionId) {
    r in own.jobs || (exists w :: Holds(own, w, Taken(r))) || LockClaims(lock, r)
  }

  ghost predicate AwaitsMark(own: Own, r: ReactionId) {
    exists w, ok :: Holds(own, w, Handled(r, ok))
  }

  // A claim is open in the records exactly while somebody has it.
  ghost predicate FateTrue(own: Own, lock: Lock, fate: map<ReactionId, Fate>) {
    && (forall r :: r in fate && fate[r] == Claimed <==> AwaitsRun(own, lock, r))
    && (forall r :: r in fate && fate[r] == Ran <==> AwaitsMark(own, r))
  }

  predicate FateMove(a: Fate, b: Fate) {
    match a
    case Claimed => b != MarkTried
    case Ran => b == Ran || b == MarkTried
    case _ => b == a || b == Claimed
  }

  // A fate only moves on: the handler runs before the mark is tried, and what is settled
  // changes only by a new claim.
  ghost predicate FateMoves(f: map<ReactionId, Fate>, f': map<ReactionId, Fate>) {
    && (forall r | r in f :: r in f' && FateMove(f[r], f'[r]))
    && (forall r | r in f' && r !in f :: f'[r] == Claimed)
  }

  lemma SameHandsFate(s: State, s': State)
    requires FateTrue(s.own, s.lock, s.notes.fate)
    requires s'.own.jobs == s.own.jobs && s'.own.workers == s.own.workers && s'.notes.fate == s.notes.fate
    requires forall r :: LockClaims(s'.lock, r) == LockClaims(s.lock, r)
    ensures FateTrue(s'.own, s'.lock, s'.notes.fate)
  {
    assert forall w, work :: Holds(s'.own, w, work) == Holds(s.own, w, work);
    assert forall r :: AwaitsRun(s'.own, s'.lock, r) == AwaitsRun(s.own, s.lock, r);
    assert forall r :: AwaitsMark(s'.own, r) == AwaitsMark(s.own, r);
  }

  // The lock holder opens, hands over or settles the claim on r.
  lemma LockFate(s: State, s': State, r: ReactionId)
    requires FateTrue(s.own, s.lock, s.notes.fate)
    requires s'.own.workers == s.own.workers
    requires forall q :: q != r ==> (q in s'.own.jobs <==> q in s.own.jobs)
    requires forall q :: q != r ==> !LockClaims(s.lock, q) && !LockClaims(s'.lock, q)
    requires forall q :: q != r ==> (q in s'.notes.fate <==> q in s.notes.fate)
    requires forall q | q in s.notes.fate && q != r :: s'.notes.fate[q] == s.notes.fate[q]
    requires OutOfHands([], s.own.workers, r)
    requires r in s'.notes.fate && s'.notes.fate[r] == Claimed <==> r in s'.own.jobs || LockClaims(s'.lock, r)
    requires r in s'.notes.fate ==> s'.notes.fate[r] != Ran
    ensures FateTrue(s'.own, s'.lock, s'.notes.fate)
  {
    assert forall w, work :: Holds(s'.own, w, work) == Holds(s.own, w, work);
    assert forall w, work | Holds(s.own, w, work) && work.HasId() :: work.id != r;
    assert forall q :: AwaitsRun(s'.own, s'.lock, q) <==>
      if q == r then r in s'.own.jobs || LockClaims(s'.lock, r) else AwaitsRun(s.own, s.lock, q);
    assert forall q :: AwaitsMark(s'.own, q) <==> AwaitsMark(s.own, q) && q != r;
  }

  ghost predicate FateInv(s: State) {
    Inv(s) && FateTrue(s.own, s.lock, s.notes.fate)
  }

  lemma EnqueueFate(s: State, r: ReactionId, stage: Stage, step: EnqueueStep)
    requires FateInv(s) && AtStage(s, r, stage) && EnqueueEnabled(s, r, stage, step)
    ensures var s' := EnqueueNext(s, r, stage, step);
      FateTrue(s'.own, s'.lock, s'.notes.fate) && FateMoves(s.notes.fate, s'.notes.fate)
  {
    var s' := EnqueueNext(s, r, stage, step);
    assert !AwaitsMark(s.own, r) by {
      assert forall w, work | Holds(s.own, w, work) && work.HasId() :: work.id != r;
    }
    assert AwaitsRun(s.own, s.lock, r) <==> LockClaims(s.lock, r) by {
      assert forall w, work | Holds(s.own, w, work) && work.HasId() :: work.id != r;
    }
    match step {
      case Claim => LockFate(s, s', r);
      case Decode(_) => LockFate(s, s', r);
      case Send => LockFate(s, s', r);
      case SendCancelled => LockFate(s, s', r);
      case _ => SameHandsFate(s, s');
    }
  }

  lemma BootFate(s: State)
    ensures FateTrue(Boot(s).own, Boot(s).lock, Boot(s).notes.fate)
  {
    assert forall w, work :: !Holds(Boot(s).own, w, work);
  }

  // A worker's job moves from one stage to the next.
  lemma WorkerFate(s: State, s': State, w: WorkerId, r: ReactionId, work: Work)
    requires FateInv(s) && s'.lock == s.lock && s'.own.jobs == s.own.jobs
    requires w in s.own.workers && s.own.workers[w].HasId() && s.own.workers[w].id == r
    requires s'.own.workers == s.own.workers[w := work] && (work.HasId() ==> work.id == r) && !work.Taken?
    requires s.own.workers[w].BeforeMark() ==>
      s'.notes.fate == s.notes.fate[r := if work.Handled? then Ran else MarkTried]
    requires s.own.workers[w].BeforeMark() ==> !work.Finishing?
    requires s.own.workers[w].Marked? ==> s'.notes.fate == s.notes.fate && work.Finishing?
    ensures FateTrue(s'.own, s'.lock, s'.notes.fate)
  {
    assert forall v, k :: Holds(s'.own, v, k) <==> if v == w then k == work else Holds(s.own, v, k);
    assert forall v, k | Holds(s.own, v, k) && k.HasId() && k.id == r :: v == w;
    assert forall q :: AwaitsRun(s'.own, s'.lock, q) <==>
      AwaitsRun(s.own, s.lock, q) && (q != r || s.own.workers[w].Marked?);
    assert work.Handled? ==> Holds(s'.own, w, Handled(r, work.ok));
    assert forall q | q != r :: AwaitsMark(s'.own, q) == AwaitsMark(s.own, q);
  }

  lemma TakeFate(s: State, w: WorkerId)
    requires FateInv(s) && WorkEnabled(s, Take(w))
    ensures FateTrue(TakeJob(s, w).own, s.lock, s.notes.fate)
  {
    var s' := TakeJob(s, w);
    var r := s.own.jobs[0];
    assert s.own.jobs == [r] + s'.own.jobs;
    assert forall v, k :: Holds(s'.own, v, k) <==> Holds(s.own, v, k) || (v == w && k == Taken(r));
    assert Holds(s'.own, w, Taken(r));
    assert forall q :: q in s.own.jobs <==> q in s'.own.jobs || q == r;
    assert forall q :: AwaitsRun(s'.own, s.lock, q) == AwaitsRun(s.own, s.lock, q);
    assert forall q :: AwaitsMark(s'.own, q) == AwaitsMark(s.own, q);
  }

  lemma FinishFate(s: State, w: WorkerId)
    requires FateInv(s) && WorkEnabled(s, Finish(w))
    ensures FateTrue(WorkNext(s, Finish(w)).own, s.lock, s.notes.fate)
  {
    var s' := WorkNext(s, Finish(w));
    assert forall v, k | k != Finishing :: Holds(s'.own, v, k) == Holds(s.own, v, k);
    assert forall q :: AwaitsRun(s'.own, s.lock, q) == AwaitsRun(s.own, s.lock, q);
    assert forall q :: AwaitsMark(s'.own, q) == AwaitsMark(s.own, q);
  }

  lemma WorkFate(s: State, step: WorkStep)
    requires FateInv(s) && WorkEnabled(s, step)
    ensures var s' := WorkNext(s, step);
      FateTrue(s'.own, s'.lock, s'.notes.fate) && FateMoves(s.notes.fate, s'.notes.fate)
  {
    match step {
      case Take(w) => TakeFate(s, w);
      case Finish(w) => FinishFate(s, w);
      case Call(w, ok) =>
        var r := s.own.workers[w].id;
        assert Holds(s.own, w, Taken(r)) && AwaitsRun(s.own, s.lock, r);
        WorkerFate(s, WorkNext(s, step), w, r, Handled(r, ok));
      case Mark(w, _) =>
        var r := s.own.workers[w].id;
        assert Holds(s.own, w, Handled(r, s.own.workers[w].ok)) && AwaitsMark(s.own, r);
        WorkerFate(s, WorkNext(s, step), w, r, Marked(r));
      case ClearJob(w) => WorkerFate(s, WorkNext(s, step), w, s.own.workers[w].id, Finishing);
    }
  }

  lemma RecordFate(s: State, step: RecordStep)
    requires FateInv(s) && RecordEnabled(s, step)
    ensures var n := RecordNext(s, step); FateTrue(n.own, n.lock, n.notes.fate) && n.notes.fate == s.notes.fate
  {
    SameHandsFate(s, RecordNext(s, step));
  }

  lemma LifeFate(s: State, step: LifeStep)
    requires FateInv(s) && LifeEnabled(s, step)
    ensures var n := LifeNext(s, step); FateTrue(n.own, n.lock, n.notes.fate)
    ensures !step.Crash? ==> LifeNext(s, step).notes.fate == s.notes.fate
  {
    if step.Crash? {
      BootFate(s);
    } else {
      SameHandsFate(s, LifeNext(s, step));
    }
  }

  lemma StepKeepsFate(s: State, step: Step)
    requires FateInv(s) && Enabled(s, step)
    ensures FateInv(Next(s, step))
    ensures step != Life(Crash) ==> FateMoves(s.notes.fate, Next(s, step).notes.fate)
  {
    StepKeepsInv(s, step);
    match step {
      case Recording(r) => RecordFate(s, r);
      case Life(l) => LifeFate(s, l);
      case Drain(Enqueue(e)) => EnqueueFate(s, s.lock.at.id, s.lock.at.stage, e);
      case Drain(_) => SameHandsFate(s, Next(s, step));
      case Working(w) => WorkFate(s, w);
    }
  }

  lemma {:induction false} RunKeepsFate(s: State, steps: seq<Step>)
    requires FateInv(s) && Feasible(s, steps)
    ensures FateInv(Exec(s, steps))
    decreases |steps|
  {
    if steps != [] {
      StepKeepsFate(s, steps[0]);
      RunKeepsFate(Next(s, steps[0]), steps[1..]);
    }
  }

  // What Drain waits for: at zero, every claim of this process had its handler run and its mark
  // tried, or failed to decode, or was released on cancellation.
  lemma {:induction false} DrainedMeansSettled(s: State, steps: seq<Step>)
    requires Init(s) && Feasible(s, steps) && Exec(s, steps).own.pending == 0
    ensures forall r | r in Exec(s, steps).notes.fate ::
      Exec(s, steps).notes.fate[r] in {MarkTried, FailedDecode, Released}
  {
    InitInv(s);
    BootFate(s);
    RunKeepsFate(s, steps);
    var f := Exec(s, steps);
    assert f.own.workers == map[];
    assert forall w, work :: !Holds(f.own, w, work);
    forall r | r in f.notes.fate ensures f.notes.fate[r] != Claimed && f.notes.fate[r] != Ran {
      assert !AwaitsRun(f.own, f.lock, r) && !AwaitsMark(f.own, r);
    }
  }
}
