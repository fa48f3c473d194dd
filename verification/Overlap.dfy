/** What happens when Start overtakes a Drain call. From a state in which Start resets a claim that
    can still reach the workers, the process can make a move that no ledger allows, and can call a
    handler twice after that reset; from every other state it can do neither. */
module Overlap {
  import opened ReactionTables
  import opened ReactionProtocol
  import opened ReactionRuns
  import opened Ownership
  import opened Orderly
  import opened Ledger

  lemma Go(s0: State, s: State, step: Step) returns (s': State)
    requires Reaches(s0, s) && Enabled(s, step) && step != Life(Crash)
    ensures Reaches(s0, s') && s' == Next(s, step)
  {
    s' := Next(s, step);
    ReachesStep(s0, s, step, s');
  }

  lemma GoDrain(s0: State, s: State, step: EnqueueStep) returns (s': State)
    requires Reaches(s0, s) && s.lock.Held? && s.lock.at.Enqueuing?
    requires EnqueueEnabled(s, s.lock.at.id, s.lock.at.stage, step)
    ensures Reaches(s0, s') && s' == EnqueueNext(s, s.lock.at.id, s.lock.at.stage, step)
  {
    s' := Go(s0, s, Drain(Enqueue(step)));
  }

  /* A claim that is on its way */

  // What Start finds: it may reset, and a Drain call has claimed a running row.
  ghost predicate Overtaken(s: State) {
    && Inv(s) && CanReset(s) && OnTheWay(s.lock)
    && s.tables.HasStatus(s.lock.at.id, Running)
    && s.cfg.workers > 0 && s.cfg.queueCap > 0
  }

  // The row r is pending again and job r is in the queue, while no worker is busy.
  ghost predicate QueuedOnPending(s: State, r: ReactionId) {
    && s.own.jobs == [r] && s.own.workers == map[]
    && s.tables.HasStatus(r, Pending)
    && s.poll.chan.Open? && s.cfg.workers > 0 && s.cfg.queueCap > 0
  }

  // After the reset the caller enters its select, finds the channel open, and sends.
  lemma SendAfterReset(s: State) returns (t: State)
    requires Overtaken(s)
    ensures Reaches(Reset(s), t) && QueuedOnPending(t, s.lock.at.id)
    ensures t.tables == ResetRows(s.tables) && t.bus.handlers == s.bus.handlers && t.cfg == s.cfg
    ensures t.lock.Held? && t.lock.who.ByCaller? && t.lock.at.Picking?
    ensures t.notes.log == s.notes.log + [ResetDone]
  {
    var r0 := Reset(s);
    ReachesSelf(r0);
    t := Go(r0, r0, Life(StartOpen));
    if t.lock.at.stage.Decoding? {
      t := GoDrain(r0, t, Decode(true));
    }
    t := GoDrain(r0, t, Select);
    t := GoDrain(r0, t, Send);
  }

  // A worker takes the job and its handler returns.
  lemma HandleJob(s0: State, s: State, r: ReactionId) returns (t: State)
    requires Reaches(s0, s) && s.own.jobs == [r] && s.own.workers == map[] && s.cfg.workers > 0
    ensures Reaches(s0, t) && t.own == s.own.(jobs := [], workers := map[0 := Handled(r, true)])
    ensures t.tables == s.tables && t.bus == s.bus && t.poll == s.poll && t.lock == s.lock && t.cfg == s.cfg
    ensures t.notes.log == s.notes.log + [Called(r)]
  {
    t := Go(s0, s, Working(Take(0)));
    t := Go(s0, t, Working(Call(0, true)));
  }

  /* The ledger */

  // No ledger takes an obligation from pending to succeeded in one move.
  lemma NoSuchMove(book: map<Obligation, Status>, o: Obligation, move: Move)
    requires o in book && book[o] == Pending
    ensures !Moves(book, move, book[o := Succeeded])
  {
    var after := book[o := Succeeded];
    assert o in after && after[o] == Succeeded;
    match move {
      case Begin(p) => assert book[p := Running][o] != Succeeded;
      case Settle(p, ok) => assert p == o || book[p := if ok then Succeeded else Status.Failed][o] == Pending;
      case GiveUp(p) => assert book[p := Status.Failed][o] != Succeeded;
      case _ =>
    }
  }

  // The mark of the job is a step that no move of the ledger explains.
  lemma OverlapAllowsIllegalMove(s: State) returns (t: State, step: Step)
    requires Overtaken(s)
    ensures Reaches(Reset(s), t) && step != Life(Crash) && Enabled(t, step)
    ensures forall move :: !Moves(Book(t.tables), move, Book(Next(t, step).tables))
  {
    var r := s.lock.at.id;
    t := SendAfterReset(s);
    t := HandleJob(Reset(s), t, r);
    step := Working(Mark(0, true));
    assert Unique(t.tables);
    BookAt(t.tables, r);
    BookMarked(t.tables, r, Succeeded);
    forall move ensures !Moves(Book(t.tables), move, Book(Next(t, step).tables)) {
      NoSuchMove(Book(t.tables), Named(t.tables, r), move);
    }
  }

  lemma {:induction false} LastStepRefines(s: State, steps: seq<Step>, last: Step)
    requires Feasible(s, steps) && Enabled(Exec(s, steps), last)
    ensures Feasible(s, steps + [last])
    ensures Refines(s, steps + [last]) ==>
      Moves(Book(Exec(s, steps).tables), MoveOf(Exec(s, steps), last), Book(Next(Exec(s, steps), last).tables))
    decreases |steps|
  {
    FeasibleAppend(s, steps, last);
    var all := steps + [last];
    if steps == [] {
      assert all[0] == last;
    } else {
      LastStepRefines(Next(s, steps[0]), steps[1..], last);
      assert all[0] == steps[0] && all[1..] == steps[1..] + [last];
    }
  }

  /* Who can be on its way */

  // A goroutine that entered its select before there was a channel stays there, whatever the others do,
  // until its context ends: nothing is sent for it.
  lemma {:induction false} ParkedOnNilOnlyCancels(s: State, steps: seq<Step>)
    requires s.lock.Held? && s.lock.at.Enqueuing? && s.lock.at.stage == Parked(false)
    requires Feasible(s, steps) && !Crashes(steps)
    ensures CancelsIn(steps) || SameSpot(s.lock, Exec(s, steps).lock)
    decreases |steps|
  {
    if steps != [] && !CancelsIn(steps) {
      var n := Next(s, steps[0]);
      assert steps[0] != Life(Crash) && steps[0] != Drain(Enqueue(SendCancelled));
      StaysParked(s, steps[0]);
      assert forall i | 0 <= i < |steps[1..]| :: steps[1..][i] == steps[i + 1];
      ParkedOnNilOnlyCancels(n, steps[1..]);
    }
  }

  predicate CancelsIn(steps: seq<Step>) {
    exists i | 0 <= i < |steps| :: steps[i] == Drain(Enqueue(SendCancelled))
  }

  lemma StaysParked(s: State, step: Step)
    requires s.lock.Held? && s.lock.at.Enqueuing? && s.lock.at.stage == Parked(false)
    requires Enabled(s, step) && step != Life(Crash) && step != Drain(Enqueue(SendCancelled))
    ensures SameSpot(s.lock, Next(s, step).lock)
  {
  }

  // Once the rows are reset for a Start that goes on, the process cannot reset them again.
  lemma {:induction false} OneResetPerProcess(s: State, steps: seq<Step>)
    requires (s.bus.starting || s.bus.started) && Feasible(s, steps) && !Crashes(steps)
    ensures HarmlessRun(s, steps)
    decreases |steps|
  {
    if steps != [] {
      assert steps[0] != Life(Crash);
      assert forall i | 0 <= i < |steps[1..]| :: steps[1..][i] == steps[i + 1];
      OneResetPerProcess(Next(s, steps[0]), steps[1..]);
    }
  }

  /* Exactly which resets are safe */

  ghost predicate KeepsLedger(s: State) {
    forall steps | Feasible(s, steps) && !Crashes(steps) :: Refines(s, steps)
  }

  // Start's reset keeps the ledger, in everything the process can do afterwards, if and only if no
  // Drain call has a claim that can still reach the workers.
  lemma {:induction false} ResetKeepsLedgerIff(s0: State, before: seq<Step>)
    requires Init(s0) && Feasible(s0, before) && HarmlessSinceCrash(s0, before)
    requires CanReset(Exec(s0, before)) && Exec(s0, before).cfg.workers > 0 && Exec(s0, before).cfg.queueCap > 0
    ensures KeepsLedger(Reset(Exec(s0, before))) <==> !OnTheWay(Exec(s0, before).lock)
  {
    var s := Exec(s0, before);
    TidySinceCrash(s0, before);
    if OnTheWay(s.lock) {
      var t, step := OverlapAllowsIllegalMove(s);
      var steps :| Leads(Reset(s), steps, t);
      LastStepRefines(Reset(s), steps, step);
      StillAlive(steps, step);
      assert !Refines(Reset(s), steps + [step]);
    } else {
      SafeResetTidy(s);
      forall steps | Feasible(Reset(s), steps) && !Crashes(steps) ensures Refines(Reset(s), steps) {
        OneResetPerProcess(Reset(s), steps);
        HarmlessRunRefines(Reset(s), steps);
      }
    }
  }

  lemma StillAlive(steps: seq<Step>, step: Step)
    requires !Crashes(steps) && step != Life(Crash)
    ensures !Crashes(steps + [step])
  {
  }

  lemma SafeResetTidy(s: State)
    requires Inv(s) && Tidy(s) && CanReset(s) && !OnTheWay(s.lock)
    ensures Inv(Reset(s)) && Tidy(Reset(s))
  {
    StepKeepsInv(s, Life(StartReset));
    StepKeepsTidy(s, Life(StartReset));
  }

  /* A second call */

  // The Drain call goes away: its context ends, or its pass does.
  lemma LeaveLock(s0: State, s: State) returns (t: State)
    requires Reaches(s0, s) && s.lock.Held? && s.lock.who.ByCaller? && s.lock.at.Picking?
    ensures Reaches(s0, t) && t == s.(lock := Free)
  {
    if s.lock.pass.rest != [] {
      t := Go(s0, s, Drain(Stop));
    } else {
      t := Go(s0, s, Drain(End));
      if t.lock.Held? {
        t := Go(s0, t, Drain(ListError));
      }
    }
  }

  lemma {:induction false} SomeOf<K>(all: set<K>, limit: nat) returns (ids: seq<K>)
    ensures |ids| <= limit && (|ids| < limit ==> forall r | r in all :: r in ids)
    ensures forall i | 0 <= i < |ids| :: ids[i] in all
    ensures forall i, j | 0 <= i < j < |ids| :: ids[i] != ids[j]
    decreases limit
  {
    ids := [];
    if limit > 0 {
      if r :| r in all {
        var rest := SomeOf(all - {r}, limit - 1);
        ids := [r] + rest;
      }
    }
  }

  // A list that begins with r.
  lemma ListingWith(t: Tables, limit: nat, r: ReactionId) returns (ids: seq<ReactionId>)
    requires t.HasStatus(r, Pending) && limit > 0
    ensures ListAnswer(t, limit, ids) && ids != [] && ids[0] == r
  {
    var rest := SomeOf(PendingIds(t) - {r}, limit - 1);
    ids := [r] + rest;
  }

  // Another Drain call lists the row while its job is still queued.
  lemma ListAgain(s0: State, s: State, r: ReactionId) returns (t: State)
    requires Reaches(s0, s) && s.lock.Free? && s.tables.HasStatus(r, Pending) && s.cfg.pollLimit > 0
    ensures Reaches(s0, t) && t.own == s.own && t.tables == s.tables && t.bus == s.bus && t.poll == s.poll
    ensures t.cfg == s.cfg && t.notes == s.notes
    ensures t.lock.Held? && t.lock.at.Picking? && t.lock.pass.rest != [] && t.lock.pass.rest[0] == r
  {
    var ids := ListingWith(s.tables, s.cfg.pollLimit, r);
    t := Go(s0, s, Life(CallerAcquire));
    t := Go(s0, t, Drain(List(ids)));
  }

  // The worker's mark is lost and the job is over.
  lemma LoseMark(s0: State, s: State, r: ReactionId) returns (t: State)
    requires Reaches(s0, s) && s.own.workers == map[0 := Handled(r, true)]
    ensures Reaches(s0, t) && t.own.inFlight == s.own.inFlight - {r} && t.own.jobs == s.own.jobs
      && t.own.workers == map[]
    ensures t.tables == s.tables && t.bus == s.bus && t.poll == s.poll && t.cfg == s.cfg && t.lock == s.lock
    ensures t.notes.log == s.notes.log
  {
    t := Go(s0, s, Working(Mark(0, false)));
    t := Go(s0, t, Working(ClearJob(0)));
    t := Go(s0, t, Working(Finish(0)));
  }

  predicate Claimable(s: State, r: ReactionId) {
    s.tables.HasStatus(r, Pending) && HasHandler(s, r)
  }

  // The row in front of the pass is enqueued.
  lemma PickUp(s0: State, s: State, r: ReactionId) returns (t: State)
    requires Reaches(s0, s) && s.lock.Held? && s.lock.at.Picking? && s.lock.pass.rest != [] && s.lock.pass.rest[0] == r
    requires r !in s.own.inFlight && Claimable(s, r)
    ensures Reaches(s0, t) && t.lock.Held? && t.lock.at == Enqueuing(r, Claiming)
    ensures t.own == s.own.(inFlight := s.own.inFlight + {r}, pending := s.own.pending + 1)
    ensures t.tables == s.tables && t.bus == s.bus && t.poll == s.poll && t.cfg == s.cfg && t.notes == s.notes
  {
    t := Go(s0, s, Drain(Pick));
    t := GoDrain(s0, t, Count);
    t := GoDrain(s0, t, Load);
    t := GoDrain(s0, t, Look);
  }

  // It is claimed, decodes, and enqueue stands before its select.
  lemma ClaimUp(s0: State, s: State, r: ReactionId) returns (t: State)
    requires Reaches(s0, s) && s.lock.Held? && s.lock.at == Enqueuing(r, Claiming) && Claimable(s, r)
    ensures Reaches(s0, t) && t.lock == s.lock.(at := Enqueuing(r, Sending))
      && t.tables == MarkedAs(s.tables, r, Running)
    ensures t.own == s.own && t.bus == s.bus && t.poll == s.poll && t.cfg == s.cfg && t.notes.log == s.notes.log
  {
    t := GoDrain(s0, s, Claim);
    t := GoDrain(s0, t, Decode(true));
  }

  lemma SendNow(s0: State, s: State, r: ReactionId) returns (t: State)
    requires Reaches(s0, s) && s.lock.Held? && s.lock.at == Enqueuing(r, Sending)
    requires s.own.jobs == [] && s.poll.chan.Open? && s.cfg.queueCap > 0
    ensures Reaches(s0, t) && t.own.jobs == [r] && t.own.workers == s.own.workers
    ensures t.cfg == s.cfg && t.notes.log == s.notes.log
  {
    t := GoDrain(s0, s, Select);
    t := GoDrain(s0, t, Send);
  }

  // The row is pending under a queued job. A second list sees it; the worker's mark is lost; the row
  // is claimed and sent again.
  lemma CallTwice(s0: State, s: State, r: ReactionId) returns (t: State)
    requires Reaches(s0, s) && QueuedOnPending(s, r) && HasHandler(s, r) && s.cfg.pollLimit > 0
    requires s.lock.Held? && s.lock.who.ByCaller? && s.lock.at.Picking?
    ensures Reaches(s0, t) && t.notes.log == s.notes.log + [Called(r), Called(r)]
  {
    t := LeaveLock(s0, s);
    t := ListAgain(s0, t, r);
    t := HandleJob(s0, t, r);
    t := LoseMark(s0, t, r);
    t := PickUp(s0, t, r);
    t := ClaimUp(s0, t, r);
    t := SendNow(s0, t, r);
    t := HandleJob(s0, t, r);
    assert s.notes.log + [Called(r)] + [Called(r)] == s.notes.log + [Called(r), Called(r)];
  }

  // What enqueue looked up stays there.
  predicate HandlerKnown(s: State) {
    s.lock.Held? && s.lock.at.Enqueuing? && (s.lock.at.stage.Claiming? || OnTheWay(s.lock)) ==>
      HasHandler(s, s.lock.at.id)
  }

  lemma StepKeepsHandler(s: State, step: Step)
    requires HandlerKnown(s) && Enabled(s, step)
    ensures HandlerKnown(Next(s, step))
  {
    StepExtends(s, step);
  }

  lemma {:induction false} RunKeepsHandler(s: State, steps: seq<Step>)
    requires HandlerKnown(s) && Feasible(s, steps)
    ensures HandlerKnown(Exec(s, steps))
    decreases |steps|
  {
    if steps != [] {
      StepKeepsHandler(s, steps[0]);
      RunKeepsHandler(Next(s, steps[0]), steps[1..]);
    }
  }

  lemma OverlapAllowsSecondCall(s: State) returns (t: State)
    requires Overtaken(s) && HandlerKnown(s) && s.cfg.pollLimit > 0
    ensures Reaches(Reset(s), t) && t.notes.log == s.notes.log + [ResetDone, Called(s.lock.at.id), Called(s.lock.at.id)]
  {
    var r := s.lock.at.id;
    t := SendAfterReset(s);
    t := CallTwice(Reset(s), t, r);
    assert s.notes.log + [ResetDone] + [Called(r), Called(r)] == s.notes.log + [ResetDone, Called(r), Called(r)];
  }

  lemma TwiceIsNotOnce(log: seq<Entry>, r: ReactionId)
    ensures !OncePerStart(log + [ResetDone, Called(r), Called(r)])
  {
    var all := log + [ResetDone, Called(r), Called(r)];
    assert all[|log| + 1] == Called(r) && all[|log| + 2] == Called(r);
  }

  ghost predicate KeepsOnce(s: State) {
    forall t | Reaches(s, t) :: OncePerStart(t.notes.log)
  }

  // After Start's reset the process calls each handler at most once per reaction, in everything it can
  // do, if and only if no Drain call has a claim that can still reach the workers.
  lemma {:induction false} ResetKeepsOnceIff(s0: State, before: seq<Step>)
    requires Init(s0) && Feasible(s0, before) && HarmlessSinceCrash(s0, before)
    requires var s := Exec(s0, before); CanReset(s) && s.cfg.workers > 0 && s.cfg.queueCap > 0 && s.cfg.pollLimit > 0
    ensures KeepsOnce(Reset(Exec(s0, before))) <==> !OnTheWay(Exec(s0, before).lock)
  {
    var s := Exec(s0, before);
    TidySinceCrash(s0, before);
    if OnTheWay(s.lock) {
      RunKeepsHandler(s0, before);
      var t := OverlapAllowsSecondCall(s);
      TwiceIsNotOnce(s.notes.log, s.lock.at.id);
    } else {
      SafeResetTidy(s);
      forall t | Reaches(Reset(s), t) ensures OncePerStart(t.notes.log) {
        var steps :| Leads(Reset(s), steps, t);
        OneResetPerProcess(Reset(s), steps);
        HarmlessRunTidy(Reset(s), steps);
      }
    }
  }

  /* One such run */

  const ONE_PENDING := Tables(map[1 := 1], map[1 := Reaction(1, 1, Pending)])

  // A restarted process over a database with one pending reaction.
  const RESTARTED := State(
    Config(1, 64, 100), ONE_PENDING,
    Bus(false, false, false, {}, map[]), Poll(Absent, false, false, Off), Own({}, 0, [], map[]), Free,
    Notes([], map[]))

  // A Drain call on the bus that is not started yet lists the reaction.
  lemma ListBeforeStart() returns (s: State)
    ensures Reaches(RESTARTED, s) && s.cfg == RESTARTED.cfg && s.tables == ONE_PENDING && s.notes.log == []
    ensures s.bus == Bus(false, false, false, {(1, 1)}, map[]) && s.own == RESTARTED.own
    ensures s.lock.Held? && s.lock.at.Picking? && s.lock.pass.rest == [1]
  {
    ReachesSelf(RESTARTED);
    s := Go(RESTARTED, RESTARTED, Recording(Register(1, 1)));
    s := Go(RESTARTED, s, Life(CallerAcquire));
    assert PendingIds(ONE_PENDING) == {1};
    s := Go(RESTARTED, s, Drain(List([1])));
  }

  // It claims it and has not entered its select.
  lemma DrainBeforeStart() returns (s: State)
    ensures Reaches(RESTARTED, s) && Overtaken(s) && s.lock.at == Enqueuing(1, Sending)
    ensures s.cfg == RESTARTED.cfg && s.notes.log == []
  {
    s := ListBeforeStart();
    s := PickUp(RESTARTED, s, 1);
    s := ClaimUp(RESTARTED, s, 1);
    assert s.bus == Bus(false, false, false, {(1, 1)}, map[]) && s.tables.HasStatus(1, Running);
    ReachesInv(RESTARTED, s);
  }

  lemma ReachesInv(s0: State, s: State)
    requires Init(s0) && Reaches(s0, s)
    ensures Inv(s)
  {
    InitInv(s0);
    var steps :| Leads(s0, steps, s);
    RunKeepsInv(s0, steps);
  }

  // The state behind the two calls.
  lemma StartOvertakesDrain() returns (t: State)
    ensures Init(RESTARTED) && Reaches(RESTARTED, t)
    ensures t.notes.log == [ResetDone, Called(1), Called(1)]
  {
    var s := DrainBeforeStart();
    var known :| Leads(RESTARTED, known, s);
    RunKeepsHandler(RESTARTED, known);
    t := OverlapAllowsSecondCall(s);
    ReachesStep(RESTARTED, s, Life(StartReset), Reset(s));
    ReachesOn(RESTARTED, Reset(s), t);
  }

  lemma CalledTwiceWhenStartOvertakesDrain() returns (steps: seq<Step>)
    ensures Init(RESTARTED) && Feasible(RESTARTED, steps) && !Crashes(steps)
    ensures Exec(RESTARTED, steps).notes.log == [ResetDone, Called(1), Called(1)]
    ensures !OncePerStart(Exec(RESTARTED, steps).notes.log)
  {
    var t := StartOvertakesDrain();
    steps :| Leads(RESTARTED, steps, t);
    TwiceIsNotOnce([], 1);
    assert [] + [ResetDone, Called(1), Called(1)] == [ResetDone, Called(1), Called(1)];
  }
}
