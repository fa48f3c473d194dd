/** No lost wake-up: once a Record has returned, the poller is about to list, or will be
    woken, until a list pass of the poller has begun. */
module WakeUp {
  import opened ReactionTables
  import opened ReactionProtocol
  import opened Ownership

  // The wake channel holds its token, or the poller is on its way to a list.
  predicate WakePending(s: State) {
    || s.poll.wake
    || s.poll.poller.Wanting?
    || (s.lock.Held? && s.lock.who.ByPoller? && s.lock.at.Listing?)
  }

  predicate PollerLists(s: State, step: Step) {
    s.lock.Held? && s.lock.who.ByPoller? && step.Drain? && (step.d.List? || step.d.ListError?)
  }

  // Somewhere in the run the poller begins a list pass, or the process dies.
  ghost predicate PassBegins(s: State, steps: seq<Step>)
    requires Feasible(s, steps)
    decreases |steps|
  {
    steps != [] &&
    (PollerLists(s, steps[0]) || steps[0] == Life(Crash) || PassBegins(Next(s, steps[0]), steps[1..]))
  }

  lemma StepKeepsWake(s: State, step: Step)
    requires Inv(s) && Enabled(s, step) && s.bus.started && WakePending(s)
    requires !PollerLists(s, step) && step != Life(Crash)
    ensures Next(s, step).bus.started && WakePending(Next(s, step))
  {
    match step {
      case Life(l) => LifeKeepsWake(s, l);
      case Drain(d) => DrainKeepsWake(s, d);
      case _ =>
    }
  }

  lemma LifeKeepsWake(s: State, step: LifeStep)
    requires Inv(s) && LifeEnabled(s, step) && s.bus.started && WakePending(s) && !step.Crash?
    ensures LifeNext(s, step).bus.started && WakePending(LifeNext(s, step))
  {
  }

  lemma DrainKeepsWake(s: State, step: DrainStep)
    requires Inv(s) && DrainEnabled(s, step) && s.bus.started && WakePending(s) && !PollerLists(s, Drain(step))
    ensures DrainNext(s, step).bus.started && WakePending(DrainNext(s, step))
  {
  }

  lemma {:induction false} WakeLasts(s: State, steps: seq<Step>)
    requires Inv(s) && Feasible(s, steps) && s.bus.started && WakePending(s)
    ensures PassBegins(s, steps) || WakePending(Exec(s, steps))
    decreases |steps|
  {
    if steps != [] && !PollerLists(s, steps[0]) && steps[0] != Life(Crash) {
      StepKeepsInv(s, steps[0]);
      StepKeepsWake(s, steps[0]);
      WakeLasts(Next(s, steps[0]), steps[1..]);
    }
  }

  // before: any run up to the notify of one Record; after: anything that follows it.
  lemma {:induction false} NoLostWakeUp(s: State, before: seq<Step>, task: TaskId, after: seq<Step>)
    requires Init(s) && Feasible(s, before) && Enabled(Exec(s, before), Recording(Notify(task)))
    requires Feasible(NotifyRecord(Exec(s, before), task), after)
    ensures var n := NotifyRecord(Exec(s, before), task);
      PassBegins(n, after) || WakePending(Exec(n, after))
  {
    InitInv(s);
    RunKeepsInv(s, before);
    var b := Exec(s, before);
    StepKeepsInv(b, Recording(Notify(task)));
    WakeLasts(NotifyRecord(b, task), after);
  }
}
