/** The end of a process and the way of its poller: what Shutdown stops, and that the poller always gets back to
    its list. */
module Shutdown {
  import opened ReactionTables
  import opened ReactionProtocol
  import opened ReactionRuns
  import opened Ownership

  // Once Shutdown has closed the bus, the process stores nothing and lets no Record in any more.
  lemma {:induction false} ClosedStoresNothing(s: State, steps: seq<Step>)
    requires LifeEnabled(s, ShutdownBegin) && Feasible(Next(s, Life(ShutdownBegin)), steps) && !Crashes(steps)
    ensures var f := Exec(Next(s, Life(ShutdownBegin)), steps);
      && f.bus.closed && f.bus.records == map[]
      && f.tables.events == s.tables.events && f.tables.reactions.Keys == s.tables.reactions.Keys
  {
    StaysClosed(Next(s, Life(ShutdownBegin)), steps);
  }

  lemma {:induction false} StaysClosed(s: State, steps: seq<Step>)
    requires s.bus.closed && s.bus.records == map[] && Feasible(s, steps) && !Crashes(steps)
    ensures var f := Exec(s, steps);
      && f.bus.closed && f.bus.records == map[]
      && f.tables.events == s.tables.events && f.tables.reactions.Keys == s.tables.reactions.Keys
    decreases |steps|
  {
    if steps != [] {
      assert steps[0] != Life(Crash);
      assert forall i | 0 <= i < |steps[1..]| :: steps[1..][i] == steps[i + 1];
      StepStaysClosed(s, steps[0]);
      StaysClosed(Next(s, steps[0]), steps[1..]);
    }
  }

  lemma StepStaysClosed(s: State, step: Step)
    requires s.bus.closed && s.bus.records == map[] && Enabled(s, step) && step != Life(Crash)
    ensures var n := Next(s, step);
      && n.bus.closed && n.bus.records == map[]
      && n.tables.events == s.tables.events && n.tables.reactions.Keys == s.tables.reactions.Keys
  {
    match step {
      case Recording(_) =>
      case Life(_) =>
      case Drain(_) => DrainStaysClosed(s, step.d);
      case Working(_) =>
    }
  }

  lemma DrainStaysClosed(s: State, step: DrainStep)
    requires DrainEnabled(s, step)
    ensures var n := DrainNext(s, step);
      n.bus == s.bus && n.tables.events == s.tables.events && n.tables.reactions.Keys == s.tables.reactions.Keys
  {
  }

  lemma {:induction false} OneStep(s: State, step: Step) returns (n: State)
    requires Enabled(s, step)
    ensures n == Next(s, step) && Feasible(s, [step]) && Exec(s, [step]) == n
  {
    n := Next(s, step);
    RunCons(s, step, [], n);
    assert [step] + [] == [step];
  }

  // Until the poller has left for good it can get to its next list as soon as drainMu is free, with or without a
  // token in the wake channel.
  lemma {:induction false} PollerComesBack(s: State, before: seq<Step>) returns (steps: seq<Step>)
    requires Init(s) && Feasible(s, before)
    requires var b := Exec(s, before); b.bus.started && !b.poll.poller.Exited? && b.lock.Free?
    ensures var b := Exec(s, before);
      && Feasible(b, steps) && Exec(b, steps).lock.Held?
      && Exec(b, steps).lock.who.ByPoller? && Exec(b, steps).lock.at.Listing? && Exec(b, steps).tables == b.tables
  {
    InitInv(s);
    RunKeepsInv(s, before);
    var b := Exec(s, before);
    if b.poll.poller.Selecting? {
      var n := OneStep(b, Life(PollerTick));
      var done := OneStep(n, Life(PollerAcquire));
      steps := [Life(PollerTick)] + [Life(PollerAcquire)];
      RunCons(b, Life(PollerTick), [Life(PollerAcquire)], n);
    } else {
      var done := OneStep(b, Life(PollerAcquire));
      steps := [Life(PollerAcquire)];
    }
  }

  // With no Record under way and the poller in its select, Shutdown gets through: it closes the bus, cancels the
  // run context, the poller leaves, and the jobs channel is closed.
  lemma {:induction false} ShutdownGetsThrough(s: State, before: seq<Step>) returns (steps: seq<Step>)
    requires Init(s) && Feasible(s, before)
    requires var b := Exec(s, before);
      b.bus.started && b.bus.records == map[] && b.poll.poller.Selecting?
    ensures var b := Exec(s, before);
      && Feasible(b, steps) && Exec(b, steps).bus.closed && Exec(b, steps).poll.cancelled
      && Exec(b, steps).poll.poller.Exited? && Exec(b, steps).poll.chan.Closed?
      && Exec(b, steps).tables == b.tables && Exec(b, steps).own == b.own
  {
    InitInv(s);
    RunKeepsInv(s, before);
    var b := Exec(s, before);
    var closed := OneStep(b, Life(ShutdownBegin));
    var cancelled := OneStep(closed, Life(CancelRun));
    var left := OneStep(cancelled, Life(PollerExit));
    var done := OneStep(left, Life(CloseJobs));
    RunCons(cancelled, Life(PollerExit), [Life(CloseJobs)], left);
    RunCons(closed, Life(CancelRun), [Life(PollerExit)] + [Life(CloseJobs)], cancelled);
    RunCons(b, Life(ShutdownBegin), [Life(CancelRun)] + ([Life(PollerExit)] + [Life(CloseJobs)]), closed);
    steps := [Life(ShutdownBegin)] + ([Life(CancelRun)] + ([Life(PollerExit)] + [Life(CloseJobs)]));
  }
}
