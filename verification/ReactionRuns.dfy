/** Runs of the persistent bus: putting them together, cutting them at the last crash, and what
    every run leaves in the tables. */
module ReactionRuns {
  import opened ReactionTables
  import opened ReactionProtocol

  lemma {:induction false} FeasibleAppend(s: State, steps: seq<Step>, last: Step)
    requires Feasible(s, steps) && Enabled(Exec(s, steps), last)
    ensures Feasible(s, steps + [last]) && Exec(s, steps + [last]) == Next(Exec(s, steps), last)
    decreases |steps|
  {
    var all := steps + [last];
    if steps == [] {
      assert all[1..] == [];
    } else {
      FeasibleAppend(Next(s, steps[0]), steps[1..], last);
      assert all[1..] == steps[1..] + [last];
    }
  }

  lemma {:induction false} RunCons(s: State, step: Step, rest: seq<Step>, t: State)
    requires Enabled(s, step) && t == Next(s, step) && Feasible(t, rest)
    ensures Feasible(s, [step] + rest) && Exec(s, [step] + rest) == Exec(t, rest)
  {
    assert ([step] + rest)[1..] == rest;
  }

  lemma {:induction false} RunUncons(s: State, steps: seq<Step>) returns (t: State)
    requires Feasible(s, steps) && steps != []
    ensures Enabled(s, steps[0]) && t == Next(s, steps[0])
    ensures Feasible(t, steps[1..]) && Exec(s, steps) == Exec(t, steps[1..])
  {
    t := Next(s, steps[0]);
  }

  lemma Regroup(first: seq<Step>, second: seq<Step>)
    requires first != []
    ensures first + second == [first[0]] + (first[1..] + second)
  {
  }

  lemma {:induction false} RunsCompose(s: State, first: seq<Step>, second: seq<Step>)
    requires Feasible(s, first) && Feasible(Exec(s, first), second)
    ensures Feasible(s, first + second) && Exec(s, first + second) == Exec(Exec(s, first), second)
    decreases |first|
  {
    if first == [] {
      assert first + second == second;
    } else {
      var t := RunUncons(s, first);
      RunsCompose(t, first[1..], second);
      RunCons(s, first[0], first[1..] + second, t);
      Regroup(first, second);
    }
  }

  /* Runs of one process */

  predicate Crashes(steps: seq<Step>) {
    exists i | 0 <= i < |steps| :: steps[i] == Life(Crash)
  }

  // The process goes from a to b, without dying.
  ghost predicate Reaches(a: State, b: State) {
    exists steps :: Leads(a, steps, b)
  }

  ghost predicate Leads(a: State, steps: seq<Step>, b: State) {
    !Crashes(steps) && Feasible(a, steps) && Exec(a, steps) == b
  }

  ghost predicate Took(a: State, step: Step, b: State) {
    step != Life(Crash) && Enabled(a, step) && b == Next(a, step)
  }

  lemma ReachesSelf(a: State)
    ensures Reaches(a, a)
  {
    assert Leads(a, [], a);
  }

  lemma ReachesStep(a: State, b: State, step: Step, c: State)
    requires Reaches(a, b) && Took(b, step, c)
    ensures Reaches(a, c)
  {
    var steps :| Leads(a, steps, b);
    FeasibleAppend(a, steps, step);
    assert Leads(a, steps + [step], c);
  }

  lemma ReachesOn(a: State, b: State, c: State)
    requires Reaches(a, b) && Reaches(b, c)
    ensures Reaches(a, c)
  {
    var first :| Leads(a, first, b);
    var second :| Leads(b, second, c);
    RunsCompose(a, first, second);
    assert Leads(a, first + second, c);
  }

  /* The process that is alive at the end of a run */

  // The state right after the last crash, or the first one, and the steps from there on.
  ghost function CurrentRun(s: State, steps: seq<Step>): (State, seq<Step>)
    requires Feasible(s, steps)
    decreases |steps|
  {
    if Crashes(steps) then CurrentRun(Next(s, steps[0]), steps[1..]) else (s, steps)
  }

  lemma CrashesTail(steps: seq<Step>)
    requires Crashes(steps)
    ensures steps[0] == Life(Crash) || Crashes(steps[1..])
  {
    var i :| 0 <= i < |steps| && steps[i] == Life(Crash);
    assert i > 0 ==> steps[1..][i - 1] == Life(Crash);
  }

  // It is a run of its own, of a process that starts fresh.
  lemma {:induction false} CurrentRunIsARun(s: State, steps: seq<Step>)
    requires Feasible(s, steps) && Unique(s.tables) && (Init(s) || Crashes(steps))
    ensures var (b, rest) := CurrentRun(s, steps);
      Init(b) && Feasible(b, rest) && !Crashes(rest) && Exec(b, rest) == Exec(s, steps)
    decreases |steps|
  {
    if Crashes(steps) {
      CrashesTail(steps);
      StepKeepsUnique(s, steps[0]);
      CurrentRunIsARun(Next(s, steps[0]), steps[1..]);
    }
  }

  lemma StepKeepsUnique(s: State, step: Step)
    requires Unique(s.tables) && Enabled(s, step)
    ensures Unique(Next(s, step).tables)
  {
    if step.Recording? && step.r.Stores() {
      InsertAllUnique(s.tables.(events := s.tables.events[step.r.e := step.r.ty]), step.r.e, step.r.rows);
    }
  }

  /* Rows and events stay */

  // Whatever happens to the status.
  ghost predicate Extends(t: Tables, t': Tables) {
    && (forall r | r in t.reactions ::
          r in t'.reactions && t'.reactions[r].event == t.reactions[r].event
            && t'.reactions[r].handler == t.reactions[r].handler)
    && (forall e | e in t.events :: e in t'.events && t'.events[e] == t.events[e])
  }

  lemma StepExtends(s: State, step: Step)
    requires Enabled(s, step)
    ensures Extends(s.tables, Next(s, step).tables)
  {
    if step.Recording? && step.r.Stores() {
      InsertAllKeepsRows(s.tables.(events := s.tables.events[step.r.e := step.r.ty]), step.r.e, step.r.rows);
    }
  }

  lemma {:induction false} RunExtends(s: State, steps: seq<Step>)
    requires Feasible(s, steps)
    ensures Extends(s.tables, Exec(s, steps).tables)
    decreases |steps|
  {
    if steps != [] {
      StepExtends(s, steps[0]);
      RunExtends(Next(s, steps[0]), steps[1..]);
    }
  }
}
