/** What becomes of a migration run that is alone on the database, statement by statement: it fails only
    where a statement fails or a row is dirty, and otherwise does what is missing. */
module MigrationOutcome {
  import opened MigrationProtocol

  // The items without a row, in the order of the plan.
  function Missing(plan: seq<Item>, j: Journal): seq<Item>
    decreases |plan|
  {
    if plan == [] then []
    else
      var last := plan[|plan| - 1];
      Missing(plan[..|plan| - 1], j) + if KeyOf(last) in j.rows then [] else [last]
  }

  // The journal after an undisturbed run over items, none of which is dirty.
  function Ran(j: Journal, items: seq<Item>): Journal
    decreases |items|
  {
    if items == [] then j
    else
      var before, last := Ran(j, items[..|items| - 1]), items[|items| - 1];
      if KeyOf(last) in j.rows then before
      else Journal(before.rows[KeyOf(last) := false], before.attempts + [last], before.completed + {KeyOf(last)})
  }

  ghost predicate NoneDirty(j: Journal, items: seq<Item>) {
    forall i | 0 <= i < |items| :: !j.Dirty(KeyOf(items[i]))
  }

  predicate Listed(items: seq<Item>, k: Key) {
    exists i | 0 <= i < |items| :: KeyOf(items[i]) == k
  }

  lemma ListedNext(items: seq<Item>, k: Key)
    requires items != []
    ensures Listed(items, k) <==> Listed(items[..|items| - 1], k) || KeyOf(items[|items| - 1]) == k
  {
    var front := items[..|items| - 1];
    assert forall i | 0 <= i < |front| :: items[i] == front[i];
  }

  lemma {:induction false} RanAttempts(j: Journal, items: seq<Item>)
    ensures Ran(j, items).attempts == j.attempts + Missing(items, j)
    decreases |items|
  {
    if items != [] {
      RanAttempts(j, items[..|items| - 1]);
    }
  }

  lemma {:induction false} RanRow(j: Journal, items: seq<Item>, k: Key)
    ensures k in Ran(j, items).rows <==> k in j.rows || Listed(items, k)
    ensures k in Ran(j, items).rows ==> Ran(j, items).rows[k] == (k in j.rows && j.rows[k])
    decreases |items|
  {
    if items != [] {
      RanRow(j, items[..|items| - 1], k);
      ListedNext(items, k);
    }
  }

  // Nothing before plan[at] is dirty, and plan[at] has no row.
  ghost predicate IsNext(j: Journal, plan: seq<Item>, at: nat) {
    at < |plan| && NoneDirty(j, plan[..at]) && KeyOf(plan[at]) !in j.rows
  }

  // plan[at] is the first dirty item, and n the journal after all before it.
  ghost predicate StopsDirty(j: Journal, plan: seq<Item>, n: Journal, k: Key, at: nat) {
    && at < |plan| && NoneDirty(j, plan[..at])
    && KeyOf(plan[at]) == k && j.Dirty(k) && n == Ran(j, plan[..at])
  }

  // The journal where a run alone stands, as long as no statement of it has failed.
  ghost predicate OnTrack(j: Journal, plan: seq<Item>, n: Journal, c: Cursor) {
    match c
    case Opening => n == j
    case Reading(at) => at < |plan| && NoneDirty(j, plan[..at]) && n == Ran(j, plan[..at])
    case Inserting(at) => IsNext(j, plan, at) && n == Ran(j, plan[..at])
    case Executing(at) =>
      IsNext(j, plan, at) && n == Ran(j, plan[..at]).(rows := Ran(j, plan[..at]).rows[KeyOf(plan[at]) := true])
    case Cleaning(at) => IsNext(j, plan, at) && n == WithAttempt(Ran(j, plan[..at]), plan[at])
    case Over(Finished) => NoneDirty(j, plan) && n == Ran(j, plan)
    case Over(DirtyMigration(k)) => exists at :: StopsDirty(j, plan, n, k, at)
    case Over(Stopped) => true
  }

  function WithAttempt(b: Journal, item: Item): Journal {
    Journal(b.rows[KeyOf(item) := true], b.attempts + [item], b.completed + {KeyOf(item)})
  }

  lemma {:induction false} RanNext(j: Journal, plan: seq<Item>, at: nat)
    requires at < |plan|
    ensures Ran(j, plan[..at + 1]) ==
      if KeyOf(plan[at]) in j.rows then Ran(j, plan[..at])
      else WithAttempt(Ran(j, plan[..at]), plan[at]).(rows := Ran(j, plan[..at]).rows[KeyOf(plan[at]) := false])
  {
    assert plan[..at + 1][..at] == plan[..at] && plan[..at + 1][at] == plan[at];
  }

  lemma {:induction false} RowOfNext(j: Journal, plan: seq<Item>, at: nat)
    requires DistinctKeys(plan) && at < |plan|
    ensures KeyOf(plan[at]) in Ran(j, plan[..at]).rows <==> KeyOf(plan[at]) in j.rows
    ensures KeyOf(plan[at]) in j.rows ==> Ran(j, plan[..at]).rows[KeyOf(plan[at])] == j.rows[KeyOf(plan[at])]
  {
    RanRow(j, plan[..at], KeyOf(plan[at]));
    assert forall i | 0 <= i < at :: plan[..at][i] == plan[i];
  }

  lemma NoneDirtyNext(j: Journal, plan: seq<Item>, at: nat)
    requires at < |plan| && NoneDirty(j, plan[..at]) && !j.Dirty(KeyOf(plan[at]))
    ensures NoneDirty(j, plan[..at + 1])
  {
    assert forall i | 0 <= i < at :: plan[..at + 1][i] == plan[..at][i];
  }

  // The item at is done with: on to the next one.
  lemma {:induction false} PassesOn(j: Journal, plan: seq<Item>, at: nat)
    requires at < |plan| && NoneDirty(j, plan[..at]) && !j.Dirty(KeyOf(plan[at]))
    ensures OnTrack(j, plan, Ran(j, plan[..at + 1]), Next(plan, at + 1))
  {
    NoneDirtyNext(j, plan, at);
    assert plan[..|plan|] == plan;
  }

  lemma {:induction false} ReadOnTrack(j: Journal, plan: seq<Item>, at: nat)
    requires DistinctKeys(plan) && at < |plan| && NoneDirty(j, plan[..at])
    ensures var n := Ran(j, plan[..at]); OnTrack(j, plan, n, AfterRead(n, plan, at))
    ensures AfterRead(Ran(j, plan[..at]), plan, at) != Over(Stopped)
  {
    var n, k := Ran(j, plan[..at]), KeyOf(plan[at]);
    RowOfNext(j, plan, at);
    if j.Dirty(k) {
      assert StopsDirty(j, plan, n, k, at);
    } else if k in j.rows {
      RanNext(j, plan, at);
      PassesOn(j, plan, at);
    }
  }

  lemma {:induction false} CleanOnTrack(j: Journal, plan: seq<Item>, at: nat)
    requires IsNext(j, plan, at)
    ensures var n := WithAttempt(Ran(j, plan[..at]), plan[at]);
      OnTrack(j, plan, Cleaned(n, KeyOf(plan[at]), Fine), Next(plan, at + 1))
  {
    RanNext(j, plan, at);
    PassesOn(j, plan, at);
    var b, k := Ran(j, plan[..at]), KeyOf(plan[at]);
    assert b.rows[k := true][k := false] == b.rows[k := false];
  }

  lemma {:induction false} StepOnTrack(j: Journal, plan: seq<Item>, n: Journal, c: Cursor, f: Fate)
    requires DistinctKeys(plan) && OnTrack(j, plan, n, c) && InPlan(plan, c)
    ensures var (m, d) := Advance(n, plan, c, f);
      OnTrack(j, plan, m, d) && (d == Over(Stopped) && c != Over(Stopped) ==> f.Broken?)
  {
    if f.Fine? {
      match c {
        case Opening => assert plan[..0] == [] && (plan == [] ==> plan[..0] == plan);
        case Reading(at) => ReadOnTrack(j, plan, at);
        case Inserting(at) => RowOfNext(j, plan, at);
        case Cleaning(at) => CleanOnTrack(j, plan, at);
        case _ =>
      }
    }
  }

  ghost predicate SomeBroken(fates: seq<Fate>) {
    exists i | 0 <= i < |fates| :: fates[i].Broken?
  }

  lemma {:induction false} SoloOnTrack(j: Journal, plan: seq<Item>, fates: seq<Fate>)
    requires DistinctKeys(plan)
    ensures OnTrack(j, plan, Solo(j, plan, fates).0, Solo(j, plan, fates).1)
    ensures Solo(j, plan, fates).1 == Over(Stopped) ==> SomeBroken(fates)
    decreases |fates|
  {
    if fates != [] {
      var front, last := fates[..|fates| - 1], fates[|fates| - 1];
      SoloOnTrack(j, plan, front);
      StepOnTrack(j, plan, Solo(j, plan, front).0, Solo(j, plan, front).1, last);
      if SomeBroken(front) {
        var i :| 0 <= i < |front| && front[i].Broken?;
        assert fates[i].Broken?;
      }
    }
  }

  // What a result means: a stop comes from a failed statement, a dirty migration is the first dirty row of the
  // plan, and success leaves the whole plan clean. Either way the SQL that was started without a failure is
  // that of the items without a row, in the order of the plan.
  ghost predicate Accounted(j: Journal, plan: seq<Item>, fates: seq<Fate>, r: Result, n: Journal) {
    match r
    case Stopped => SomeBroken(fates)
    case DirtyMigration(k) => exists at | 0 <= at < |plan| ::
      && KeyOf(plan[at]) == k && j.Dirty(k) && NoneDirty(j, plan[..at])
      && n.attempts == j.attempts + Missing(plan[..at], j)
    case Finished =>
      && NoneDirty(j, plan) && (forall i | 0 <= i < |plan| :: n.Clean(KeyOf(plan[i])))
      && n.attempts == j.attempts + Missing(plan, j)
  }

  lemma {:induction false} SoloIsAccounted(j: Journal, plan: seq<Item>, fates: seq<Fate>, r: Result)
    requires DistinctKeys(plan) && Solo(j, plan, fates).1 == Over(r)
    ensures Accounted(j, plan, fates, r, Solo(j, plan, fates).0)
  {
    var n := Solo(j, plan, fates).0;
    SoloOnTrack(j, plan, fates);
    match r {
      case Stopped =>
      case DirtyMigration(k) =>
        var at: nat :| StopsDirty(j, plan, n, k, at);
        RanAttempts(j, plan[..at]);
      case Finished =>
        RanAttempts(j, plan);
        forall i | 0 <= i < |plan| ensures n.Clean(KeyOf(plan[i])) {
          RanRow(j, plan, KeyOf(plan[i]));
        }
    }
  }

  // So a run whose statements all work succeeds if and only if no row of its plan is dirty.
  lemma {:induction false} FineRunSucceedsIff(j: Journal, plan: seq<Item>, fates: seq<Fate>, r: Result)
    requires DistinctKeys(plan) && Solo(j, plan, fates).1 == Over(r) && !SomeBroken(fates)
    ensures r == Finished <==> NoneDirty(j, plan)
  {
    SoloIsAccounted(j, plan, fates, r);
    if r.DirtyMigration? {
      var at :| 0 <= at < |plan| && KeyOf(plan[at]) == r.key && j.Dirty(r.key);
    }
  }

  /* What the database has in store */

  // The fate of the next statement: the next one of the script, and fine when that is used up.
  function NextFate(script: seq<Fate>): Fate {
    if script == [] then Fine else script[0]
  }

  function AfterNext(script: seq<Fate>): seq<Fate> {
    if script == [] then [] else script[1..]
  }

  // The fate of the k-th statement from here on.
  function FateAt(script: seq<Fate>, k: nat): Fate {
    if k < |script| then script[k] else Fine
  }

  lemma FirstFates(s: seq<Fate>)
    ensures NextFate(s) == FateAt(s, 0) && NextFate(AfterNext(s)) == FateAt(s, 1)
    ensures NextFate(AfterNext(AfterNext(s))) == FateAt(s, 2)
    ensures NextFate(AfterNext(AfterNext(AfterNext(s)))) == FateAt(s, 3)
  {
  }

  // So many statements met these fates, and left this much of the script.
  ghost predicate Drawn(script: seq<Fate>, fates: seq<Fate>, left: seq<Fate>) {
    && (forall i: nat | i < |fates| :: fates[i] == FateAt(script, i))
    && left == if |fates| <= |script| then script[|fates|..] else []
  }

  lemma DrawNext(script: seq<Fate>, fates: seq<Fate>, left: seq<Fate>)
    requires Drawn(script, fates, left)
    ensures Drawn(script, fates + [NextFate(left)], AfterNext(left))
  {
  }

  /* A whole run, statement by statement */

  // How a piece of a run ended, the journal behind it, and what is left of the script.
  datatype Done = Done(result: Result, journal: Journal, left: seq<Fate>)

  // One migration: read its row, insert a dirty one, run the SQL, mark the row clean.
  function ItemRun(j: Journal, item: Item, s: seq<Fate>): Done {
    var k, s1 := KeyOf(item), AfterNext(s);
    if !NextFate(s).Fine? then Done(Stopped, j, s1)
    else if k in j.rows then Done(if j.rows[k] then DirtyMigration(k) else Finished, j, s1)
    else if !NextFate(s1).Fine? then Done(Stopped, Inserted(j, k, NextFate(s1)), AfterNext(s1))
    else MarkedRun(Inserted(j, k, Fine), item, AfterNext(s1))
  }

  // From the SQL on.
  function MarkedRun(j: Journal, item: Item, s: seq<Fate>): Done {
    var j1, s1 := Executed(j, item, NextFate(s)), AfterNext(s);
    if !NextFate(s).Fine? then Done(Stopped, j1, s1)
    else Done(if NextFate(s1).Fine? then Finished else Stopped, Cleaned(j1, KeyOf(item), NextFate(s1)), AfterNext(s1))
  }

  // The plan from position at on.
  function PlanRun(j: Journal, plan: seq<Item>, at: nat, s: seq<Fate>): Done
    decreases |plan| - at
  {
    if at >= |plan| then Done(Finished, j, s)
    else
      var d := ItemRun(j, plan[at], s);
      if d.result.Finished? then PlanRun(d.journal, plan, at + 1, d.left) else d
  }

  function WholeRun(j: Journal, plan: seq<Item>, s: seq<Fate>): Done {
    if NextFate(s).Fine? then PlanRun(j, plan, 0, AfterNext(s)) else Done(Stopped, j, AfterNext(s))
  }

  // fates, drawn from script, lead a run over plan from start to journal and cursor c, with this script left.
  ghost predicate Leads(start: Journal, script: seq<Fate>, plan: seq<Item>, fates: seq<Fate>, j: Journal,
      left: seq<Fate>, c: Cursor) {
    Drawn(script, fates, left) && Solo(start, plan, fates) == (j, c)
  }

  // One more statement.
  lemma {:induction false} LeadsOn(start: Journal, script: seq<Fate>, plan: seq<Item>, fates: seq<Fate>, j: Journal,
      left: seq<Fate>, c: Cursor) returns (more: seq<Fate>)
    requires Leads(start, script, plan, fates, j, left, c)
    ensures var (n, d) := Advance(j, plan, c, NextFate(left));
      Leads(start, script, plan, more, n, AfterNext(left), d)
  {
    more := fates + [NextFate(left)];
    assert more[..|fates|] == fates;
    DrawNext(script, fates, left);
  }

  // Where a piece of a run leads.
  function Reached(d: Done, next: Cursor): Cursor {
    if d.result.Finished? then next else Over(d.result)
  }

  lemma {:induction false} ItemLeads(start: Journal, script: seq<Fate>, plan: seq<Item>, fates: seq<Fate>, j: Journal,
      left: seq<Fate>, at: nat) returns (more: seq<Fate>)
    requires at < |plan| && Leads(start, script, plan, fates, j, left, Reading(at))
    ensures var d := ItemRun(j, plan[at], left);
      Leads(start, script, plan, more, d.journal, d.left, Reached(d, Next(plan, at + 1)))
  {
    more := LeadsOn(start, script, plan, fates, j, left, Reading(at));
    if NextFate(left).Fine? && KeyOf(plan[at]) !in j.rows {
      var left1 := AfterNext(left);
      more := LeadsOn(start, script, plan, more, j, left1, Inserting(at));
      if NextFate(left1).Fine? {
        more := MarkedLeads(start, script, plan, more, Inserted(j, KeyOf(plan[at]), Fine), AfterNext(left1), at);
      }
    }
  }

  lemma {:induction false} MarkedLeads(start: Journal, script: seq<Fate>, plan: seq<Item>, fates: seq<Fate>,
      j: Journal, left: seq<Fate>, at: nat) returns (more: seq<Fate>)
    requires at < |plan| && Leads(start, script, plan, fates, j, left, Executing(at))
    ensures var d := MarkedRun(j, plan[at], left);
      Leads(start, script, plan, more, d.journal, d.left, Reached(d, Next(plan, at + 1)))
  {
    more := LeadsOn(start, script, plan, fates, j, left, Executing(at));
    if NextFate(left).Fine? {
      more := LeadsOn(start, script, plan, more, Executed(j, plan[at], Fine), AfterNext(left), Cleaning(at));
    }
  }

  lemma {:induction false} PlanLeads(start: Journal, script: seq<Fate>, plan: seq<Item>, fates: seq<Fate>, j: Journal,
      left: seq<Fate>, at: nat) returns (more: seq<Fate>)
    requires at <= |plan| && Leads(start, script, plan, fates, j, left, Next(plan, at))
    ensures var d := PlanRun(j, plan, at, left); Leads(start, script, plan, more, d.journal, d.left, Over(d.result))
    decreases |plan| - at
  {
    if at == |plan| {
      more := fates;
    } else {
      more := ItemLeads(start, script, plan, fates, j, left, at);
      var d := ItemRun(j, plan[at], left);
      if d.result.Finished? {
        more := PlanLeads(start, script, plan, more, d.journal, d.left, at + 1);
      }
    }
  }

  // A whole run is the run alone of the protocol, for the fates the script has in store.
  lemma {:induction false} WholeIsSolo(j: Journal, plan: seq<Item>, script: seq<Fate>) returns (fates: seq<Fate>)
    ensures var d := WholeRun(j, plan, script);
      Drawn(script, fates, d.left) && Solo(j, plan, fates) == (d.journal, Over(d.result))
  {
    fates := LeadsOn(j, script, plan, [], j, script, Opening);
    if NextFate(script).Fine? {
      fates := PlanLeads(j, script, plan, fates, j, AfterNext(script), 0);
    }
  }
}
