/** The statements a migration run sends to the database, and any number of runs at once
    on one database, each of which may fail or be killed between or during statements. */
module MigrationProtocol {

  datatype Migration = Migration(version: int, name: string, sql: string)
  datatype Item = Item(namespace: string, migration: Migration)

  // PRIMARY KEY (namespace, version)
  datatype Key = Key(namespace: string, version: int)

  function KeyOf(item: Item): Key {
    Key(item.namespace, item.migration.version)
  }

  // rows holds the dirty flag of each row. attempts and completed are what really happened:
  // every start of a migration's SQL, and the keys whose SQL ran to its end.
  datatype Journal = Journal(rows: map<Key, bool>, attempts: seq<Item>, completed: set<Key>) {
    predicate Clean(k: Key) {
      k in rows && !rows[k]
    }

    predicate Dirty(k: Key) {
      k in rows && rows[k]
    }

    predicate Attempted(k: Key) {
      exists i | 0 <= i < |attempts| :: KeyOf(attempts[i]) == k
    }
  }

  const EMPTY := Journal(map[], [], {})

  // What became of one statement. A broken one may have taken effect all the same.
  datatype Fate = Fine | Broken(applied: bool) {
    predicate Applied() { Fine? || applied }
  }

  datatype Result = Finished | DirtyMigration(key: Key) | Stopped

  // The next statement of a run: CREATE TABLE, SELECT dirty, INSERT dirty, the SQL, UPDATE clean.
  datatype Cursor = Opening | Reading(at: nat) | Inserting(at: nat) | Executing(at: nat) | Cleaning(at: nat)
                  | Over(result: Result)

  function Next(plan: seq<Item>, at: nat): Cursor {
    if at < |plan| then Reading(at) else Over(Finished)
  }

  predicate InPlan(plan: seq<Item>, c: Cursor) {
    c.Opening? || c.Over? || c.at < |plan|
  }

  function Inserted(j: Journal, k: Key, f: Fate): Journal {
    if k !in j.rows && f.Applied() then j.(rows := j.rows[k := true]) else j
  }

  function Executed(j: Journal, item: Item, f: Fate): Journal {
    j.(attempts := j.attempts + [item], completed := j.completed + if f.Applied() then {KeyOf(item)} else {})
  }

  function Cleaned(j: Journal, k: Key, f: Fate): Journal {
    if k in j.rows && f.Applied() then j.(rows := j.rows[k := false]) else j
  }

  function AfterRead(j: Journal, plan: seq<Item>, at: nat): Cursor
    requires at < |plan|
  {
    var k := KeyOf(plan[at]);
    if k !in j.rows then Inserting(at) else if j.rows[k] then Over(DirtyMigration(k)) else Next(plan, at + 1)
  }

  // One statement of one run.
  function Advance(j: Journal, plan: seq<Item>, c: Cursor, f: Fate): (Journal, Cursor)
    requires InPlan(plan, c)
  {
    match c
    case Over(_) => (j, c)
    case Opening => (j, if f.Fine? then Next(plan, 0) else Over(Stopped))
    case Reading(at) => (j, if f.Fine? then AfterRead(j, plan, at) else Over(Stopped))
    case Inserting(at) =>
      var k := KeyOf(plan[at]);
      (Inserted(j, k, f), if f.Fine? && k !in j.rows then Executing(at) else Over(Stopped))
    case Executing(at) => (Executed(j, plan[at], f), if f.Fine? then Cleaning(at) else Over(Stopped))
    case Cleaning(at) => (Cleaned(j, KeyOf(plan[at]), f), if f.Fine? then Next(plan, at + 1) else Over(Stopped))
  }

  // A run alone on the database.
  function Solo(j: Journal, plan: seq<Item>, fates: seq<Fate>): (r: (Journal, Cursor))
    ensures InPlan(plan, r.1)
    decreases |fates|
  {
    if fates == [] then (j, Opening)
    else
      var (before, c) := Solo(j, plan, fates[..|fates| - 1]);
      Advance(before, plan, c, fates[|fates| - 1])
  }

  /* Any number of runs, interleaved */

  datatype Runner = Runner(plan: seq<Item>, cursor: Cursor)
  datatype Site = Site(journal: Journal, runners: map<int, Runner>)
  datatype Step = Launch(id: int, plan: seq<Item>) | Move(id: int, fate: Fate) | Kill(id: int)

  ghost predicate Enabled(s: Site, step: Step) {
    match step
    case Launch(id, _) => id !in s.runners
    case Move(id, _) => id in s.runners && InPlan(s.runners[id].plan, s.runners[id].cursor)
    case Kill(id) => id in s.runners
  }

  function AfterMove(s: Site, id: int, f: Fate): Site
    requires id in s.runners && InPlan(s.runners[id].plan, s.runners[id].cursor)
  {
    var r := s.runners[id];
    var (j, c) := Advance(s.journal, r.plan, r.cursor, f);
    Site(j, s.runners[id := r.(cursor := c)])
  }

  function After(s: Site, step: Step): Site
    requires Enabled(s, step)
  {
    match step
    case Launch(id, plan) => s.(runners := s.runners[id := Runner(plan, Opening)])
    case Move(id, f) => AfterMove(s, id, f)
    case Kill(id) => s.(runners := s.runners - {id})
  }

  ghost predicate Feasible(s: Site, steps: seq<Step>)
    decreases |steps|
  {
    steps != [] ==> Enabled(s, steps[0]) && Feasible(After(s, steps[0]), steps[1..])
  }

  ghost function Exec(s: Site, steps: seq<Step>): Site
    requires Feasible(s, steps)
    decreases |steps|
  {
    if steps == [] then s else Exec(After(s, steps[0]), steps[1..])
  }

  /* At most once, and clean means completed */

  predicate Owns(r: Runner, k: Key) {
    (r.cursor.Executing? || r.cursor.Cleaning?) && r.cursor.at < |r.plan| && KeyOf(r.plan[r.cursor.at]) == k
  }

  // No two attempts on one key, no attempt without a row, and no clean row without a completed attempt.
  ghost predicate Honest(j: Journal) {
    && (forall a, b | 0 <= a < b < |j.attempts| :: KeyOf(j.attempts[a]) != KeyOf(j.attempts[b]))
    && (forall k | j.Attempted(k) :: k in j.rows)
    && (forall k | j.Clean(k) :: k in j.completed)
    && (forall k | k in j.completed :: j.Attempted(k))
  }

  // A run between its insert and its update is alone on its dirty row.
  ghost predicate OwnersHold(s: Site) {
    && (forall id | id in s.runners :: InPlan(s.runners[id].plan, s.runners[id].cursor))
    && (forall a, b, k | a in s.runners && b in s.runners && Owns(s.runners[a], k) && Owns(s.runners[b], k) :: a == b)
    && (forall a, k | a in s.runners && Owns(s.runners[a], k) :: HoldsRow(s.journal, s.runners[a], k))
  }

  ghost predicate HoldsRow(j: Journal, r: Runner, k: Key) {
    j.Dirty(k) && if r.cursor.Executing? then !j.Attempted(k) else k in j.completed
  }

  ghost predicate Sound(s: Site) {
    Honest(s.journal) && OwnersHold(s)
  }

  lemma AttemptedNext(j: Journal, item: Item, f: Fate)
    ensures forall k :: Executed(j, item, f).Attempted(k) <==> j.Attempted(k) || k == KeyOf(item)
  {
    var n := Executed(j, item, f);
    assert n.attempts[|j.attempts|] == item;
    forall k | j.Attempted(k) ensures n.Attempted(k) {
      var i :| 0 <= i < |j.attempts| && KeyOf(j.attempts[i]) == k;
      assert n.attempts[i] == j.attempts[i];
    }
  }

  lemma MoveKeepsHonest(s: Site, id: int, f: Fate)
    requires Sound(s) && id in s.runners
    ensures Honest(AfterMove(s, id, f).journal)
  {
    var r := s.runners[id];
    if r.cursor.Executing? {
      AttemptedNext(s.journal, r.plan[r.cursor.at], f);
      assert Owns(r, KeyOf(r.plan[r.cursor.at]));
      var was, now := s.journal.attempts, AfterMove(s, id, f).journal.attempts;
      assert forall i | 0 <= i < |was| :: now[i] == was[i];
    } else if r.cursor.Cleaning? {
      assert Owns(r, KeyOf(r.plan[r.cursor.at]));
      SameAttempts(s.journal, AfterMove(s, id, f).journal);
    } else {
      SameAttempts(s.journal, AfterMove(s, id, f).journal);
    }
  }

  lemma SameAttempts(j: Journal, j1: Journal)
    requires j1.attempts == j.attempts
    ensures forall k :: j1.Attempted(k) <==> j.Attempted(k)
  {
  }

  lemma MoveKeepsOwners(s: Site, id: int, f: Fate)
    requires Sound(s) && id in s.runners
    ensures OwnersHold(AfterMove(s, id, f))
  {
    var n := AfterMove(s, id, f);
    MoveKeepsExclusive(s, id, f);
    forall a, k | a in n.runners && Owns(n.runners[a], k) ensures HoldsRow(n.journal, n.runners[a], k) {
      if a == id {
        OwnRowAfter(s, id, f, k);
      } else {
        assert Owns(s.runners[a], k);
        OtherRowAfter(s, id, f, a, k);
      }
    }
  }

  // Only an insert that found no row takes a row, and then nobody had it.
  lemma MoveKeepsExclusive(s: Site, id: int, f: Fate)
    requires Sound(s) && id in s.runners
    ensures var n := AfterMove(s, id, f);
            forall a, b, k | a in n.runners && b in n.runners && Owns(n.runners[a], k) && Owns(n.runners[b], k) ::
              a == b
  {
    var n := AfterMove(s, id, f);
    forall a, k | a in n.runners && a != id && Owns(n.runners[a], k) ensures !Owns(n.runners[id], k) {
      assert Owns(s.runners[a], k) && HoldsRow(s.journal, s.runners[a], k);
      assert Owns(n.runners[id], k) && !s.runners[id].cursor.Inserting? ==> Owns(s.runners[id], k);
    }
  }

  lemma OwnRowAfter(s: Site, id: int, f: Fate, k: Key)
    requires Sound(s) && id in s.runners && Owns(AfterMove(s, id, f).runners[id], k)
    ensures HoldsRow(AfterMove(s, id, f).journal, AfterMove(s, id, f).runners[id], k)
  {
    if s.runners[id].cursor.Inserting? {
      SameAttempts(s.journal, AfterMove(s, id, f).journal);
    } else {
      assert Owns(s.runners[id], k) && HoldsRow(s.journal, s.runners[id], k);
    }
  }

  lemma OtherRowAfter(s: Site, id: int, f: Fate, a: int, k: Key)
    requires Sound(s) && id in s.runners && a in s.runners && a != id && Owns(s.runners[a], k)
    ensures HoldsRow(AfterMove(s, id, f).journal, s.runners[a], k)
  {
    var r := s.runners[id];
    assert HoldsRow(s.journal, s.runners[a], k);
    assert !Owns(r, k);
    if r.cursor.Executing? {
      AttemptedNext(s.journal, r.plan[r.cursor.at], f);
    } else {
      SameAttempts(s.journal, AfterMove(s, id, f).journal);
    }
  }

  lemma MoveKeepsSound(s: Site, id: int, f: Fate)
    requires Sound(s) && id in s.runners
    ensures Sound(AfterMove(s, id, f))
  {
    MoveKeepsHonest(s, id, f);
    MoveKeepsOwners(s, id, f);
  }

  lemma {:induction false} RunsKeepSound(s: Site, steps: seq<Step>)
    requires Sound(s) && Feasible(s, steps)
    ensures Sound(Exec(s, steps))
    decreases |steps|
  {
    if steps != [] {
      if steps[0].Move? {
        MoveKeepsSound(s, steps[0].id, steps[0].fate);
      }
      RunsKeepSound(After(s, steps[0]), steps[1..]);
    }
  }

  // However many runs there are, whatever their plans, and wherever each one stops.
  lemma {:induction false} AttemptedAtMostOnce(steps: seq<Step>)
    requires Feasible(Site(EMPTY, map[]), steps)
    ensures Honest(Exec(Site(EMPTY, map[]), steps).journal)
  {
    RunsKeepSound(Site(EMPTY, map[]), steps);
  }

  /* One fixed plan */

  ghost predicate DistinctKeys(plan: seq<Item>) {
    forall a, b | 0 <= a < b < |plan| :: KeyOf(plan[a]) != KeyOf(plan[b])
  }

  ghost predicate Follows(steps: seq<Step>, plan: seq<Item>) {
    forall i | 0 <= i < |steps| && steps[i].Launch? :: steps[i].plan == plan
  }

  // The first n migrations have rows and the others do not; all but the last of them are clean.
  ghost predicate RowsUpTo(j: Journal, plan: seq<Item>, n: nat) {
    && n <= |plan|
    && (forall k :: k in j.rows <==> exists i | 0 <= i < n :: KeyOf(plan[i]) == k)
    && (forall i | 0 <= i < n - 1 :: j.Clean(KeyOf(plan[i])))
  }

  ghost predicate CleanBefore(j: Journal, plan: seq<Item>, n: nat) {
    n <= |plan| && forall i | 0 <= i < n :: j.Clean(KeyOf(plan[i]))
  }

  // What a run has left behind it is clean.
  ghost predicate Passed(j: Journal, r: Runner) {
    match r.cursor
    case Opening => true
    case Over(result) => result.Finished? ==> CleanBefore(j, r.plan, |r.plan|)
    case _ => CleanBefore(j, r.plan, r.cursor.at)
  }

  ghost predicate InOrder(s: Site, plan: seq<Item>, n: nat) {
    && RowsUpTo(s.journal, plan, n)
    && AllPassed(s, plan)
  }

  ghost predicate AllPassed(s: Site, plan: seq<Item>) {
    forall id | id in s.runners :: s.runners[id].plan == plan && Passed(s.journal, s.runners[id])
  }

  // A key without a row is the first one without a row, if all before it are clean.
  lemma InsertIsNext(j: Journal, plan: seq<Item>, n: nat, at: nat)
    requires DistinctKeys(plan) && RowsUpTo(j, plan, n) && at < |plan|
    requires CleanBefore(j, plan, at) && KeyOf(plan[at]) !in j.rows
    ensures at == n
  {
    assert n < |plan| ==> KeyOf(plan[n]) !in j.rows;
  }

  lemma InsertExtends(j: Journal, plan: seq<Item>, n: nat)
    requires DistinctKeys(plan) && RowsUpTo(j, plan, n) && n < |plan|
    requires CleanBefore(j, plan, n) && KeyOf(plan[n]) !in j.rows
    ensures RowsUpTo(j.(rows := j.rows[KeyOf(plan[n]) := true]), plan, n + 1)
  {
    var j1 := j.(rows := j.rows[KeyOf(plan[n]) := true]);
    forall k ensures k in j1.rows <==> exists i | 0 <= i < n + 1 :: KeyOf(plan[i]) == k {
      if k == KeyOf(plan[n]) {
        assert k in j1.rows;
      }
    }
  }

  // Clean rows stay clean through every statement of a sound site.
  lemma CleanStays(s: Site, id: int, f: Fate)
    requires Sound(s) && id in s.runners
    ensures forall k | s.journal.Clean(k) :: AfterMove(s, id, f).journal.Clean(k)
  {
  }

  lemma MoveKeepsPassed(s: Site, id: int, f: Fate, plan: seq<Item>)
    requires Sound(s) && id in s.runners && AllPassed(s, plan)
    ensures AllPassed(AfterMove(s, id, f), plan)
  {
    var r := s.runners[id];
    CleanStays(s, id, f);
    if r.cursor.Cleaning? {
      assert Owns(r, KeyOf(plan[r.cursor.at]));
    }
  }

  lemma MoveKeepsRows(s: Site, id: int, f: Fate, plan: seq<Item>, n: nat) returns (m: nat)
    requires DistinctKeys(plan) && Sound(s) && InOrder(s, plan, n) && id in s.runners
    ensures RowsUpTo(AfterMove(s, id, f).journal, plan, m)
  {
    var r := s.runners[id];
    m := n;
    if r.cursor.Inserting? && KeyOf(plan[r.cursor.at]) !in s.journal.rows && f.Applied() {
      InsertIsNext(s.journal, plan, n, r.cursor.at);
      InsertExtends(s.journal, plan, n);
      m := n + 1;
    } else if r.cursor.Cleaning? {
      CleanKeepsRows(s.journal, plan, KeyOf(plan[r.cursor.at]), f, n);
    } else {
      SameRows(s.journal, AfterMove(s, id, f).journal, plan, n);
    }
  }

  lemma SameRows(j: Journal, j1: Journal, plan: seq<Item>, n: nat)
    requires RowsUpTo(j, plan, n) && j1.rows == j.rows
    ensures RowsUpTo(j1, plan, n)
  {
  }

  lemma MoveKeepsOrder(s: Site, id: int, f: Fate, plan: seq<Item>, n: nat) returns (m: nat)
    requires DistinctKeys(plan) && Sound(s) && InOrder(s, plan, n) && id in s.runners
    ensures InOrder(AfterMove(s, id, f), plan, m)
  {
    MoveKeepsPassed(s, id, f, plan);
    m := MoveKeepsRows(s, id, f, plan, n);
  }

  lemma CleanKeepsRows(j: Journal, plan: seq<Item>, k: Key, f: Fate, n: nat)
    requires RowsUpTo(j, plan, n)
    ensures RowsUpTo(Cleaned(j, k, f), plan, n)
  {
  }

  lemma {:induction false} RunsKeepOrder(s: Site, steps: seq<Step>, plan: seq<Item>, n: nat) returns (m: nat)
    requires DistinctKeys(plan) && Sound(s) && InOrder(s, plan, n) && Feasible(s, steps) && Follows(steps, plan)
    ensures Sound(Exec(s, steps)) && InOrder(Exec(s, steps), plan, m)
    decreases |steps|
  {
    m := n;
    if steps != [] {
      if steps[0].Move? {
        MoveKeepsSound(s, steps[0].id, steps[0].fate);
        m := MoveKeepsOrder(s, steps[0].id, steps[0].fate, plan, n);
      }
      m := RunsKeepOrder(After(s, steps[0]), steps[1..], plan, m);
    }
  }

  // With one plan the rows are always a prefix of it, all but possibly the last one clean.
  lemma RowsArePrefix(steps: seq<Step>, plan: seq<Item>) returns (n: nat)
    requires DistinctKeys(plan) && Follows(steps, plan)
    requires Feasible(Site(EMPTY, map[]), steps)
    ensures RowsUpTo(Exec(Site(EMPTY, map[]), steps).journal, plan, n)
  {
    n := RunsKeepOrder(Site(EMPTY, map[]), steps, plan, 0);
  }

  ghost predicate SomeoneFinished(s: Site, plan: seq<Item>) {
    exists id | id in s.runners :: s.runners[id] == Runner(plan, Over(Finished))
  }

  lemma {:induction false} CleanTableIsStable(s: Site, steps: seq<Step>, plan: seq<Item>)
    requires Sound(s) && CleanBefore(s.journal, plan, |plan|) && Feasible(s, steps) && Follows(steps, plan)
    requires forall id | id in s.runners :: s.runners[id].plan == plan
    ensures Exec(s, steps).journal == s.journal
    decreases |steps|
  {
    if steps != [] {
      if steps[0].Move? {
        MoveKeepsSound(s, steps[0].id, steps[0].fate);
        var r := s.runners[steps[0].id];
        if r.cursor.Executing? || r.cursor.Cleaning? {
          assert Owns(r, KeyOf(plan[r.cursor.at]));
        }
      }
      CleanTableIsStable(After(s, steps[0]), steps[1..], plan);
    }
  }

  // Once a run has succeeded, no run of the same plan touches the database again.
  lemma {:induction false} NothingRunsAfterSuccess(first: seq<Step>, later: seq<Step>, plan: seq<Item>)
    requires DistinctKeys(plan) && Follows(first, plan) && Follows(later, plan)
    requires Feasible(Site(EMPTY, map[]), first) && SomeoneFinished(Exec(Site(EMPTY, map[]), first), plan)
    requires Feasible(Exec(Site(EMPTY, map[]), first), later)
    ensures Exec(Exec(Site(EMPTY, map[]), first), later).journal == Exec(Site(EMPTY, map[]), first).journal
  {
    var n := RunsKeepOrder(Site(EMPTY, map[]), first, plan, 0);
    CleanTableIsStable(Exec(Site(EMPTY, map[]), first), later, plan);
  }

  // What can become of runs that meet the dirty row m, whoever left it behind.
  ghost predicate Blocked(s: Site, plan: seq<Item>, m: nat) {
    && m < |plan| && s.journal.Dirty(KeyOf(plan[m])) && CleanBefore(s.journal, plan, m)
    && (forall id | id in s.runners :: s.runners[id].plan == plan && BlockedAt(s.runners[id].cursor, m))
  }

  predicate BlockedAt(c: Cursor, m: nat) {
    c.Opening? || (c.Reading? && c.at <= m) || (c.Over? && !c.result.Finished?)
  }

  // A dirty row whose run is gone is final: later runs change nothing and none of them succeeds.
  lemma {:induction false} InterruptedStaysDirty(s: Site, steps: seq<Step>, plan: seq<Item>, m: nat)
    requires Blocked(s, plan, m) && Feasible(s, steps) && Follows(steps, plan)
    ensures Exec(s, steps).journal == s.journal && Blocked(Exec(s, steps), plan, m)
    decreases |steps|
  {
    if steps != [] {
      InterruptedStaysDirty(After(s, steps[0]), steps[1..], plan, m);
    }
  }

  /* A run alone is one of these */

  function Moves(id: int, fates: seq<Fate>): seq<Step> {
    seq(|fates|, i requires 0 <= i < |fates| => Move(id, fates[i]))
  }

  lemma {:induction false} FeasibleAppend(s: Site, steps: seq<Step>, last: Step)
    requires Feasible(s, steps) && Enabled(Exec(s, steps), last)
    ensures Feasible(s, steps + [last]) && Exec(s, steps + [last]) == After(Exec(s, steps), last)
    decreases |steps|
  {
    var all := steps + [last];
    if steps == [] {
      assert all[1..] == [];
    } else {
      FeasibleAppend(After(s, steps[0]), steps[1..], last);
      assert all[1..] == steps[1..] + [last];
    }
  }

  lemma {:induction false} SoloIsARun(j: Journal, plan: seq<Item>, id: int, fates: seq<Fate>)
    ensures var steps := [Launch(id, plan)] + Moves(id, fates);
            && Feasible(Site(j, map[]), steps)
            && Exec(Site(j, map[]), steps) ==
              Site(Solo(j, plan, fates).0, map[id := Runner(plan, Solo(j, plan, fates).1)])
    decreases |fates|
  {
    var start := Site(j, map[]);
    if fates == [] {
      FeasibleAppend(start, [], Launch(id, plan));
      assert [Launch(id, plan)] + Moves(id, fates) == [] + [Launch(id, plan)];
    } else {
      var front := fates[..|fates| - 1];
      SoloIsARun(j, plan, id, front);
      var steps := [Launch(id, plan)] + Moves(id, front);
      FeasibleAppend(start, steps, Move(id, fates[|fates| - 1]));
      assert [Launch(id, plan)] + Moves(id, fates) == steps + [Move(id, fates[|fates| - 1])];
    }
  }

  lemma {:induction false} RunsKeepPassed(s: Site, steps: seq<Step>, plan: seq<Item>)
    requires Sound(s) && Feasible(s, steps) && Follows(steps, plan) && AllPassed(s, plan)
    ensures AllPassed(Exec(s, steps), plan)
    decreases |steps|
  {
    if steps != [] {
      if steps[0].Move? {
        MoveKeepsSound(s, steps[0].id, steps[0].fate);
        MoveKeepsPassed(s, steps[0].id, steps[0].fate, plan);
      }
      RunsKeepPassed(After(s, steps[0]), steps[1..], plan);
    }
  }

  // What the next run on an honest database makes of it, wherever it stops.
  lemma {:induction false} SoloResults(j: Journal, plan: seq<Item>, fates: seq<Fate>)
    requires Honest(j)
    ensures Honest(Solo(j, plan, fates).0)
    ensures Solo(j, plan, fates).1 == Over(Finished) ==> CleanBefore(Solo(j, plan, fates).0, plan, |plan|)
    ensures CleanBefore(j, plan, |plan|) ==> Solo(j, plan, fates).0 == j
  {
    var start, steps := Site(j, map[]), [Launch(0, plan)] + Moves(0, fates);
    SoloIsARun(j, plan, 0, fates);
    RunsKeepSound(start, steps);
    RunsKeepPassed(start, steps, plan);
    var end := Exec(start, steps);
    assert 0 in end.runners && end.runners[0] == Runner(plan, Solo(j, plan, fates).1);
    if CleanBefore(j, plan, |plan|) {
      CleanTableIsStable(start, steps, plan);
    }
  }
}
