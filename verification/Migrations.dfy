/** The migration runner: registration, ordering, and the run itself. */
module Migrations {
  import opened MigrationProtocol
  import opened MigrationOutcome
  import opened Spaces

  datatype AddResult = Added | InvalidNamespace | DuplicateNamespace | InvalidMigration

  /* Validation and order of one set */

  predicate ValidMigration(m: Migration) {
    m.version >= 1 && !Blank(m.name) && !Blank(m.sql)
  }

  ghost predicate DistinctVersions(items: seq<Migration>) {
    forall i, j | 0 <= i < j < |items| :: items[i].version != items[j].version
  }

  ghost predicate WellFormed(items: seq<Migration>) {
    DistinctVersions(items) && forall i | 0 <= i < |items| :: ValidMigration(items[i])
  }

  method ValidateMigrations(items: seq<Migration>) returns (ok: bool)
    ensures ok <==> WellFormed(items)
  {
    var seen: set<int> := {};
    for i := 0 to |items|
      invariant WellFormed(items[..i])
      invariant forall v :: v in seen <==> exists k | 0 <= k < i :: items[k].version == v
    {
      if items[i].version < 1 || Blank(items[i].name) || Blank(items[i].sql) {
        return false;
      }
      if items[i].version in seen {
        return false;
      }
      seen := seen + {items[i].version};
    }
    assert items[..|items|] == items;
    ok := true;
  }

  ghost predicate Ascending(items: seq<Migration>) {
    forall i, j | 0 <= i < j < |items| :: items[i].version < items[j].version
  }

  ghost predicate SameItems(a: seq<Migration>, b: seq<Migration>) {
    |a| == |b| && forall m :: m in a <==> m in b
  }

  method SortByVersion(items: seq<Migration>) returns (sorted: seq<Migration>)
    requires DistinctVersions(items)
    ensures Ascending(sorted) && SameItems(sorted, items)
  {
    sorted := [];
    for n := 0 to |items|
      invariant Ascending(sorted) && SameItems(sorted, items[..n])
    {
      var p := 0;
      while p < |sorted| && sorted[p].version < items[n].version
        invariant 0 <= p <= |sorted|
        invariant forall q | 0 <= q < p :: sorted[q].version < items[n].version
      {
        p := p + 1;
      }
      assert items[..n + 1] == items[..n] + [items[n]];
      assert forall q | 0 <= q < |sorted| :: sorted[q] in items[..n];
      InsertAscending(sorted, p, items[n]);
      sorted := sorted[..p] + [items[n]] + sorted[p..];
    }
    assert items[..|items|] == items;
  }

  lemma InsertAscending(items: seq<Migration>, p: nat, m: Migration)
    requires Ascending(items) && p <= |items|
    requires forall q | 0 <= q < p :: items[q].version < m.version
    requires p < |items| ==> items[p].version >= m.version
    requires forall q | 0 <= q < |items| :: items[q].version != m.version
    ensures Ascending(items[..p] + [m] + items[p..])
    ensures SameItems(items[..p] + [m] + items[p..], items + [m])
  {
    var r := items[..p] + [m] + items[p..];
    assert items == items[..p] + items[p..];
    assert forall i | 0 <= i < |r| :: r[i] == if i < p then items[i] else if i == p then m else items[i - 1];
  }

  function Insert(items: seq<Migration>, m: Migration): (r: seq<Migration>)
    decreases |items|
  {
    if items == [] || items[|items| - 1].version < m.version then items + [m]
    else Insert(items[..|items| - 1], m) + [items[|items| - 1]]
  }

  function Sorted(items: seq<Migration>): seq<Migration>
    decreases |items|
  {
    if items == [] then [] else Insert(Sorted(items[..|items| - 1]), items[|items| - 1])
  }

  lemma {:induction false} InsertKeepsAscending(items: seq<Migration>, m: Migration)
    requires Ascending(items) && forall i | 0 <= i < |items| :: items[i].version != m.version
    ensures Ascending(Insert(items, m)) && SameItems(Insert(items, m), items + [m])
    decreases |items|
  {
    if items != [] && items[|items| - 1].version > m.version {
      var front := items[..|items| - 1];
      InsertKeepsAscending(front, m);
      assert items == front + [items[|items| - 1]];
      forall i | 0 <= i < |Insert(front, m)| ensures Insert(front, m)[i].version < items[|items| - 1].version {
        assert Insert(front, m)[i] in front + [m];
      }
    }
  }

  lemma {:induction false} SortedIsAscending(items: seq<Migration>)
    requires DistinctVersions(items)
    ensures Ascending(Sorted(items)) && SameItems(Sorted(items), items)
    decreases |items|
  {
    if items != [] {
      var front := items[..|items| - 1];
      SortedIsAscending(front);
      assert items == front + [items[|items| - 1]];
      forall i | 0 <= i < |Sorted(front)| ensures Sorted(front)[i].version != items[|items| - 1].version {
        assert Sorted(front)[i] in front;
      }
      InsertKeepsAscending(Sorted(front), items[|items| - 1]);
    }
  }

  // Whatever the sorting algorithm, the result is the same.
  lemma {:induction false} OrderIsUnique(a: seq<Migration>, b: seq<Migration>)
    requires Ascending(a) && Ascending(b) && SameItems(a, b)
    ensures a == b
    decreases |a|
  {
    if a != [] {
      var x, y := a[|a| - 1], b[|b| - 1];
      assert x in b && y in a;
      assert x == y;
      SameFront(a, b);
      OrderIsUnique(a[..|a| - 1], b[..|b| - 1]);
      assert a == a[..|a| - 1] + [x] && b == b[..|b| - 1] + [y];
    }
  }

  lemma SameFront(a: seq<Migration>, b: seq<Migration>)
    requires Ascending(a) && Ascending(b) && SameItems(a, b) && a != [] && a[|a| - 1] == b[|b| - 1]
    ensures SameItems(a[..|a| - 1], b[..|b| - 1])
  {
    var front, gront := a[..|a| - 1], b[..|b| - 1];
    forall m ensures m in front <==> m in gront {
      FrontHas(a, m);
      FrontHas(b, m);
    }
  }

  lemma FrontHas(a: seq<Migration>, m: Migration)
    requires Ascending(a) && a != []
    ensures m in a[..|a| - 1] <==> m in a && m != a[|a| - 1]
  {
    assert a == a[..|a| - 1] + [a[|a| - 1]];
  }

  // So sorting in place, or in any other way, computes the one order.
  method SortSet(items: seq<Migration>) returns (sorted: seq<Migration>)
    requires DistinctVersions(items)
    ensures sorted == Sorted(items) && |sorted| == |items|
  {
    sorted := SortByVersion(items);
    SortedIsAscending(items);
    OrderIsUnique(sorted, Sorted(items));
  }

  /* The schedule of all sets */

  function Block(namespace: string, items: seq<Migration>): seq<Item> {
    seq(|items|, i requires 0 <= i < |items| => Item(namespace, items[i]))
  }

  ghost predicate Registered(seen: seq<string>, sets: map<string, seq<Migration>>) {
    && (forall i | 0 <= i < |seen| :: seen[i] in sets)
    && (forall i, j | 0 <= i < j < |seen| :: seen[i] != seen[j])
    && (forall n | n in sets :: WellFormed(sets[n]))
  }

  ghost function Plan(seen: seq<string>, sets: map<string, seq<Migration>>): seq<Item>
    requires Registered(seen, sets)
    decreases |seen|
  {
    if seen == [] then []
    else
      var last := seen[|seen| - 1];
      Plan(seen[..|seen| - 1], sets) + Block(last, Sorted(sets[last]))
  }

  // a is scheduled before b: an earlier namespace, or a smaller version in the same one.
  ghost predicate Before(seen: seq<string>, a: Item, b: Item) {
    || (exists p, q | 0 <= p < q < |seen| :: seen[p] == a.namespace && seen[q] == b.namespace)
    || (a.namespace == b.namespace && a.migration.version < b.migration.version)
  }

  lemma {:induction false} PlanHasAll(seen: seq<string>, sets: map<string, seq<Migration>>)
    requires Registered(seen, sets)
    ensures forall x :: x in Plan(seen, sets) <==> x.namespace in seen && x.migration in sets[x.namespace]
    decreases |seen|
  {
    if seen != [] {
      var front, last := seen[..|seen| - 1], seen[|seen| - 1];
      PlanHasAll(front, sets);
      SortedIsAscending(sets[last]);
      assert seen == front + [last];
      forall x: Item
        ensures x in Block(last, Sorted(sets[last])) <==> x.namespace == last && x.migration in sets[last]
      {
        BlockHas(last, Sorted(sets[last]), x);
      }
    }
  }

  lemma BlockHas(namespace: string, items: seq<Migration>, x: Item)
    ensures x in Block(namespace, items) <==> x.namespace == namespace && x.migration in items
  {
    if x.namespace == namespace && x.migration in items {
      var i :| 0 <= i < |items| && items[i] == x.migration;
      assert Block(namespace, items)[i] == x;
    }
  }

  lemma {:induction false} PlanIsOrdered(seen: seq<string>, sets: map<string, seq<Migration>>)
    requires Registered(seen, sets)
    ensures forall i, j | 0 <= i < j < |Plan(seen, sets)| :: Before(seen, Plan(seen, sets)[i], Plan(seen, sets)[j])
    decreases |seen|
  {
    if seen != [] {
      var front, last := seen[..|seen| - 1], seen[|seen| - 1];
      PlanIsOrdered(front, sets);
      PlanHasAll(front, sets);
      SortedIsAscending(sets[last]);
      var was, block := Plan(front, sets), Block(last, Sorted(sets[last]));
      forall i, j | 0 <= i < j < |was + block| ensures Before(seen, (was + block)[i], (was + block)[j]) {
        if j < |was| {
          BeforeLonger(seen, was[i], was[j]);
        } else if i < |was| {
          assert was[i] in was;
          var p :| 0 <= p < |front| && front[p] == was[i].namespace;
          assert seen[p] == was[i].namespace && seen[|seen| - 1] == last;
        }
      }
    }
  }

  lemma BeforeLonger(seen: seq<string>, a: Item, b: Item)
    requires seen != [] && Before(seen[..|seen| - 1], a, b)
    ensures Before(seen, a, b)
  {
    var front := seen[..|seen| - 1];
    if !(a.namespace == b.namespace && a.migration.version < b.migration.version) {
      var p, q :| 0 <= p < q < |front| && front[p] == a.namespace && front[q] == b.namespace;
      assert seen[p] == a.namespace && seen[q] == b.namespace;
    }
  }

  lemma {:induction false} PlanKeysDistinct(seen: seq<string>, sets: map<string, seq<Migration>>)
    requires Registered(seen, sets)
    ensures DistinctKeys(Plan(seen, sets))
  {
    PlanIsOrdered(seen, sets);
    forall i, j | 0 <= i < j < |Plan(seen, sets)| ensures KeyOf(Plan(seen, sets)[i]) != KeyOf(Plan(seen, sets)[j]) {
      assert Before(seen, Plan(seen, sets)[i], Plan(seen, sets)[j]);
    }
  }

  // Whatever the crashes, everything scheduled before a migration with a row is clean:
  // all earlier namespaces, and all smaller versions of its own.
  lemma {:induction false} EverythingBeforeIsClean(seen: seq<string>, sets: map<string, seq<Migration>>,
      steps: seq<Step>, a: Item, b: Item)
    requires Registered(seen, sets) && Follows(steps, Plan(seen, sets))
    requires Feasible(Site(EMPTY, map[]), steps)
    requires a in Plan(seen, sets) && b in Plan(seen, sets) && Before(seen, a, b)
    requires KeyOf(b) in Exec(Site(EMPTY, map[]), steps).journal.rows
    ensures Exec(Site(EMPTY, map[]), steps).journal.Clean(KeyOf(a))
  {
    var plan := Plan(seen, sets);
    PlanKeysDistinct(seen, sets);
    var n := RowsArePrefix(steps, plan);
    var i: nat :| i < |plan| && plan[i] == a;
    var j: nat :| j < |plan| && plan[j] == b;
    BeforeIsEarlier(seen, sets, i, j);
    RowWithin(Exec(Site(EMPTY, map[]), steps).journal, plan, n, j);
  }

  // The rows reach up to a migration that has one.
  lemma RowWithin(journal: Journal, plan: seq<Item>, n: nat, j: nat)
    requires DistinctKeys(plan) && RowsUpTo(journal, plan, n) && j < |plan| && KeyOf(plan[j]) in journal.rows
    ensures j < n
  {
  }

  lemma {:induction false} BeforeIsEarlier(seen: seq<string>, sets: map<string, seq<Migration>>, i: nat, j: nat)
    requires Registered(seen, sets) && i < |Plan(seen, sets)| && j < |Plan(seen, sets)|
    requires Before(seen, Plan(seen, sets)[i], Plan(seen, sets)[j])
    ensures i < j
  {
    PlanIsOrdered(seen, sets);
    BeforeIsStrict(seen, Plan(seen, sets)[i], Plan(seen, sets)[j]);
  }

  lemma BeforeIsStrict(seen: seq<string>, a: Item, b: Item)
    requires forall i, j | 0 <= i < j < |seen| :: seen[i] != seen[j]
    requires Before(seen, a, b)
    ensures a != b && !Before(seen, b, a)
  {
  }

  /* The database and the runner */

  // script is what becomes of the statements to come.
  class Database {
    var journal: Journal
    var script: seq<Fate>

    method Draw() returns (f: Fate)
      modifies this`script
      ensures f == NextFate(old(script)) && script == AfterNext(old(script))
    {
      if |script| == 0 {
        return Fine;
      }
      f := script[0];
      script := script[1..];
    }

    method CreateTable() returns (ok: bool)
      modifies this`script
      ensures script == AfterNext(old(script)) && ok == NextFate(old(script)).Fine?
    {
      var fate := Draw();
      ok := fate.Fine?;
    }

    method Status(k: Key) returns (dirty: bool, found: bool, ok: bool)
      modifies this`script
      ensures script == AfterNext(old(script)) && ok == NextFate(old(script)).Fine?
      ensures ok ==> found == (k in journal.rows) && dirty == journal.Dirty(k)
    {
      var fate := Draw();
      ok := fate.Fine?;
      found := k in journal.rows;
      dirty := journal.Dirty(k);
    }

    method MarkDirty(k: Key) returns (ok: bool)
      modifies this
      ensures script == AfterNext(old(script)) && journal == Inserted(old(journal), k, NextFate(old(script)))
      ensures ok == (NextFate(old(script)).Fine? && k !in old(journal).rows)
    {
      var fate := Draw();
      ok := fate.Fine? && k !in journal.rows;
      journal := Inserted(journal, k, fate);
    }

    method Execute(item: Item) returns (ok: bool)
      modifies this
      ensures script == AfterNext(old(script)) && journal == Executed(old(journal), item, NextFate(old(script)))
      ensures ok == NextFate(old(script)).Fine?
    {
      var fate := Draw();
      ok := fate.Fine?;
      journal := Executed(journal, item, fate);
    }

    method MarkClean(k: Key) returns (ok: bool)
      modifies this
      ensures script == AfterNext(old(script)) && journal == Cleaned(old(journal), k, NextFate(old(script)))
      ensures ok == NextFate(old(script)).Fine?
    {
      var fate := Draw();
      ok := fate.Fine?;
      journal := Cleaned(journal, k, fate);
    }
  }

  class Runner {
    var sets: map<string, seq<Migration>>
    var seen: seq<string>

    ghost predicate Valid()
      reads this
    {
      Registered(seen, sets) && forall n | n in sets :: n in seen
    }

    constructor ()
      ensures Valid() && seen == [] && sets == map[]
    {
      sets, seen := map[], [];
    }

    method Add(name: string, items: seq<Migration>) returns (r: AddResult)
      requires Valid()
      modifies this
      ensures Valid()
      ensures r == if Blank(name) then InvalidNamespace
                   else if TrimSpace(name) in old(sets) then DuplicateNamespace
                   else if !WellFormed(items) then InvalidMigration
                   else Added
      ensures sets == if r == Added then old(sets)[TrimSpace(name) := items] else old(sets)
      ensures seen == if r == Added then old(seen) + [TrimSpace(name)] else old(seen)
    {
      var namespace := TrimSpace(name);
      TrimsToNothing(name);
      if namespace == "" {
        return InvalidNamespace;
      }
      if namespace in sets {
        return DuplicateNamespace;
      }
      var ok := ValidateMigrations(items);
      if !ok {
        return InvalidMigration;
      }
      sets := sets[namespace := items];
      seen := seen + [namespace];
      r := Added;
    }

    // The body of the inner loop: one migration of the schedule. It has a clean row in the end, and its SQL was
    // started if it had none; or its row was dirty and nothing happened; or one of the four statements failed.
    method RunOne(db: Database, item: Item) returns (r: Result)
      modifies db
      ensures Done(r, db.journal, db.script) == ItemRun(old(db.journal), item, old(db.script))
      ensures r.Finished? ==> db.journal.Clean(KeyOf(item))
      ensures r.Finished? ==>
        db.journal.attempts == old(db.journal.attempts) + if KeyOf(item) in old(db.journal).rows then [] else [item]
      ensures r.DirtyMigration? ==>
        r.key == KeyOf(item) && old(db.journal).Dirty(r.key) && db.journal == old(db.journal)
      ensures r.Stopped? ==> exists k :: 0 <= k < 4 && FateAt(old(db.script), k).Broken?
    {
      ghost var script := db.script;
      FirstFates(script);
      var dirty, found, ok := db.Status(KeyOf(item));
      if !ok {
        return Stopped;
      }
      if found {
        return if dirty then DirtyMigration(KeyOf(item)) else Finished;
      }
      ok := db.MarkDirty(KeyOf(item));
      if !ok {
        return Stopped;
      }
      ok := db.Execute(item);
      if !ok {
        return Stopped;
      }
      ok := db.MarkClean(KeyOf(item));
      r := if ok then Finished else Stopped;
    }

    // The same, with what the schedule is behind it.
    method RunAt(db: Database, item: Item, ghost plan: seq<Item>, ghost at: nat) returns (r: Result)
      requires at < |plan| && plan[at] == item
      modifies db
      ensures PlanRun(old(db.journal), plan, at, old(db.script)) ==
        if r.Finished? then PlanRun(db.journal, plan, at + 1, db.script) else Done(r, db.journal, db.script)
    {
      r := RunOne(db, item);
    }

    // The body of the outer loop: one namespace.
    method RunSet(db: Database, namespace: string, ghost plan: seq<Item>, ghost base: nat) returns (r: Result)
      requires SetStands(namespace, sets, plan, base)
      modifies db
      ensures PlanRun(old(db.journal), plan, base, old(db.script)) ==
        if r.Finished? then PlanRun(db.journal, plan, base + |sets[namespace]|, db.script)
        else Done(r, db.journal, db.script)
    {
      var sorted := SortSet(sets[namespace]);
      ghost var whole := PlanRun(db.journal, plan, base, db.script);
      for m := 0 to |sorted|
        invariant whole == PlanRun(db.journal, plan, base + m, db.script)
      {
        ItemStands(namespace, sets, plan, base, sorted, m);
        r := RunAt(db, Item(namespace, sorted[m]), plan, base + m);
        if !r.Finished? {
          return;
        }
      }
      r := Finished;
    }

    // The same for namespace s of the schedule, which stands from base to next.
    method RunNth(db: Database, s: nat, ghost base: nat) returns (r: Result, ghost next: nat)
      requires Valid() && s < |seen| && base == |Plan(seen[..s], sets)|
      modifies db
      ensures next == |Plan(seen[..s + 1], sets)|
      ensures PlanRun(old(db.journal), Plan(seen, sets), base, old(db.script)) ==
        if r.Finished? then PlanRun(db.journal, Plan(seen, sets), next, db.script)
        else Done(r, db.journal, db.script)
    {
      BlockInPlan(seen, sets, s);
      next := base + |sets[seen[s]]|;
      r := RunSet(db, seen[s], Plan(seen, sets), base);
    }

    method RunSets(db: Database) returns (r: Result)
      requires Valid()
      modifies db
      ensures Done(r, db.journal, db.script) == PlanRun(old(db.journal), Plan(seen, sets), 0, old(db.script))
    {
      ghost var whole, base := PlanRun(db.journal, Plan(seen, sets), 0, db.script), 0;
      for s := 0 to |seen|
        invariant base == |Plan(seen[..s], sets)|
        invariant whole == PlanRun(db.journal, Plan(seen, sets), base, db.script)
      {
        r, base := RunNth(db, s, base);
        if !r.Finished? {
          return;
        }
      }
      assert seen[..|seen|] == seen;
      r := Finished;
    }

    // The run is the one of the protocol for the fates that the database has in store. It stops only at a
    // failed statement or at the first dirty row; otherwise it runs what has no row, in order, and leaves the
    // schedule clean. No migration is attempted twice, and on a clean schedule a run does nothing.
    method Run(db: Database) returns (r: Result, ghost fates: seq<Fate>)
      requires Valid()
      modifies db
      ensures Drawn(old(db.script), fates, db.script)
      ensures Solo(old(db.journal), Plan(seen, sets), fates) == (db.journal, Over(r))
      ensures Accounted(old(db.journal), Plan(seen, sets), fates, r, db.journal)
      ensures Honest(old(db.journal)) ==> Honest(db.journal)
      ensures Honest(old(db.journal)) && CleanBefore(old(db.journal), Plan(seen, sets), |Plan(seen, sets)|) ==>
                db.journal == old(db.journal)
    {
      ghost var plan, start, script := Plan(seen, sets), db.journal, db.script;
      var ok := db.CreateTable();
      if ok {
        r := RunSets(db);
      } else {
        r := Stopped;
      }
      fates := WholeIsSolo(start, plan, script);
      PlanKeysDistinct(seen, sets);
      SoloIsAccounted(start, plan, fates, r);
      if Honest(start) {
        SoloResults(start, plan, fates);
      }
    }
  }

  // The sorted migrations of namespace occupy plan from position base on.
  ghost predicate SetStands(namespace: string, sets: map<string, seq<Migration>>, plan: seq<Item>, base: nat) {
    && namespace in sets
    && DistinctVersions(sets[namespace])
    && base + |sets[namespace]| <= |plan|
    && StandsAt(plan, base, Block(namespace, Sorted(sets[namespace])))
  }

  lemma {:induction false} ItemStands(namespace: string, sets: map<string, seq<Migration>>, plan: seq<Item>, base: nat,
      sorted: seq<Migration>, m: nat)
    requires SetStands(namespace, sets, plan, base) && sorted == Sorted(sets[namespace]) && m < |sorted|
    ensures base + m < |plan| && plan[base + m] == Item(namespace, sorted[m])
  {
    assert plan[base + m] == Block(namespace, sorted)[m];
  }

  // block occupies plan from position base on.
  ghost predicate StandsAt(plan: seq<Item>, base: nat, block: seq<Item>) {
    base + |block| <= |plan| && forall m | 0 <= m < |block| :: plan[base + m] == block[m]
  }

  // Where the migrations of one namespace stand in the schedule.
  lemma {:induction false} BlockInPlan(seen: seq<string>, sets: map<string, seq<Migration>>, s: nat)
    requires Registered(seen, sets) && s < |seen|
    ensures |Plan(seen[..s + 1], sets)| == |Plan(seen[..s], sets)| + |sets[seen[s]]|
    ensures SetStands(seen[s], sets, Plan(seen, sets), |Plan(seen[..s], sets)|)
  {
    assert seen[..s + 1][..s] == seen[..s];
    PlanPrefix(seen, sets, s + 1);
    PrefixStands(Plan(seen[..s], sets), Block(seen[s], Sorted(sets[seen[s]])), Plan(seen, sets));
    SortedIsAscending(sets[seen[s]]);
  }

  lemma PrefixStands(front: seq<Item>, block: seq<Item>, plan: seq<Item>)
    requires front + block <= plan
    ensures StandsAt(plan, |front|, block)
  {
    forall m | 0 <= m < |block| ensures plan[|front| + m] == block[m] {
      assert (front + block)[|front| + m] == block[m];
    }
  }

  lemma {:induction false} PlanPrefix(seen: seq<string>, sets: map<string, seq<Migration>>, n: nat)
    requires Registered(seen, sets) && n <= |seen|
    ensures Plan(seen[..n], sets) <= Plan(seen, sets)
    decreases |seen|
  {
    if n == |seen| {
      assert seen[..n] == seen;
    } else {
      var front := seen[..|seen| - 1];
      PlanPrefix(front, sets, n);
      assert front[..n] == seen[..n];
    }
  }
}
