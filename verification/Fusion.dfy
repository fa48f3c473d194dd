/** Reciprocal rank fusion of a full-text and a vector result list. Scores are reals. */
module Fusion {
  import opened Counting

  type Id = int

  datatype Ranked = Ranked(id: Id, rank: nat)

  const RRF_K := 60

  function Weight(rank: nat): real {
    1.0 / (RRF_K + rank + 1) as real
  }

  // What the entries of a list add to the score of id.
  function Score(list: seq<Ranked>, id: Id): real
    decreases |list|
  {
    if list == [] then 0.0
    else Score(list[..|list| - 1], id) + if list[|list| - 1].id == id then Weight(list[|list| - 1].rank) else 0.0
  }

  function Total(fts: seq<Ranked>, vec: seq<Ranked>, id: Id): real {
    Score(fts, id) + Score(vec, id)
  }

  function Ids(list: seq<Ranked>): set<Id> {
    set i | 0 <= i < |list| :: list[i].id
  }

  function Union(fts: seq<Ranked>, vec: seq<Ranked>): set<Id> {
    Ids(fts) + Ids(vec)
  }

  // The order of the result: higher score first, equal scores by id.
  predicate Ahead(fts: seq<Ranked>, vec: seq<Ranked>, a: Id, b: Id) {
    Total(fts, vec, a) > Total(fts, vec, b) || (Total(fts, vec, a) == Total(fts, vec, b) && a < b)
  }

  // The best limit ids, in order.
  ghost predicate IsTop(ids: seq<Id>, fts: seq<Ranked>, vec: seq<Ranked>, limit: nat) {
    && |ids| == (if |Union(fts, vec)| < limit then |Union(fts, vec)| else limit)
    && (forall i | 0 <= i < |ids| :: ids[i] in Union(fts, vec))
    && (forall i, j | 0 <= i < j < |ids| :: Ahead(fts, vec, ids[i], ids[j]))
    && (forall i, id | 0 <= i < |ids| && id in Union(fts, vec) && id !in ids :: Ahead(fts, vec, ids[i], id))
  }

  /* rrf */

  // scores is what the accumulation has made of the two lists.
  ghost predicate ScoresOf(scores: map<Id, real>, fts: seq<Ranked>, vec: seq<Ranked>) {
    scores.Keys == Union(fts, vec) && forall id | id in scores :: scores[id] == Total(fts, vec, id)
  }

  lemma {:induction false} AbsentScoresNothing(list: seq<Ranked>, id: Id)
    requires id !in Ids(list)
    ensures Score(list, id) == 0.0
    decreases |list|
  {
    if list != [] {
      assert list[|list| - 1].id in Ids(list);
      var front := list[..|list| - 1];
      assert forall i | 0 <= i < |front| :: front[i] == list[i];
      AbsentScoresNothing(front, id);
    }
  }

  lemma IdsNext(list: seq<Ranked>, i: nat)
    requires i < |list|
    ensures Ids(list[..i + 1]) == Ids(list[..i]) + {list[i].id}
    ensures forall id ::
              Score(list[..i + 1], id) ==
              Score(list[..i], id) + if list[i].id == id then Weight(list[i].rank) else 0.0
  {
    assert list[..i + 1][..i] == list[..i];
    assert list[..i + 1] == list[..i] + [list[i]];
  }

  method Accumulate(scores0: map<Id, real>, ghost done: seq<Ranked>, list: seq<Ranked>) returns (scores: map<Id, real>)
    requires ScoresOf(scores0, done, [])
    ensures ScoresOf(scores, done, list)
  {
    scores := scores0;
    assert list[..0] == [];
    for i := 0 to |list|
      invariant ScoresOf(scores, done, list[..i])
    {
      IdsNext(list, i);
      var id := list[i].id;
      if id !in scores {
        AbsentScoresNothing(done, id);
        AbsentScoresNothing(list[..i], id);
      }
      scores := scores[id := (if id in scores then scores[id] else 0.0) + 1.0 / (RRF_K + list[i].rank + 1) as real];
    }
    assert list[..|list|] == list;
  }

  predicate Less(scores: map<Id, real>, a: Id, b: Id)
    requires a in scores && b in scores
  {
    if scores[a] != scores[b] then scores[a] > scores[b] else a < b
  }

  ghost predicate SortedBy(scores: map<Id, real>, ids: seq<Id>) {
    && (forall i | 0 <= i < |ids| :: ids[i] in scores)
    && (forall i, j | 0 <= i < j < |ids| :: Less(scores, ids[i], ids[j]))
  }

  // Any correct sort will do: the order is total, so the result is determined (TopIsUnique).
  method SortIds(scores: map<Id, real>, ids: seq<Id>) returns (sorted: seq<Id>)
    requires forall i | 0 <= i < |ids| :: ids[i] in scores
    requires forall i, j | 0 <= i < j < |ids| :: ids[i] != ids[j]
    ensures SortedBy(scores, sorted) && |sorted| == |ids|
    ensures forall id :: id in sorted <==> id in ids
  {
    sorted := [];
    for n := 0 to |ids|
      invariant SortedBy(scores, sorted) && |sorted| == n
      invariant forall id :: id in sorted <==> id in ids[..n]
    {
      var x := ids[n];
      assert x !in ids[..n];
      var p := 0;
      while p < |sorted| && Less(scores, sorted[p], x)
        invariant 0 <= p <= |sorted|
        invariant forall q | 0 <= q < p :: Less(scores, sorted[q], x)
      {
        p := p + 1;
      }
      InsertSorted(scores, sorted, p, x);
      assert ids[..n + 1] == ids[..n] + [x];
      sorted := sorted[..p] + [x] + sorted[p..];
    }
    assert ids[..|ids|] == ids;
  }

  lemma InsertSorted(scores: map<Id, real>, ids: seq<Id>, p: nat, x: Id)
    requires SortedBy(scores, ids) && x in scores && x !in ids && p <= |ids|
    requires forall q | 0 <= q < p :: Less(scores, ids[q], x)
    requires p < |ids| ==> !Less(scores, ids[p], x)
    ensures SortedBy(scores, ids[..p] + [x] + ids[p..])
    ensures forall id :: id in ids[..p] + [x] + ids[p..] <==> id in ids || id == x
  {
    var r := ids[..p] + [x] + ids[p..];
    assert forall q | p <= q < |ids| :: Less(scores, x, ids[q]);
    assert forall i | 0 <= i < |r| :: r[i] == if i < p then ids[i] else if i == p then x else ids[i - 1];
    forall id | id in ids ensures id in r {
      var i :| 0 <= i < |ids| && ids[i] == id;
      assert r[if i < p then i else i + 1] == id;
    }
    assert r[p] == x;
  }

  // The keys of a Go map, in whatever order the iteration takes.
  method MapKeys<K(==), V>(m: map<K, V>) returns (keys: seq<K>)
    ensures forall k :: k in keys <==> k in m
    ensures forall i, j | 0 <= i < j < |keys| :: keys[i] != keys[j]
    ensures |keys| == |m.Keys|
  {
    keys := [];
    var left := m.Keys;
    while left != {}
      invariant left <= m.Keys
      invariant forall k :: k in keys <==> k in m && k !in left
      invariant forall i, j | 0 <= i < j < |keys| :: keys[i] != keys[j]
      invariant |keys| + |left| == |m.Keys|
      decreases |left|
    {
      var k :| k in left;
      left := left - {k};
      keys := keys + [k];
    }
  }

  method Rrf(fts: seq<Ranked>, vec: seq<Ranked>, limit: nat) returns (ids: seq<Id>)
    ensures IsTop(ids, fts, vec, limit)
  {
    assert ScoresOf(map[], [], []);
    var scores := Accumulate(map[], [], fts);
    assert ScoresOf(scores, fts, []);
    scores := Accumulate(scores, fts, vec);
    var keys := MapKeys(scores);
    ids := SortIds(scores, keys);
    ghost var all := ids;
    if |ids| > limit {
      ids := ids[..limit];
    }
    CutIsTop(scores, all, ids, fts, vec, limit);
  }

  lemma CutIsTop(scores: map<Id, real>, all: seq<Id>, ids: seq<Id>, fts: seq<Ranked>, vec: seq<Ranked>, limit: nat)
    requires ScoresOf(scores, fts, vec) && SortedBy(scores, all)
    requires forall id :: id in all <==> id in Union(fts, vec)
    requires |all| == |Union(fts, vec)|
    requires ids == if |all| > limit then all[..limit] else all
    ensures IsTop(ids, fts, vec, limit)
  {
    assert forall k | 0 <= k < |ids| :: all[k] == ids[k];
    forall i, id | 0 <= i < |ids| && id in Union(fts, vec) && id !in ids ensures Ahead(fts, vec, ids[i], id) {
      var j :| 0 <= j < |all| && all[j] == id;
      assert Less(scores, all[i], all[j]);
    }
  }

  /* The result is determined */

  function AheadOf(fts: seq<Ranked>, vec: seq<Ranked>, id: Id): set<Id> {
    set x | x in Union(fts, vec) && Ahead(fts, vec, x, id)
  }

  // Exactly i ids are ahead of the one at position i.
  lemma PositionCounts(ids: seq<Id>, fts: seq<Ranked>, vec: seq<Ranked>, limit: nat, i: nat)
    requires IsTop(ids, fts, vec, limit) && i < |ids|
    ensures |AheadOf(fts, vec, ids[i])| == i
  {
    var front := ids[..i];
    assert forall a, b | 0 <= a < b < |front| :: Ahead(fts, vec, ids[a], ids[b]);
    DistinctCount(front);
    forall x | x in AheadOf(fts, vec, ids[i]) ensures x in front {
      assert x in ids;
      var j :| 0 <= j < |ids| && ids[j] == x;
      assert j < i;
      assert front[j] == x;
    }
    assert AheadOf(fts, vec, ids[i]) == set id | id in front;
  }

  lemma SameCountSameId(fts: seq<Ranked>, vec: seq<Ranked>, a: Id, b: Id)
    requires a in Union(fts, vec) && b in Union(fts, vec)
    requires |AheadOf(fts, vec, a)| == |AheadOf(fts, vec, b)|
    ensures a == b
  {
    if a != b {
      var x, y := if Ahead(fts, vec, a, b) then a else b, if Ahead(fts, vec, a, b) then b else a;
      assert AheadOf(fts, vec, x) + {x} <= AheadOf(fts, vec, y);
      SubsetCount(AheadOf(fts, vec, x) + {x}, AheadOf(fts, vec, y));
    }
  }

  // Whatever order the map was iterated in and whatever sort was used, the result is the same.
  lemma TopIsUnique(a: seq<Id>, b: seq<Id>, fts: seq<Ranked>, vec: seq<Ranked>, limit: nat)
    requires IsTop(a, fts, vec, limit) && IsTop(b, fts, vec, limit)
    ensures a == b
  {
    forall i | 0 <= i < |a| ensures a[i] == b[i] {
      PositionCounts(a, fts, vec, limit, i);
      PositionCounts(b, fts, vec, limit, i);
      SameCountSameId(fts, vec, a[i], b[i]);
    }
  }

  lemma SwappedListsSameTop(a: seq<Id>, b: seq<Id>, fts: seq<Ranked>, vec: seq<Ranked>, limit: nat)
    requires IsTop(a, fts, vec, limit) && IsTop(b, vec, fts, limit)
    ensures a == b
  {
    assert Union(fts, vec) == Union(vec, fts);
    assert forall x, y :: Ahead(fts, vec, x, y) == Ahead(vec, fts, x, y);
    TopIsUnique(a, b, fts, vec, limit);
  }

  /* Results as Search fetches them */

  // A result list: the rank is the position.
  function Ranks(ids: seq<Id>): seq<Ranked> {
    seq(|ids|, i requires 0 <= i < |ids| => Ranked(ids[i], i))
  }

  ghost predicate Distinct(ids: seq<Id>) {
    forall i, j | 0 <= i < j < |ids| :: ids[i] != ids[j]
  }

  lemma IdsOfRanks(ids: seq<Id>)
    ensures forall id :: id in Ids(Ranks(ids)) <==> id in ids
  {
    assert forall i | 0 <= i < |ids| :: Ranks(ids)[i].id == ids[i];
  }

  // A list of distinct ids gives the one at position i the weight 1 / (60 + i + 1).
  lemma {:induction false} ScoreAtPosition(ids: seq<Id>, i: nat)
    requires Distinct(ids) && i < |ids|
    ensures Score(Ranks(ids), ids[i]) == Weight(i) == 1.0 / (61 + i) as real
    decreases |ids|
  {
    var front := ids[..|ids| - 1];
    assert Ranks(ids)[..|ids| - 1] == Ranks(front);
    if i < |ids| - 1 {
      ScoreAtPosition(front, i);
      assert front[i] == ids[i];
    } else {
      IdsOfRanks(front);
      AbsentScoresNothing(Ranks(front), ids[i]);
    }
  }

  // The position of id in a list of distinct ids, or the length of the list when it is not there.
  predicate StandsAt(ids: seq<Id>, id: Id, i: nat) {
    (i < |ids| && ids[i] == id) || (i == |ids| && id !in ids)
  }

  // What the order of the result goes by, written out: the reciprocals of 61 and more, and then the ids.
  lemma {:induction false} TotalIs(fts: seq<Id>, vec: seq<Id>, id: Id, i: nat, j: nat)
    requires Distinct(fts) && Distinct(vec) && StandsAt(fts, id, i) && StandsAt(vec, id, j)
    ensures Total(Ranks(fts), Ranks(vec), id) ==
      (if i < |fts| then 1.0 / (61 + i) as real else 0.0) + (if j < |vec| then 1.0 / (61 + j) as real else 0.0)
  {
    IdsOfRanks(fts);
    IdsOfRanks(vec);
    if i < |fts| {
      ScoreAtPosition(fts, i);
    } else {
      AbsentScoresNothing(Ranks(fts), id);
    }
    if j < |vec| {
      ScoreAtPosition(vec, j);
    } else {
      AbsentScoresNothing(Ranks(vec), id);
    }
  }

  // Ids found first by one search each come in id order.
  lemma {:induction false} TiesGoById(a: Id, b: Id, ids: seq<Id>, limit: nat)
    requires a < b && limit >= 2
    requires IsTop(ids, Ranks([a]), Ranks([b]), limit) || IsTop(ids, Ranks([b]), Ranks([a]), limit)
    ensures ids == [a, b]
  {
    TotalIs([a], [b], a, 0, 1);
    TotalIs([a], [b], b, 1, 0);
    TotalIs([b], [a], a, 1, 0);
    TotalIs([b], [a], b, 0, 1);
    IdsOfRanks([a]);
    IdsOfRanks([b]);
    var (x, y) := if IsTop(ids, Ranks([a]), Ranks([b]), limit) then (a, b) else (b, a);
    assert Union(Ranks([x]), Ranks([y])) == {a, b} && |{a, b}| == 2;
    assert !Ahead(Ranks([x]), Ranks([y]), b, a);
    assert ids[0] in Union(Ranks([x]), Ranks([y])) && ids[1] in Union(Ranks([x]), Ranks([y]));
    assert Ahead(Ranks([x]), Ranks([y]), ids[0], ids[1]);
  }

  lemma InverseFalls(a: real, b: real)
    requires 0.0 < a < b
    ensures 1.0 / a > 1.0 / b > 0.0
  {
    var x, y := 1.0 / a, 1.0 / b;
    assert x * a == 1.0 && y * b == 1.0;
  }

  lemma WeightFalls(i: nat, j: nat)
    requires i < j
    ensures Weight(i) > Weight(j) > 0.0
  {
    InverseFalls((RRF_K + i + 1) as real, (RRF_K + j + 1) as real);
  }

  // Without vector results the fused list is the head of the full-text list.
  lemma EmptyVectorKeepsOrder(ids: seq<Id>, limit: nat)
    requires Distinct(ids)
    ensures IsTop(if |ids| > limit then ids[..limit] else ids, Ranks(ids), [], limit)
  {
    var fts := Ranks(ids);
    IdsOfRanks(ids);
    DistinctCount(ids);
    assert Union(fts, []) == set id | id in ids;
    forall i, j | 0 <= i < j < |ids| ensures Ahead(fts, [], ids[i], ids[j]) {
      ScoreAtPosition(ids, i);
      ScoreAtPosition(ids, j);
      WeightFalls(i, j);
    }
  }

  /* Dominance: two mentions beat one */

  // What Search can hand over for a limit: distinct ids, at most twice the limit.
  ghost predicate Fetched(ids: seq<Id>, limit: nat) {
    Distinct(ids) && |ids| <= 2 * limit
  }

  // Every id of both lists is ranked before every id of only one.
  ghost predicate Dominates(fts: seq<Id>, vec: seq<Id>) {
    forall a, b | a in fts && a in vec && ((b in fts) != (b in vec)) :: Ahead(Ranks(fts), Ranks(vec), a, b)
  }

  ghost predicate AlwaysDominates(limit: nat) {
    forall fts, vec | Fetched(fts, limit) && Fetched(vec, limit) :: Dominates(fts, vec)
  }

  lemma WeightWithin(i: nat, n: nat)
    requires i <= n
    ensures Weight(n) <= Weight(i)
  {
    if i < n {
      WeightFalls(i, n);
    }
  }

  lemma {:induction false} AtMostFirst(ids: seq<Id>, id: Id)
    requires Distinct(ids)
    ensures id in ids ==> Score(Ranks(ids), id) <= Weight(0)
    ensures id !in ids ==> Score(Ranks(ids), id) == 0.0
  {
    if id in ids {
      var i :| 0 <= i < |ids| && ids[i] == id;
      ScoreAtPosition(ids, i);
      WeightWithin(0, i);
    } else {
      IdsOfRanks(ids);
      AbsentScoresNothing(Ranks(ids), id);
    }
  }

  lemma {:induction false} AtLeastLast(ids: seq<Id>, id: Id, n: nat)
    requires Distinct(ids) && id in ids && |ids| <= n + 1
    ensures Score(Ranks(ids), id) >= Weight(n)
  {
    var i :| 0 <= i < |ids| && ids[i] == id;
    ScoreAtPosition(ids, i);
    WeightWithin(i, n);
  }

  lemma SmallLimitDominates(limit: nat)
    requires limit <= 30
    ensures AlwaysDominates(limit)
  {
    forall fts, vec | Fetched(fts, limit) && Fetched(vec, limit) ensures Dominates(fts, vec) {
      forall a, b | a in fts && a in vec && ((b in fts) != (b in vec)) ensures Ahead(Ranks(fts), Ranks(vec), a, b) {
        AtLeastLast(fts, a, 59);
        AtLeastLast(vec, a, 59);
        AtMostFirst(fts, b);
        AtMostFirst(vec, b);
        assert Weight(59) == 1.0 / 120.0 && Weight(0) == 1.0 / 61.0;
      }
    }
  }

  // A full-text list 0, 1, ... and a vector list that shares only its last id.
  function Upwards(from: Id, n: nat): seq<Id> {
    seq(n, i requires 0 <= i => from + i)
  }

  lemma LargeLimitFails(limit: nat)
    requires limit >= 31
    ensures !AlwaysDominates(limit)
  {
    var n := 2 * limit;
    var fts := Upwards(0, n);
    var vec := Upwards(n, n - 1) + [n - 1];
    assert Fetched(fts, limit) && Fetched(vec, limit);
    assert fts[0] == 0 && fts[n - 1] == n - 1 && vec[n - 1] == n - 1;
    assert 0 !in vec;
    ScoreAtPosition(fts, 0);
    ScoreAtPosition(fts, n - 1);
    ScoreAtPosition(vec, n - 1);
    IdsOfRanks(vec);
    AbsentScoresNothing(Ranks(vec), 0);
    WeightWithin(61, n - 1);
    assert Weight(61) == 1.0 / 122.0 && Weight(0) == 1.0 / 61.0;
    assert !Ahead(Ranks(fts), Ranks(vec), n - 1, 0);
    assert !Dominates(fts, vec);
  }

  // The bound of the constants: fetching 2 * limit with k = 60 keeps the promise up to limit 30, not beyond.
  lemma DominanceIff(limit: nat)
    ensures AlwaysDominates(limit) <==> limit <= 30
  {
    if limit <= 30 {
      SmallLimitDominates(limit);
    } else {
      LargeLimitFails(limit);
    }
  }
}
