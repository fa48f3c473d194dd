/** The memory store: objects, their full-text rows and their embeddings, and the search over them. */
module MemoryStore {
  import opened Options
  import opened Fusion

  type Content = string
  type Vector = seq<real>

  datatype Object = Object(content: Content, session: string)
  datatype FtsRow = FtsRow(id: Id, content: Content)
  datatype Hit = Hit(id: Id, obj: Object)
  datatype SearchResult = Found(hits: seq<Hit>) | SearchFailed

  // The full-text table has no key of its own: one row per object, with its content, is upkeep.
  ghost predicate FtsInSync(objects: map<Id, Object>, fts: seq<FtsRow>) {
    DistinctRows(fts) && RowsCurrent(objects, fts) && forall id | id in objects :: HasRow(fts, id)
  }

  ghost predicate DistinctRows(fts: seq<FtsRow>) {
    forall i, j | 0 <= i < j < |fts| :: fts[i].id != fts[j].id
  }

  ghost predicate RowsCurrent(objects: map<Id, Object>, fts: seq<FtsRow>) {
    forall row | row in fts :: row.id in objects && row.content == objects[row.id].content
  }

  ghost predicate HasRow(fts: seq<FtsRow>, id: Id) {
    exists row | row in fts :: row.id == id
  }

  // Every object has an embedding, that of the content it has now, and nothing else has one.
  ghost predicate VecInSync(objects: map<Id, Object>, vec: map<Id, Vector>, embed: Content -> Vector) {
    vec.Keys == objects.Keys && forall id | id in objects :: vec[id] == embed(objects[id].content)
  }

  // Put with an embedder, or of a content that embeds like the one it replaces.
  predicate KeepsVec(objects: map<Id, Object>, id: Id, obj: Object, embedded: bool, embed: Content -> Vector) {
    embedded || (id in objects && embed(objects[id].content) == embed(obj.content))
  }

  // DELETE FROM memory_objects_fts WHERE id = ?
  function Without(fts: seq<FtsRow>, id: Id): (r: seq<FtsRow>)
    ensures forall row :: row in r <==> row in fts && row.id != id
    decreases |fts|
  {
    if fts == [] then []
    else
      var last := fts[|fts| - 1];
      assert fts == fts[..|fts| - 1] + [last];
      Without(fts[..|fts| - 1], id) + if last.id != id then [last] else []
  }

  lemma {:induction false} WithoutKeepsDistinct(fts: seq<FtsRow>, id: Id)
    requires DistinctRows(fts)
    ensures DistinctRows(Without(fts, id))
    decreases |fts|
  {
    if fts != [] {
      var front, last := fts[..|fts| - 1], fts[|fts| - 1];
      WithoutKeepsDistinct(front, id);
      forall i | 0 <= i < |Without(front, id)| ensures Without(front, id)[i].id != last.id {
        assert Without(front, id)[i] in front;
      }
    }
  }

  // Delete and insert: the row of one object is replaced, all others stay.
  lemma {:induction false} ReplaceKeepsSync(objects: map<Id, Object>, fts: seq<FtsRow>, id: Id, obj: Object)
    requires FtsInSync(objects, fts)
    ensures FtsInSync(objects[id := obj], Without(fts, id) + [FtsRow(id, obj.content)])
  {
    var rest, row := Without(fts, id), FtsRow(id, obj.content);
    WithoutKeepsDistinct(fts, id);
    RowAdded(rest, row);
    forall k | k in objects[id := obj] ensures HasRow(rest + [row], k) {
      if k != id {
        var old_ :| old_ in fts && old_.id == k;
        assert old_ in rest + [row];
      } else {
        assert row in rest + [row];
      }
    }
  }

  lemma RowAdded(rest: seq<FtsRow>, row: FtsRow)
    requires DistinctRows(rest) && forall r | r in rest :: r.id != row.id
    ensures DistinctRows(rest + [row])
    ensures forall r :: r in rest + [row] <==> r in rest || r == row
  {
    forall i | 0 <= i < |rest| ensures rest[i].id != row.id {
      assert rest[i] in rest;
    }
  }

  // The objects that still exist, in the order of ids.
  function Present(ids: seq<Id>, objects: map<Id, Object>): seq<Hit>
    decreases |ids|
  {
    if ids == [] then []
    else
      var last := ids[|ids| - 1];
      Present(ids[..|ids| - 1], objects) + if last in objects then [Hit(last, objects[last])] else []
  }

  lemma {:induction false} AllPresent(ids: seq<Id>, objects: map<Id, Object>)
    requires forall i | 0 <= i < |ids| :: ids[i] in objects
    ensures |Present(ids, objects)| == |ids|
    ensures forall i | 0 <= i < |ids| :: Present(ids, objects)[i] == Hit(ids[i], objects[ids[i]])
    decreases |ids|
  {
    if ids != [] {
      AllPresent(ids[..|ids| - 1], objects);
    }
  }

  lemma PutVec(objects: map<Id, Object>, vec: map<Id, Vector>, id: Id, obj: Object, vector: Option<Vector>,
               embed: Content -> Vector)
    requires vector.Some? ==> vector.value == embed(obj.content)
    ensures VecInSync(objects, vec, embed) ==>
      (VecInSync(objects[id := obj], if vector.Some? then vec[id := vector.value] else vec, embed) <==>
       KeepsVec(objects, id, obj, vector.Some?, embed))
  {
    var objects', vec' := objects[id := obj], if vector.Some? then vec[id := vector.value] else vec;
    if VecInSync(objects, vec, embed) {
      assert objects'.Keys == objects.Keys + {id};
      assert vector.Some? ==> vec'.Keys == vec.Keys + {id};
      if VecInSync(objects', vec', embed) {
        assert id in objects';
        assert id in vec'.Keys;
      }
    }
  }

  // The best ids of the fused lists, in order, as far as their objects exist.
  ghost predicate FusedHits(hits: seq<Hit>, ftsHits: seq<Id>, vecHits: seq<Id>, limit: nat, objects: map<Id, Object>) {
    exists ids :: IsTop(ids, Ranks(ftsHits), Ranks(vecHits), limit) && hits == Present(ids, objects)
  }

  // Ids of both lists come before ids of one, and none of them is missing behind one.
  predicate InBoth(ftsHits: seq<Id>, vecHits: seq<Id>, id: Id) {
    id in ftsHits && id in vecHits
  }

  ghost predicate BothFirst(ids: seq<Id>, ftsHits: seq<Id>, vecHits: seq<Id>) {
    forall i, j | 0 <= i < j < |ids| && InBoth(ftsHits, vecHits, ids[j]) :: InBoth(ftsHits, vecHits, ids[i])
  }

  function HitIds(hits: seq<Hit>): seq<Id> {
    seq(|hits|, i requires 0 <= i < |hits| => hits[i].id)
  }

  // The hits that Search fetches for a limit up to 30: at most twice the limit, each once.
  lemma TopPutsBothFirst(ids: seq<Id>, ftsHits: seq<Id>, vecHits: seq<Id>, limit: nat)
    requires limit <= 30 && Fetched(ftsHits, limit) && Fetched(vecHits, limit)
    requires IsTop(ids, Ranks(ftsHits), Ranks(vecHits), limit)
    ensures BothFirst(ids, ftsHits, vecHits)
    ensures forall a, b | InBoth(ftsHits, vecHits, a) && b in ids && !InBoth(ftsHits, vecHits, b) :: a in ids
  {
    SmallLimitDominates(limit);
    assert Dominates(ftsHits, vecHits);
    DominanceOrders(ids, ftsHits, vecHits, limit);
  }

  lemma DominanceOrders(ids: seq<Id>, ftsHits: seq<Id>, vecHits: seq<Id>, limit: nat)
    requires Dominates(ftsHits, vecHits) && IsTop(ids, Ranks(ftsHits), Ranks(vecHits), limit)
    ensures BothFirst(ids, ftsHits, vecHits)
    ensures forall a, b | InBoth(ftsHits, vecHits, a) && b in ids && !InBoth(ftsHits, vecHits, b) :: a in ids
  {
    IdsOfRanks(ftsHits);
    IdsOfRanks(vecHits);
    forall i, j | 0 <= i < j < |ids| && InBoth(ftsHits, vecHits, ids[j]) ensures InBoth(ftsHits, vecHits, ids[i]) {
      assert ids[i] in Union(Ranks(ftsHits), Ranks(vecHits));
      assert Ahead(Ranks(ftsHits), Ranks(vecHits), ids[i], ids[j]);
    }
    assert forall id | id in ids :: id in Union(Ranks(ftsHits), Ranks(vecHits));
  }

  lemma {:induction false} PresentKeepsBothFirst(ids: seq<Id>, objects: map<Id, Object>, ftsHits: seq<Id>,
      vecHits: seq<Id>)
    requires BothFirst(ids, ftsHits, vecHits)
    ensures BothFirst(HitIds(Present(ids, objects)), ftsHits, vecHits)
    ensures forall hit | hit in Present(ids, objects) :: hit.id in ids
    decreases |ids|
  {
    if ids != [] {
      var front, last := ids[..|ids| - 1], ids[|ids| - 1];
      PresentKeepsBothFirst(front, objects, ftsHits, vecHits);
      var hits := Present(front, objects);
      forall i | 0 <= i < |hits| && InBoth(ftsHits, vecHits, last) ensures InBoth(ftsHits, vecHits, hits[i].id) {
        assert hits[i] in hits;
        var k :| 0 <= k < |front| && front[k] == hits[i].id;
        assert ids[k] == front[k];
      }
      var was, now := HitIds(hits), HitIds(Present(ids, objects));
      assert was <= now;
      assert forall i | |was| <= i < |now| :: now[i] == last;
    }
  }

  class Store {
    var objects: map<Id, Object>
    var fts: seq<FtsRow>
    var vec: map<Id, Vector>

    constructor ()
      ensures FtsInSync(objects, fts) && objects == map[] && vec == map[]
    {
      objects, fts, vec := map[], [], map[];
    }

    // vector is what the embedder gives for the content, None without an embedder; fails says whether the
    // embedder or a statement of the transaction fails. The full-text index is kept in sync. The vector index is,
    // if and only if there is an embedder, or the object is there already and its content embeds as before.
    method Put(id: Id, obj: Object, vector: Option<Vector>, fails: bool, ghost embed: Content -> Vector)
        returns (ok: bool)
      requires vector.Some? ==> vector.value == embed(obj.content)
      modifies this
      ensures ok == !fails
      ensures ok && old(VecInSync(objects, vec, embed)) ==>
        (VecInSync(objects, vec, embed) <==> KeepsVec(old(objects), id, obj, vector.Some?, embed))
      ensures old(FtsInSync(objects, fts)) ==> FtsInSync(objects, fts)
      ensures objects == if ok then old(objects)[id := obj] else old(objects)
      ensures vec == if ok && vector.Some? then old(vec)[id := vector.value] else old(vec)
      ensures fts == if ok then Without(old(fts), id) + [FtsRow(id, obj.content)] else old(fts)
    {
      if fails {
        return false;   // rollback
      }
      if FtsInSync(objects, fts) {
        ReplaceKeepsSync(objects, fts, id, obj);
      }
      PutVec(objects, vec, id, obj, vector, embed);
      objects := objects[id := obj];
      fts := Without(fts, id);
      fts := fts + [FtsRow(id, obj.content)];
      if vector.Some? {
        vec := vec[id := vector.value];
      }
      ok := true;
    }

    // The hits of the two searches come from outside; vecHits is None without an embedder and
    // when the embedding or the vector search fails; fails says whether the objects can be fetched.
    method Search(ftsHits: Option<seq<Id>>, vecHits: Option<seq<Id>>, limit: nat, fails: bool)
        returns (r: SearchResult)
      ensures ftsHits.None? ==> r.SearchFailed?
      ensures ftsHits.Some? && !fails ==> r.Found?
      ensures fails && r.Found? ==> r.hits == []
      ensures r.Found? && limit <= 30 &&
              Fetched(ftsHits.value, limit) && (vecHits.Some? ==> Fetched(vecHits.value, limit)) ==>
        BothFirst(HitIds(r.hits), ftsHits.value, if vecHits.Some? then vecHits.value else [])
      ensures r.Found? ==> FusedHits(r.hits, ftsHits.value, if vecHits.Some? then vecHits.value else [], limit, objects)
    {
      if ftsHits.None? {
        return SearchFailed;
      }
      var vecIDs := if vecHits.Some? then vecHits.value else [];
      var ids := Rrf(Ranks(ftsHits.value), Ranks(vecIDs), limit);
      if fails && |ids| > 0 {
        return SearchFailed;
      }
      var hits: seq<Hit> := [];
      for i := 0 to |ids|
        invariant hits == Present(ids[..i], objects)
      {
        assert ids[..i + 1][..i] == ids[..i];
        if ids[i] in objects {
          hits := hits + [Hit(ids[i], objects[ids[i]])];
        }
      }
      assert ids[..|ids|] == ids;
      r := Found(hits);
      if limit <= 30 && Fetched(ftsHits.value, limit) && Fetched(vecIDs, limit) {
        TopPutsBothFirst(ids, ftsHits.value, vecIDs, limit);
        PresentKeepsBothFirst(ids, objects, ftsHits.value, vecIDs);
      }
    }
  }

  /* Runs of Puts, with and without an embedder */

  datatype PutCall = PutCall(id: Id, obj: Object, embedded: bool)

  datatype Tables = Tables(objects: map<Id, Object>, vec: map<Id, Vector>)

  function AfterPuts(calls: seq<PutCall>, embed: Content -> Vector): Tables
    decreases |calls|
  {
    if calls == [] then Tables(map[], map[])
    else
      var t, c := AfterPuts(calls[..|calls| - 1], embed), calls[|calls| - 1];
      Tables(t.objects[c.id := c.obj], if c.embedded then t.vec[c.id := embed(c.obj.content)] else t.vec)
  }

  // The content of the last Put of id, or of the last one with an embedder.
  function LastContent(calls: seq<PutCall>, id: Id, embedded: bool): Option<Content>
    decreases |calls|
  {
    if calls == [] then None
    else
      var c := calls[|calls| - 1];
      if c.id == id && (c.embedded || !embedded) then Some(c.obj.content)
      else LastContent(calls[..|calls| - 1], id, embedded)
  }

  lemma {:induction false} TablesHold(calls: seq<PutCall>, embed: Content -> Vector, id: Id)
    ensures var t := AfterPuts(calls, embed);
      && (id in t.objects <==> LastContent(calls, id, false).Some?)
      && (id in t.objects ==> t.objects[id].content == LastContent(calls, id, false).value)
      && (id in t.vec <==> LastContent(calls, id, true).Some?)
      && (id in t.vec ==> t.vec[id] == embed(LastContent(calls, id, true).value))
      && (id in t.vec ==> id in t.objects)
    decreases |calls|
  {
    if calls != [] {
      TablesHold(calls[..|calls| - 1], embed, id);
    }
  }

  // What was last embedded for id embeds like what is stored now.
  predicate UpToDate(calls: seq<PutCall>, embed: Content -> Vector, id: Id) {
    LastContent(calls, id, false).Some? ==>
      && LastContent(calls, id, true).Some?
      && embed(LastContent(calls, id, true).value) == embed(LastContent(calls, id, false).value)
  }

  // After any Puts the vector index is in sync if and only if, of every object, the last content that was
  // put with an embedder embeds like the last content.
  lemma {:induction false} VecInSyncAfterPutsIff(calls: seq<PutCall>, embed: Content -> Vector)
    ensures VecInSync(AfterPuts(calls, embed).objects, AfterPuts(calls, embed).vec, embed) <==>
      forall id :: UpToDate(calls, embed, id)
  {
    var t := AfterPuts(calls, embed);
    forall id: Id
      ensures UpToDate(calls, embed, id) <==>
        (id in t.objects ==> id in t.vec && t.vec[id] == embed(t.objects[id].content))
    {
      TablesHold(calls, embed, id);
    }
    forall id | id in t.vec ensures id in t.objects {
      TablesHold(calls, embed, id);
    }
    if VecInSync(t.objects, t.vec, embed) {
      assert forall id | id in t.objects :: id in t.vec.Keys;
    }
    if forall id :: UpToDate(calls, embed, id) {
      forall id ensures id in t.vec <==> id in t.objects {
        assert UpToDate(calls, embed, id);
      }
      assert t.vec.Keys == t.objects.Keys;
    }
  }

  // Replacing an embedded object without an embedder leaves its old embedding behind.
  lemma ReplaceWithoutEmbedderIsStale(embed: Content -> Vector, a: Object, b: Object)
    requires embed(a.content) != embed(b.content)
    ensures var t := AfterPuts([PutCall(1, a, true), PutCall(1, b, false)], embed);
      t.objects == map[1 := b] && t.vec == map[1 := embed(a.content)] && !VecInSync(t.objects, t.vec, embed)
  {
    var calls := [PutCall(1, a, true), PutCall(1, b, false)];
    var first := calls[..1];
    assert first == [PutCall(1, a, true)] && first[..0] == [];
    assert AfterPuts(first, embed) == Tables(map[1 := a], map[1 := embed(a.content)]);
    assert map[1 := a][1 := b] == map[1 := b];
    assert 1 in AfterPuts(calls, embed).objects;
  }

  // With hits that come from synchronised indexes, the search returns the fused order, complete.
  lemma {:induction false} InSyncSearchIsComplete(objects: map<Id, Object>, ids: seq<Id>, ftsHits: seq<Id>,
      vecHits: seq<Id>, limit: nat)
    requires IsTop(ids, Ranks(ftsHits), Ranks(vecHits), limit)
    requires (forall i | 0 <= i < |ftsHits| :: ftsHits[i] in objects)
      && (forall i | 0 <= i < |vecHits| :: vecHits[i] in objects)
    ensures |Present(ids, objects)| == |ids|
    ensures forall i | 0 <= i < |ids| :: Present(ids, objects)[i] == Hit(ids[i], objects[ids[i]])
  {
    forall i | 0 <= i < |ids| ensures ids[i] in objects {
      assert ids[i] in Union(Ranks(ftsHits), Ranks(vecHits));
      if ids[i] in Ids(Ranks(ftsHits)) {
        var k :| 0 <= k < |ftsHits| && Ranks(ftsHits)[k].id == ids[i];
        assert ftsHits[k] == ids[i];
      } else {
        var k :| 0 <= k < |vecHits| && Ranks(vecHits)[k].id == ids[i];
        assert vecHits[k] == ids[i];
      }
    }
    AllPresent(ids, objects);
  }
}
