/** The reaction store: the two tables, and the statements that read and change them. */
module ReactionStore {
  import opened ReactionTables

  datatype RecordResult = Stored | DuplicateEvent | RecordLost(applied: bool)
  datatype ResetResult = ResetOk | ResetFailed(applied: bool)
  datatype MarkResult = Marked | ReactionNotFound | MarkLost(applied: bool)
  datatype ClaimResult = Claimed | NotPending | ClaimLost(applied: bool)
  datatype LoadResult = Loaded(ty: EventType) | EventNotFound | LoadFailed

  datatype ListResult = Listed(ids: seq<ReactionId>) | ListFailed

  /* What becomes of statements */

  // A statement is answered, or its answer is lost in an error, which may hide that it was applied.
  datatype Answer = Given | Lost(applied: bool) {
    predicate Applied() { Given? || applied }
  }

  datatype Statement =
    | RecordReactions(e: EventId, ty: EventType, rows: seq<NewRow>)
    | ListPending(limit: int)
    | ResetRunning
    | ClaimOne(id: ReactionId)
    | MarkOne(id: ReactionId, status: Status)
    | GetEvent(e: EventId)

  datatype Sent = Sent(statement: Statement, answer: Answer)

  // The answer of the k-th statement from here on: that of the script, and given when it is used up.
  function AnswerAt(script: seq<Answer>, k: nat): Answer {
    if k < |script| then script[k] else Given
  }

  function After(script: seq<Answer>, k: nat): seq<Answer> {
    if k <= |script| then script[k..] else []
  }

  function Answered(statements: seq<Statement>, script: seq<Answer>): seq<Sent> {
    seq(|statements|, k requires 0 <= k < |statements| => Sent(statements[k], AnswerAt(script, k)))
  }

  lemma {:induction false} AnsweredConcat(sent: seq<Sent>, a: seq<Statement>, b: seq<Statement>, script: seq<Answer>)
    ensures sent + Answered(a, script) + Answered(b, After(script, |a|)) == sent + Answered(a + b, script)
    ensures After(After(script, |a|), |b|) == After(script, |a + b|)
  {
    assert Answered(a, script) + Answered(b, After(script, |a|)) == Answered(a + b, script);
  }

  const DEFAULT_LIMIT := 100

  function EffectiveLimit(limit: int): nat {
    if limit <= 0 then DEFAULT_LIMIT else limit
  }

  // Some elements of a set, in any order, all of them when there are fewer than limit.
  method TakeUpTo<K(==)>(all: set<K>, limit: nat) returns (out: seq<K>)
    ensures |out| <= limit
    ensures forall i | 0 <= i < |out| :: out[i] in all
    ensures forall i, j | 0 <= i < j < |out| :: out[i] != out[j]
    ensures |out| < limit ==> forall k | k in all :: k in out
  {
    out := [];
    var left := all;
    while left != {} && |out| < limit
      invariant |out| <= limit && left <= all
      invariant forall i | 0 <= i < |out| :: out[i] in all && out[i] !in left
      invariant forall i, j | 0 <= i < j < |out| :: out[i] != out[j]
      invariant forall k | k in all && k !in left :: k in out
      decreases |left|
    {
      var k :| k in left;
      left := left - {k};
      out := out + [k];
    }
  }

  lemma {:induction false} InsertAllNext(t: Tables, e: EventId, rows: seq<NewRow>, i: nat)
    requires i < |rows|
    ensures InsertAll(t, e, rows[..i + 1]) == InsertIgnore(InsertAll(t, e, rows[..i]), e, rows[i])
    decreases i
  {
    if i == 0 {
      assert rows[..1][1..] == [];
    } else {
      InsertAllNext(InsertIgnore(t, e, rows[0]), e, rows[1..], i - 1);
      assert rows[..i + 1][1..] == rows[1..][..i];
      assert rows[..i][1..] == rows[1..][..i - 1];
    }
  }

  lemma AllReset(start: Tables, t: Tables)
    requires t.events == start.events && t.reactions.Keys == start.reactions.Keys
    requires forall k | k in start.reactions :: t.reactions[k] ==
               if k in RunningIds(start) then start.reactions[k].(status := Pending) else start.reactions[k]
    ensures t == ResetRows(start)
  {
    var reset := ResetRows(start);
    assert reset.reactions.Keys == start.reactions.Keys;
    forall k | k in start.reactions ensures t.reactions[k] == reset.reactions[k] {
      assert k in RunningIds(start) <==> start.reactions[k].status == Running;
    }
    assert t.reactions == reset.reactions;
  }

  // script is what becomes of the statements to come, sent what was sent to the database so far. Both are of
  // one goroutine; what others send only shows in the tables.
  class Store {
    var tables: Tables
    var script: seq<Answer>
    ghost var sent: seq<Sent>

    // These statements were sent since, and got the answers that were in store for them.
    twostate predicate Sends(statements: seq<Statement>)
      reads this
    {
      && sent == old(sent) + Answered(statements, old(script))
      && script == After(old(script), |statements|)
    }

    method Send(ghost statement: Statement) returns (a: Answer)
      modifies this`script, this`sent
      ensures a == AnswerAt(old(script), 0) && Sends([statement])
    {
      a := if |script| == 0 then Given else script[0];
      sent := sent + [Sent(statement, a)];
      script := if |script| == 0 then [] else script[1..];
    }

    // One transaction: everything or nothing. An error of the commit may hide that it was made.
    method RecordEventReactions(e: EventId, ty: EventType, rows: seq<NewRow>) returns (r: RecordResult)
      modifies this
      ensures Sends([RecordReactions(e, ty, rows)])
      ensures r == if AnswerAt(old(script), 0) == Lost(false) then RecordLost(false)
                   else if e in old(tables).events then DuplicateEvent
                   else if AnswerAt(old(script), 0).Lost? then RecordLost(true)
                   else Stored
      ensures tables == if r.Stored? || r == RecordLost(true) then Recorded(old(tables), e, ty, rows) else old(tables)
    {
      var answer := Send(RecordReactions(e, ty, rows));
      var breaksAt: nat := *;
      if e in tables.events {
        return if answer == Lost(false) then RecordLost(false) else DuplicateEvent;
      }
      var tx := tables.(events := tables.events[e := ty]);
      for i := 0 to |rows|
        invariant tables == old(tables) && Sends([RecordReactions(e, ty, rows)])
        invariant tx == InsertAll(tables.(events := tables.events[e := ty]), e, rows[..i])
      {
        if answer == Lost(false) && i == breaksAt {
          return RecordLost(false);   // rollback
        }
        InsertAllNext(tables.(events := tables.events[e := ty]), e, rows, i);
        tx := InsertReaction(tx, e, rows[i]);
      }
      assert rows[..|rows|] == rows;
      if answer == Lost(false) {
        return RecordLost(false);
      }
      tables := tx;
      r := if answer.Lost? then RecordLost(true) else Stored;
    }

    // INSERT OR IGNORE, by the primary key and by UNIQUE(event_id, handler_name).
    static method InsertReaction(t: Tables, e: EventId, row: NewRow) returns (r: Tables)
      ensures r == InsertIgnore(t, e, row)
    {
      var clash := row.id in t.reactions;
      var left := t.reactions.Keys;
      while left != {} && !clash
        invariant left <= t.reactions.Keys
        invariant clash ==> row.id in t.reactions || PairStored(t, e, row.handler)
        invariant !clash ==> row.id !in t.reactions
        invariant !clash ==> forall k | k in t.reactions && k !in left ::
                               t.reactions[k].event != e || t.reactions[k].handler != row.handler
        decreases |left|
      {
        var k := PickOne(left);
        left := left - {k};
        clash := t.reactions[k].event == e && t.reactions[k].handler == row.handler;
      }
      r := if clash then t else t.(reactions := t.reactions[row.id := Reaction(e, row.handler, Pending)]);
    }

    method ListPendingReactions(limit: int) returns (r: ListResult)
      modifies this`script, this`sent
      ensures Sends([ListPending(limit)])
      ensures r.ListFailed? <==> AnswerAt(old(script), 0).Lost?
      ensures r.Listed? ==> ListAnswer(tables, EffectiveLimit(limit), r.ids)
    {
      var answer := Send(ListPending(limit));
      if answer.Lost? {
        return ListFailed;
      }
      var ids := TakeUpTo(PendingIds(tables), if limit <= 0 then DEFAULT_LIMIT else limit);
      r := Listed(ids);
    }

    method ResetRunningReactions() returns (r: ResetResult)
      modifies this
      ensures Sends([ResetRunning])
      ensures r == if AnswerAt(old(script), 0).Lost? then ResetFailed(AnswerAt(old(script), 0).applied) else ResetOk
      ensures tables == if AnswerAt(old(script), 0).Applied() then ResetRows(old(tables)) else old(tables)
    {
      var answer := Send(ResetRunning);
      r := if answer.Lost? then ResetFailed(answer.applied) else ResetOk;
      if answer.Applied() {
        ResetAll();
      }
    }

    method ResetAll()
      modifies this`tables
      ensures tables == ResetRows(old(tables))
    {
      var left := RunningIds(tables);
      ghost var start := tables;
      while left != {}
        invariant tables.events == start.events && tables.reactions.Keys == start.reactions.Keys
        invariant left <= RunningIds(start)
        invariant forall k | k in start.reactions :: tables.reactions[k] ==
                    if k in RunningIds(start) && k !in left then start.reactions[k].(status := Pending)
                    else start.reactions[k]
        decreases |left|
      {
        var k := PickOne(left);
        left := left - {k};
        tables := tables.(reactions := tables.reactions[k := tables.reactions[k].(status := Pending)]);
      }
      AllReset(start, tables);
    }

    // Compare and set. An error may hide an update that was made.
    method ClaimReaction(id: ReactionId) returns (r: ClaimResult)
      modifies this
      ensures Sends([ClaimOne(id)])
      ensures r == if AnswerAt(old(script), 0).Lost? then ClaimLost(AnswerAt(old(script), 0).applied)
                   else if old(tables).HasStatus(id, Pending) then Claimed else NotPending
      ensures tables == if AnswerAt(old(script), 0).Applied() then ClaimedRow(old(tables), id) else old(tables)
    {
      var answer := Send(ClaimOne(id));
      var affected := 0;
      if tables.HasStatus(id, Pending) && answer.Applied() {
        tables := tables.(reactions := tables.reactions[id := tables.reactions[id].(status := Running)]);
        affected := 1;
      }
      r := if answer.Lost? then ClaimLost(answer.applied) else if affected == 1 then Claimed else NotPending;
    }

    // No guard on the status that is there.
    method MarkReaction(id: ReactionId, status: Status) returns (r: MarkResult)
      modifies this
      ensures Sends([MarkOne(id, status)])
      ensures r == if AnswerAt(old(script), 0).Lost? then MarkLost(AnswerAt(old(script), 0).applied)
                   else if id in old(tables).reactions then Marked else ReactionNotFound
      ensures tables == if AnswerAt(old(script), 0).Applied() then MarkedAs(old(tables), id, status) else old(tables)
    {
      var answer := Send(MarkOne(id, status));
      var affected := 0;
      if id in tables.reactions && answer.Applied() {
        tables := tables.(reactions := tables.reactions[id := tables.reactions[id].(status := status)]);
        affected := 1;
      }
      r := if answer.Lost? then MarkLost(answer.applied) else if affected == 0 then ReactionNotFound else Marked;
    }

    method Get(e: EventId) returns (r: LoadResult)
      modifies this`script, this`sent
      ensures Sends([GetEvent(e)])
      ensures r == if AnswerAt(old(script), 0).Lost? then LoadFailed
                   else if e in tables.events then Loaded(tables.events[e]) else EventNotFound
    {
      var answer := Send(GetEvent(e));
      r := if answer.Lost? then LoadFailed else if e in tables.events then Loaded(tables.events[e]) else EventNotFound;
    }
  }

  method PickOne<K(==)>(s: set<K>) returns (k: K)
    requires s != {}
    ensures k in s
  {
    k :| k in s;
  }
}
