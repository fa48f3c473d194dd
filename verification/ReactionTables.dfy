/** The two durable tables of the reaction bus and the statements run on them.
    Every function here is one SQL statement or one transaction. */
module ReactionTables {

  type EventId = int
  type EventType = int
  type HandlerName = int
  type ReactionId = int

  datatype Status = Pending | Running | Succeeded | Failed {
    predicate Terminal() { Succeeded? || Failed? }
  }

  datatype Reaction = Reaction(event: EventId, handler: HandlerName, status: Status)

  // One row of a batch handed to RecordEventReactions.
  datatype NewRow = NewRow(id: ReactionId, handler: HandlerName)

  datatype Tables = Tables(events: map<EventId, EventType>, reactions: map<ReactionId, Reaction>) {

    predicate HasStatus(r: ReactionId, status: Status) {
      r in reactions && reactions[r].status == status
    }

    // The row exists and its event does too.
    predicate HasEvent(r: ReactionId) {
      r in reactions && reactions[r].event in events
    }

    predicate IsTerminal(r: ReactionId) {
      r in reactions && reactions[r].status.Terminal()
    }
  }

  // UNIQUE(event_id, handler_name)
  ghost predicate Unique(t: Tables) {
    forall a, b | a in t.reactions && b in t.reactions && a != b ::
      t.reactions[a].event != t.reactions[b].event || t.reactions[a].handler != t.reactions[b].handler
  }

  predicate PairStored(t: Tables, e: EventId, h: HandlerName) {
    exists r | r in t.reactions :: t.reactions[r].event == e && t.reactions[r].handler == h
  }

  function PendingIds(t: Tables): set<ReactionId> {
    set r | r in t.reactions && t.reactions[r].status == Pending
  }

  function RunningIds(t: Tables): set<ReactionId> {
    set r | r in t.reactions && t.reactions[r].status == Running
  }

  // INSERT OR IGNORE: a clash on the primary key or on the unique pair drops the row.
  function InsertIgnore(t: Tables, e: EventId, row: NewRow): Tables {
    if row.id in t.reactions || PairStored(t, e, row.handler) then t
    else t.(reactions := t.reactions[row.id := Reaction(e, row.handler, Pending)])
  }

  function InsertAll(t: Tables, e: EventId, rows: seq<NewRow>): Tables
    decreases |rows|
  {
    if rows == [] then t else InsertAll(InsertIgnore(t, e, rows[0]), e, rows[1..])
  }

  // The transaction of RecordEventReactions, for an event id not stored yet.
  function Recorded(t: Tables, e: EventId, ty: EventType, rows: seq<NewRow>): Tables {
    InsertAll(t.(events := t.events[e := ty]), e, rows)
  }

  // UPDATE ... SET status WHERE id: no guard on the current status.
  function MarkedAs(t: Tables, r: ReactionId, status: Status): Tables {
    if r in t.reactions
    then t.(reactions := t.reactions[r := t.reactions[r].(status := status)])
    else t
  }

  // UPDATE ... SET running WHERE id AND pending
  function ClaimedRow(t: Tables, r: ReactionId): Tables {
    if t.HasStatus(r, Pending) then MarkedAs(t, r, Running) else t
  }

  // UPDATE ... SET pending WHERE running
  function ResetRows(t: Tables): Tables {
    t.(reactions := map r | r in t.reactions ::
      if t.reactions[r].status == Running then t.reactions[r].(status := Pending) else t.reactions[r])
  }

  // ListPendingReactions: some pending rows, each once, all of them when the limit is not reached.
  predicate ListAnswer(t: Tables, limit: nat, ids: seq<ReactionId>) {
    && |ids| <= limit
    && (forall i | 0 <= i < |ids| :: ids[i] in PendingIds(t))
    && (forall i, j | 0 <= i < j < |ids| :: ids[i] != ids[j])
    && (|ids| < limit ==> forall r | r in PendingIds(t) :: r in ids)
  }

  function Handlers(rows: seq<NewRow>): set<HandlerName> {
    set i | 0 <= i < |rows| :: rows[i].handler
  }

  // What ulid.Make provides: ids that were never used before.
  predicate FreshIds(t: Tables, rows: seq<NewRow>) {
    && (forall i | 0 <= i < |rows| :: rows[i].id !in t.reactions)
    && (forall i, j | 0 <= i < j < |rows| :: rows[i].id != rows[j].id)
  }

  lemma {:induction false} InsertAllKeepsRows(t: Tables, e: EventId, rows: seq<NewRow>)
    ensures InsertAll(t, e, rows).events == t.events
    ensures forall r | r in t.reactions ::
              r in InsertAll(t, e, rows).reactions && InsertAll(t, e, rows).reactions[r] == t.reactions[r]
    ensures forall r | r in InsertAll(t, e, rows).reactions && r !in t.reactions ::
      && InsertAll(t, e, rows).reactions[r].event == e
      && InsertAll(t, e, rows).reactions[r].status == Pending
      && InsertAll(t, e, rows).reactions[r].handler in Handlers(rows)
      && (exists i | 0 <= i < |rows| :: rows[i].id == r)
    decreases |rows|
  {
    if rows != [] {
      var t1 := InsertIgnore(t, e, rows[0]);
      InsertAllKeepsRows(t1, e, rows[1..]);
      forall r | r in InsertAll(t, e, rows).reactions && r !in t.reactions
        ensures InsertAll(t, e, rows).reactions[r].handler in Handlers(rows)
        ensures exists i | 0 <= i < |rows| :: rows[i].id == r
      {
        if r in t1.reactions {
          assert rows[0].id == r;
        } else {
          var h := InsertAll(t, e, rows).reactions[r].handler;
          var j :| 0 <= j < |rows[1..]| && rows[1..][j].handler == h;
          assert rows[j + 1].handler == h;
          var k :| 0 <= k < |rows[1..]| && rows[1..][k].id == r;
          assert rows[k + 1].id == r;
        }
      }
    }
  }

  lemma {:induction false} InsertAllUnique(t: Tables, e: EventId, rows: seq<NewRow>)
    requires Unique(t)
    ensures Unique(InsertAll(t, e, rows))
    decreases |rows|
  {
    if rows != [] {
      InsertAllUnique(InsertIgnore(t, e, rows[0]), e, rows[1..]);
    }
  }

  // With fresh ids no handler of the batch is left without its row.
  lemma {:induction false} InsertAllCoversHandlers(t: Tables, e: EventId, rows: seq<NewRow>)
    requires FreshIds(t, rows)
    ensures forall h | h in Handlers(rows) :: PairStored(InsertAll(t, e, rows), e, h)
    decreases |rows|
  {
    if rows != [] {
      var t1 := InsertIgnore(t, e, rows[0]);
      assert FreshIds(t1, rows[1..]);
      InsertAllCoversHandlers(t1, e, rows[1..]);
      InsertAllKeepsRows(t1, e, rows[1..]);
      var t2 := InsertAll(t, e, rows);
      forall h | h in Handlers(rows) ensures PairStored(t2, e, h) {
        var i :| 0 <= i < |rows| && rows[i].handler == h;
        if i == 0 {
          assert PairStored(t1, e, h) by {
            if !PairStored(t, e, h) { assert rows[0].id in t1.reactions; }
          }
          var r :| r in t1.reactions && t1.reactions[r].event == e && t1.reactions[r].handler == h;
          assert r in t2.reactions;
        } else {
          assert rows[1..][i - 1].handler == h;
        }
      }
    }
  }
}
