/** The session store: one append-only record table shared by all sessions. */
module SessionStore {
  import opened Options
  import opened Transcript
  import opened Spaces

  type SessionId = nat

  datatype Row = Row(session: SessionId, msg: Message)

  // The messages of one session, in sequence order.
  function MessagesOf(rows: seq<Row>, id: SessionId): seq<Message>
    decreases |rows|
  {
    if rows == [] then []
    else MessagesOf(rows[..|rows| - 1], id) + if rows[|rows| - 1].session == id then [rows[|rows| - 1].msg] else []
  }

  function Rows(id: SessionId, msgs: seq<Message>): seq<Row> {
    seq(|msgs|, i requires 0 <= i < |msgs| => Row(id, msgs[i]))
  }

  lemma {:induction false} RowsAppended(rows: seq<Row>, id: SessionId, msgs: seq<Message>, other: SessionId)
    ensures MessagesOf(rows + Rows(id, msgs), other) ==
      if other == id then MessagesOf(rows, id) + msgs else MessagesOf(rows, other)
    decreases |msgs|
  {
    var all := rows + Rows(id, msgs);
    if msgs == [] {
      assert all == rows;
    } else {
      var front := msgs[..|msgs| - 1];
      RowsAppended(rows, id, front, other);
      assert all[..|all| - 1] == rows + Rows(id, front);
      assert msgs == front + [msgs[|msgs| - 1]];
    }
  }

  lemma {:induction false} AllRowsAppended(rows: seq<Row>, id: SessionId, msgs: seq<Message>)
    ensures forall other :: MessagesOf(rows + Rows(id, msgs), other) ==
                            (if other == id then MessagesOf(rows, id) + msgs else MessagesOf(rows, other))
  {
    forall other: SessionId
      ensures MessagesOf(rows + Rows(id, msgs), other) ==
              (if other == id then MessagesOf(rows, id) + msgs else MessagesOf(rows, other))
    {
      RowsAppended(rows, id, msgs, other);
    }
  }

  lemma {:induction false} NoRowsNoMessages(rows: seq<Row>, id: SessionId)
    requires forall i | 0 <= i < |rows| :: rows[i].session != id
    ensures MessagesOf(rows, id) == []
    decreases |rows|
  {
    if rows != [] {
      NoRowsNoMessages(rows[..|rows| - 1], id);
    }
  }

  predicate NoNil(messages: seq<Option<Message>>) {
    forall i | 0 <= i < |messages| :: messages[i].Some?
  }

  function Deref(messages: seq<Option<Message>>): seq<Message>
    requires NoNil(messages)
  {
    seq(|messages|, i requires 0 <= i < |messages| => messages[i].value)
  }

  function Refs(messages: seq<Message>): (r: seq<Option<Message>>)
    ensures NoNil(r) && Deref(r) == messages
  {
    seq(|messages|, i requires 0 <= i < |messages| => Some(messages[i]))
  }

  // The inserts of one transaction.
  method InsertRecords(rows: seq<Row>, id: SessionId, messages: seq<Option<Message>>) returns (inserted: seq<Row>)
    requires NoNil(messages)
    ensures inserted == rows + Rows(id, Deref(messages))
  {
    inserted := rows;
    for i := 0 to |messages|
      invariant inserted == rows + Rows(id, Deref(messages)[..i])
    {
      inserted := inserted + [Row(id, messages[i].value)];
    }
    assert Deref(messages)[..|messages|] == Deref(messages);
  }

  class Store {
    var sessions: map<string, SessionId>   // source_uri is unique
    var rows: seq<Row>
    var next: SessionId

    // Sessions have distinct ids and every row belongs to one.
    ghost predicate Valid()
      reads this
    {
      && (forall a, b | a in sessions && b in sessions && a != b :: sessions[a] != sessions[b])
      && (forall a | a in sessions :: sessions[a] < next)
      && (forall i | 0 <= i < |rows| :: rows[i].session < next)
    }

    constructor ()
      ensures Valid() && forall u: string :: Transcript(u) == []
    {
      sessions, rows, next := map[], [], 0;
    }

    ghost function Transcript(uri: string): seq<Message>
      reads this
    {
      if uri in sessions then MessagesOf(rows, sessions[uri]) else []
    }

    // Nothing but the transcript of uri has changed.
    twostate predicate OthersKept(uri: string)
      reads this
    {
      forall u: string | u != uri :: Transcript(u) == old(Transcript(u))
    }

    method Messages(uri: string) returns (ok: bool, out: seq<Message>)
      requires Valid()
      ensures ok == !Blank(uri)
      ensures ok ==> out == Transcript(uri)
    {
      out := [];
      if Blank(uri) {
        return false, [];
      }
      if uri !in sessions {
        return true, [];
      }
      var id := sessions[uri];
      for i := 0 to |rows|
        invariant out == MessagesOf(rows[..i], id)
      {
        assert rows[..i + 1][..i] == rows[..i];
        if rows[i].session == id {
          out := out + [rows[i].msg];
        }
      }
      assert rows[..|rows|] == rows;
      ok := true;
    }

    // INSERT OR IGNORE, then SELECT by source URI.
    method GetOrCreate(uri: string) returns (id: SessionId)
      requires Valid()
      modifies this
      ensures Valid() && uri in sessions && sessions[uri] == id
      ensures rows == old(rows)
      ensures forall u: string | u != uri :: u in sessions <==> u in old(sessions)
      ensures forall u: string | u in old(sessions) :: u in sessions && sessions[u] == old(sessions[u])
      ensures forall u: string :: Transcript(u) == old(Transcript(u))
    {
      if uri !in sessions {
        NoRowsNoMessages(rows, next);
        sessions := sessions[uri := next];
        next := next + 1;
      }
      id := sessions[uri];
    }

    // The whole batch is appended, or nothing is.
    method Record(uri: string, messages: seq<Option<Message>>) returns (ok: bool)
      requires Valid()
      modifies this
      ensures Valid() && OthersKept(uri)
      ensures ok == (messages == [] || (!Blank(uri) && NoNil(messages)))
      ensures Transcript(uri) == old(Transcript(uri)) + if ok && NoNil(messages) then Deref(messages) else []
    {
      if |messages| == 0 {
        return true;
      }
      if Blank(uri) {
        return false;
      }
      for i := 0 to |messages|
        invariant forall j | 0 <= j < i :: messages[j].Some?
      {
        if messages[i].None? {
          return false;
        }
      }
      var id := GetOrCreate(uri);
      var inserted := InsertRecords(rows, id, messages);
      AllRowsAppended(rows, id, Deref(messages));
      rows := inserted;   // commit
      ok := true;
    }
  }
}
