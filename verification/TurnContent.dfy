/** What a turn says, field by field: the requests the model gets one after the other, how the turn
    ends, and what is stored of it. */
module TurnContent {
  import opened Transcript
  import opened Repair
  import opened AgentTurn

  /* The requests */

  // m is the assistant message of the reply r.
  predicate Echoes(m: Message, r: Reply)
    requires r.Says?
  {
    m.role.Assistant? && m.content == r.content && m.calls == r.calls && m.finish == r.finish
    && m.parts == [] && m.callId == ""
  }

  // m is the tool message that answers call with output.
  predicate Answers(m: Message, call: Call, output: Text) {
    m.role.Tool? && m.callId == call.id && m.content == output && m.calls == [] && m.parts == []
  }

  // The turn goes round after r.
  predicate GoesOn(r: Reply, tools: bool) {
    r.Says? && r.finish.ToolCalls? && (r.calls == [] || tools)
  }

  // b is everything of a, then the reply, then one answer per call in call order.
  ghost predicate Grown(a: seq<Message>, b: seq<Message>, r: Reply) {
    && r.Says?
    && |b| == |a| + 1 + |r.calls| && b[..|a|] == a && Echoes(b[|a|], r)
    && forall k | 0 <= k < |r.calls| ::
         Answers(b[|a| + 1 + k], r.calls[k], if k < |r.outputs| then r.outputs[k] else Plain(""))
  }

  // The model is asked first with all of first, and then, as long as its replies go on, with everything
  // it was asked before and what came of its last reply.
  ghost predicate Conversation(requests: seq<seq<Message>>, first: seq<Message>, script: seq<Reply>, tools: bool) {
    && 0 < |requests| <= |script| + 1
    && requests[0] == first
    && (forall i | 0 <= i < |requests| - 1 ::
          GoesOn(script[i], tools) && Grown(requests[i], requests[i + 1], script[i]))
    && (|requests| <= |script| ==> !GoesOn(script[|requests| - 1], tools))
  }

  lemma RoundGrows(messages: seq<Message>, r: Reply)
    requires r.Says?
    ensures Grown(messages, messages + [ReplyMessage(r)] + Results(r.calls, r.outputs), r)
  {
    var next := messages + [ReplyMessage(r)] + Results(r.calls, r.outputs);
    forall k | 0 <= k < |r.calls|
      ensures Answers(next[|messages| + 1 + k], r.calls[k], if k < |r.outputs| then r.outputs[k] else Plain(""))
    {
      assert next[|messages| + 1 + k] == Results(r.calls, r.outputs)[k];
    }
  }

  lemma ConversationCons(messages: seq<Message>, rest: seq<seq<Message>>, next: seq<Message>, script: seq<Reply>,
      tools: bool)
    requires script != [] && GoesOn(script[0], tools) && Grown(messages, next, script[0])
    requires Conversation(rest, next, script[1..], tools)
    ensures Conversation([messages] + rest, messages, script, tools)
  {
    var all := [messages] + rest;
    forall i | 0 <= i < |all| - 1 ensures GoesOn(script[i], tools) && Grown(all[i], all[i + 1], script[i]) {
      if i > 0 {
        assert all[i] == rest[i - 1] && all[i + 1] == rest[i] && script[i] == script[1..][i - 1];
        assert Grown(rest[i - 1], rest[i - 1 + 1], script[1..][i - 1]);
      }
    }
    assert |all| <= |script| ==> script[|all| - 1] == script[1..][|rest| - 1];
  }

  lemma {:induction false} RequestsGrow(messages: seq<Message>, unsaved: seq<Message>, script: seq<Reply>, tools: bool)
    ensures Conversation(Turn(messages, unsaved, script, tools).requests, messages, script, tools)
    decreases |script|
  {
    if script != [] && GoesOn(script[0], tools) {
      var r := script[0];
      var next := messages + [ReplyMessage(r)] + Results(r.calls, r.outputs);
      RoundGrows(messages, r);
      RequestsGrow(next, Results(r.calls, r.outputs), script[1..], tools);
      ConversationCons(messages, Turn(next, Results(r.calls, r.outputs), script[1..], tools).requests, next, script,
        tools);
    }
  }

  /* The end */

  // last: the reply to the last request, None when the process dies before it.
  ghost predicate EndsWith(end: End, script: seq<Reply>, last: nat) {
    if last >= |script| then end.Died?
    else if script[last].Says? && script[last].finish.Stop? then end.Replied? && Echoes(end.reply, script[last])
    else end.Failed?
  }

  // A turn ends with what became of its last request: with the reply if that says stop.
  lemma {:induction false} TurnEndsWithLastReply(messages: seq<Message>, unsaved: seq<Message>, script: seq<Reply>,
      tools: bool)
    ensures var turn := Turn(messages, unsaved, script, tools); EndsWith(turn.end, script, |turn.requests| - 1)
    decreases |script|
  {
    if script != [] && GoesOn(script[0], tools) {
      var r := script[0];
      var next, results := messages + [ReplyMessage(r)] + Results(r.calls, r.outputs), Results(r.calls, r.outputs);
      var rest := Turn(next, results, script[1..], tools);
      TurnEndsWithLastReply(next, results, script[1..], tools);
      RequestsGrow(next, results, script[1..], tools);
      assert |rest.requests| <= |script[1..]| ==> script[1..][|rest.requests| - 1] == script[|rest.requests|];
    }
  }

  /* What is stored */

  // Assistant messages that neither say nor call anything are not worth storing.
  function Worth(t: seq<Message>): seq<Message>
    decreases |t|
  {
    if t == [] then []
    else
      (if t[0].role.Assistant? && t[0].content == Plain("") && t[0].calls == [] then [] else [t[0]]) + Worth(t[1..])
  }

  lemma {:induction false} WorthConcat(a: seq<Message>, b: seq<Message>)
    ensures Worth(a + b) == Worth(a) + Worth(b)
    decreases |a|
  {
    if a == [] {
      assert a + b == b;
    } else {
      WorthConcat(a[1..], b);
      WorthCons(a[0], a[1..]);
      WorthCons(a[0], a[1..] + b);
      assert a == [a[0]] + a[1..] && a + b == [a[0]] + (a[1..] + b);
      Assoc(Worth([a[0]]), Worth(a[1..]), Worth(b));
    }
  }

  lemma {:induction false} WorthCons(m: Message, t: seq<Message>)
    ensures Worth([m] + t) == Worth([m]) + Worth(t)
  {
    assert ([m] + t)[1..] == t && [m][1..] == [];
  }

  lemma {:induction false} ToolsAreWorth(t: seq<Message>)
    requires forall i | 0 <= i < |t| :: t[i].role.Tool?
    ensures Worth(t) == t
    decreases |t|
  {
    if t != [] {
      ToolsAreWorth(t[1..]);
    }
  }

  lemma {:induction false} RequestsExtend(messages: seq<Message>, unsaved: seq<Message>, script: seq<Reply>,
      tools: bool)
    ensures forall i | 0 <= i < |Turn(messages, unsaved, script, tools).requests| ::
      messages <= Turn(messages, unsaved, script, tools).requests[i]
    decreases |script|
  {
    if script != [] && GoesOn(script[0], tools) {
      var results := Results(script[0].calls, script[0].outputs);
      RequestsExtend(messages + [ReplyMessage(script[0])] + results, results, script[1..], tools);
    }
  }

  // How many replies came back from so many requests.
  function Heard(script: seq<Reply>, asked: nat): nat
    requires 0 < asked <= |script| + 1
  {
    if asked <= |script| && script[asked - 1].Says? then asked else asked - 1
  }

  // What was asked last among the requests that got a reply, from position base on, and that reply.
  ghost predicate StoredFrom(stored: seq<Message>, unsaved: seq<Message>, base: nat, requests: seq<seq<Message>>,
      script: seq<Reply>)
    requires 0 < |requests| <= |script| + 1
  {
    var h := Heard(script, |requests|);
    if h == 0 then stored == []
    else
      && base <= |requests[h - 1]|
      && script[h - 1].Says?
      && stored == unsaved + Worth(requests[h - 1][base..] + [Message(Assistant, script[h - 1].content, [],
           script[h - 1].calls, "", script[h - 1].finish)])
  }

  lemma WorthOfRound(messages: seq<Message>, r: Reply, q: seq<Message>, last: Message)
    requires r.Says? && messages + [ReplyMessage(r)] + Results(r.calls, r.outputs) <= q
    ensures var next := messages + [ReplyMessage(r)] + Results(r.calls, r.outputs);
      Worth(q[|messages|..] + [last]) == Kept(r) + (Results(r.calls, r.outputs) + Worth(q[|next|..] + [last]))
  {
    var m, results := ReplyMessage(r), Results(r.calls, r.outputs);
    var next := messages + [m] + results;
    var tail := q[|next|..] + [last];
    assert q == next + q[|next|..];
    assert q[|messages|..] + [last] == [m] + (results + tail);
    WorthCons(m, results + tail);
    WorthConcat(results, tail);
    ToolsAreWorth(results);
  }

  // One more round in front of what was asked and stored.
  lemma {:induction false} StoredCons(messages: seq<Message>, unsaved: seq<Message>, script: seq<Reply>,
      requests: seq<seq<Message>>, stored: seq<Message>)
    requires script != [] && script[0].Says? && 0 < |requests| <= |script[1..]| + 1
    requires var results := Results(script[0].calls, script[0].outputs);
      var next := messages + [ReplyMessage(script[0])] + results;
      && StoredFrom(stored, results, |next|, requests, script[1..])
      && forall i | 0 <= i < |requests| :: next <= requests[i]
    ensures StoredFrom(unsaved + Kept(script[0]) + stored, unsaved, |messages|, [messages] + requests, script)
  {
    var r := script[0];
    var results := Results(r.calls, r.outputs);
    var next := messages + [ReplyMessage(r)] + results;
    var h := Heard(script[1..], |requests|);
    var all := [messages] + requests;
    assert Heard(script, |all|) == 1 + h;
    if h == 0 {
      assert messages[|messages|..] + [ReplyMessage(r)] == [ReplyMessage(r)];
      assert unsaved + Kept(r) + stored == unsaved + Kept(r);
    } else {
      var last := ReplyMessage(script[h]);
      assert all[h] == requests[h - 1] && script[h] == script[1..][h - 1];
      WorthOfRound(messages, r, requests[h - 1], last);
      Assoc(unsaved, Kept(r), results + Worth(requests[h - 1][|next|..] + [last]));
    }
  }

  // At every stop the session has got, in order and each message once, what the model had been asked when it
  // last replied, from what was not stored before on, and that reply; empty replies are left out.
  lemma {:induction false} StoresTheConversation(messages: seq<Message>, unsaved: seq<Message>, script: seq<Reply>,
      tools: bool)
    ensures var turn := Turn(messages, unsaved, script, tools);
      0 < |turn.requests| <= |script| + 1 && StoredFrom(turn.stored, unsaved, |messages|, turn.requests, script)
    decreases |script|
  {
    RequestsGrow(messages, unsaved, script, tools);
    if script != [] && script[0].Says? {
      var r := script[0];
      assert messages[|messages|..] + [ReplyMessage(r)] == [ReplyMessage(r)];
      if GoesOn(r, tools) {
        var results := Results(r.calls, r.outputs);
        var next := messages + [ReplyMessage(r)] + results;
        var rest := Turn(next, results, script[1..], tools);
        StoresTheConversation(next, results, script[1..], tools);
        RequestsExtend(next, results, script[1..], tools);
        StoredCons(messages, unsaved, script, rest.requests, rest.stored);
      }
    }
  }

  /* Handle */

  lemma {:induction false} RepairedLength(t: seq<Message>)
    ensures |Repaired(t)| == |t| + |Injected(t)|
    decreases |t|
  {
    if t != [] {
      RepairedLength(t[1..]);
    }
  }

  lemma {:induction false} RepairOnce(session: seq<Message>)
    ensures var s := session + Injected(session);
      AfterRepair(session) == s && AfterRepair(s) == s && Repaired(s) == s
  {
    RepairIsIdempotent(session);
  }

  // For every session: unless perception keeps it from the model, the model is asked with the session, the
  // answers injected by one repair, and the incoming messages; what the turn stores follows the same
  // messages; and a turn is announced exactly when the model said stop, with the offset of its first message.
  lemma {:induction false} HandleAsks(session: seq<Message>, perception: Perception, incoming: seq<Message>,
      script: seq<Reply>, tools: bool)
    requires perception.Disabled? || perception.Queues?
    ensures var h := Handle(session, perception, incoming, script, tools);
      var s := session + Injected(session);
      && Conversation(h.requests, s + incoming, script, tools)
      && s <= h.session
      && StoredFrom(h.session[|s|..], incoming, |s + incoming|, h.requests, script)
      && var last := |h.requests| - 1;
         if last < |script| && script[last].Says? && script[last].finish.Stop? then h.end == TurnEnded(|s|)
         else h.end == if last < |script| then HandleFailed else Dead
  {
    var s := session + Injected(session);
    var turn := Turn(s + incoming, incoming, script, tools);
    RepairOnce(session);
    RepairedLength(session);
    RequestsGrow(s + incoming, incoming, script, tools);
    TurnEndsWithLastReply(s + incoming, incoming, script, tools);
    StoresTheConversation(s + incoming, incoming, script, tools);
    assert (s + turn.stored)[|s|..] == turn.stored;
  }

  // Otherwise the model is not asked, and nothing but the repair is stored.
  lemma {:induction false} HandleStopsShort(session: seq<Message>, perception: Perception, incoming: seq<Message>,
      script: seq<Reply>, tools: bool)
    requires !perception.Disabled? && !perception.Queues?
    ensures Handle(session, perception, incoming, script, tools) ==
      Handled(session + Injected(session), [], if perception.Ignores? then Ignored else HandleFailed)
  {
  }
}
