/** One agent turn as a function: what Loop.Run sends to the model and what it records,
    for every behaviour of the model and the tools and every point where the turn stops. */
module AgentTurn {
  import opened Transcript
  import opened Repair

  // One completion. outputs are what the tool runtime answers, call by call.
  datatype Reply = Fails | NilReply | Says(content: Text, calls: seq<Call>, finish: Finish, outputs: seq<Text>)

  datatype End = Replied(reply: Message) | Failed | Died

  // stored: what the turn appends to the session, batch by batch and in order.
  datatype Outcome = Outcome(stored: seq<Message>, requests: seq<seq<Message>>, end: End)

  function ReplyMessage(r: Reply): Message
    requires r.Says?
  {
    Message(Assistant, r.content, [], r.calls, "", r.finish)
  }

  function OutputAt(outputs: seq<Text>, k: nat): Text {
    if k < |outputs| then outputs[k] else Plain("")
  }

  function Results(calls: seq<Call>, outputs: seq<Text>): seq<Message> {
    seq(|calls|, k requires 0 <= k < |calls| => ToolResult(calls[k].id, OutputAt(outputs, k)))
  }

  // Replies without content and without calls are not recorded.
  function Kept(r: Reply): seq<Message>
    requires r.Says?
  {
    if !r.content.Empty() || r.calls != [] then [ReplyMessage(r)] else []
  }

  // The loop from here on: messages is the conversation, unsaved the part not recorded yet.
  // A script that ends is a process that dies while the model is asked.
  function Turn(messages: seq<Message>, unsaved: seq<Message>, script: seq<Reply>, tools: bool): Outcome
    decreases |script|
  {
    if script == [] then Outcome([], [messages], Died)
    else if !script[0].Says? then Outcome([], [messages], Failed)
    else
      var r := script[0];
      var exchange := unsaved + Kept(r);
      match r.finish
      case Stop => Outcome(exchange, [messages], Replied(ReplyMessage(r)))
      case ToolCalls =>
        if r.calls != [] && !tools then Outcome(exchange, [messages], Failed)
        else
          var results := Results(r.calls, r.outputs);
          var rest := Turn(messages + [ReplyMessage(r)] + results, results, script[1..], tools);
          Outcome(exchange + rest.stored, [messages] + rest.requests, rest.end)
      case _ => Outcome(exchange, [messages], Failed)
  }

  /* Transcripts in which calls and answers stay together */

  // The results of calls, one each and in call order.
  ghost predicate AreResults(ms: seq<Message>, calls: seq<Call>) {
    |ms| == |calls| && forall k | 0 <= k < |ms| :: ms[k].role.Tool? && ms[k].callId == calls[k].id
  }

  // Every caller is directly followed by its results; no other tool messages exist. With open,
  // the last message may be a caller that has no results yet.
  ghost predicate Regular(t: seq<Message>, open: bool)
    decreases |t|
  {
    || t == []
    || (open && |t| == 1 && IsCaller(t[0]))
    || (IsCaller(t[0]) && |t| > |t[0].calls| && AreResults(t[1..1 + |t[0].calls|], t[0].calls)
        && Regular(t[1 + |t[0].calls|..], open))
    || (!IsCaller(t[0]) && !t[0].role.Tool? && Regular(t[1..], open))
  }

  ghost predicate Whole(t: seq<Message>) { Regular(t, false) }

  ghost predicate Stopped(t: seq<Message>) { Regular(t, true) }

  lemma {:induction false} WholeThen(a: seq<Message>, b: seq<Message>, open: bool)
    requires Whole(a) && Regular(b, open)
    ensures Regular(a + b, open)
    decreases |a|
  {
    if a == [] {
      assert a + b == b;
    } else {
      var n := if IsCaller(a[0]) then 1 + |a[0].calls| else 1;
      WholeThen(a[n..], b, open);
      SplitConcat(a, b, n);
    }
  }

  lemma SplitConcat(a: seq<Message>, b: seq<Message>, n: nat)
    requires 1 <= n <= |a|
    ensures (a + b)[0] == a[0] && (a + b)[1..n] == a[1..n] && (a + b)[n..] == a[n..] + b
  {
  }

  // Callers in a whole transcript are answered, so repair leaves it alone.
  lemma {:induction false} WholeIsAnswered(t: seq<Message>)
    requires Whole(t)
    ensures Answered(t)
    decreases |t|
  {
    if t != [] {
      if IsCaller(t[0]) {
        var n := |t[0].calls|;
        var rs, rest := t[1..1 + n], t[1 + n..];
        WholeIsAnswered(rest);
        PrependTools(rs, rest);
        ResultsAnswer(rs, rest, t[0].calls);
        AnsweredCons(t[0], rs + rest);
        assert t == [t[0]] + (rs + rest);
      } else {
        WholeIsAnswered(t[1..]);
        AnsweredCons(t[0], t[1..]);
        assert t == [t[0]] + t[1..];
      }
    }
  }

  lemma ResultsAnswer(rs: seq<Message>, rest: seq<Message>, calls: seq<Call>)
    requires AreResults(rs, calls)
    ensures CallsIn(calls, ToolIds(rs + rest))
  {
    ToolIdsConcat(rs, rest);
    forall k | 0 <= k < |calls| ensures calls[k].id in ToolIds(rs) {
      assert rs[k].role.Tool? && rs[k].callId == calls[k].id;
    }
  }

  // What repair makes of a transcript that stopped anywhere.
  lemma {:induction false} RepairStopped(t: seq<Message>)
    requires Stopped(t)
    ensures Repaired(t) == t + Injected(t) && Whole(Repaired(t))
    decreases |t|
  {
    if t == [] {
    } else if |t| == 1 && IsCaller(t[0]) {
      PatchEverything(t[0].calls);
      LastRepaired(t);
    } else {
      var n := if IsCaller(t[0]) then 1 + |t[0].calls| else 1;
      RepairStopped(t[n..]);
      RepairFront(t, n);
      FrontIsWhole(t[0], t[1..n]);
      assert t[..n] == [t[0]] + t[1..n];
      WholeThen(t[..n], Repaired(t[n..]), false);
    }
  }

  // A message with its results, and nothing else.
  lemma FrontIsWhole(m: Message, rs: seq<Message>)
    requires if IsCaller(m) then AreResults(rs, m.calls) else !m.role.Tool? && rs == []
    ensures Whole([m] + rs)
  {
    var t := [m] + rs;
    assert t[1..1 + |rs|] == rs && t[1 + |rs|..] == [];
  }

  lemma {:induction false} PatchEverything(calls: seq<Call>)
    ensures AreResults(PatchCalls(calls, {}), calls)
    decreases |calls|
  {
    if calls != [] {
      PatchEverything(calls[1..]);
    }
  }

  lemma {:induction false} LastRepaired(t: seq<Message>)
    requires |t| == 1 && IsCaller(t[0])
    ensures Repaired(t) == t + Injected(t) && Whole(Repaired(t))
  {
    var p := PatchCalls(t[0].calls, {});
    assert ToolIds(t[1..]) == {};
    assert t == [t[0]];
    assert Injected(t) == p;
    assert Repaired(t) == t + p;
    PatchEverything(t[0].calls);
    var w := t + p;
    assert w[0] == t[0] && w[1..1 + |t[0].calls|] == p && w[1 + |t[0].calls|..] == [];
  }

  // A caller with its results, or a message that calls nothing, passes repair unchanged.
  lemma {:induction false} RepairFront(t: seq<Message>, n: nat)
    requires t != [] && n == (if IsCaller(t[0]) then 1 + |t[0].calls| else 1) && n <= |t|
    requires IsCaller(t[0]) ==> AreResults(t[1..n], t[0].calls)
    requires Repaired(t[n..]) == t[n..] + Injected(t[n..])
    ensures Injected(t) == Injected(t[n..]) && Repaired(t) == t[..n] + Repaired(t[n..])
    ensures Repaired(t) == t + Injected(t)
  {
    var rs, rest := t[1..n], t[n..];
    assert t == [t[0]] + (rs + rest) && t[..n] == [t[0]] + rs && t == t[..n] + rest;
    FrontRepaired(t[0], rs, rest);
    Assoc(t[..n], rest, Injected(rest));
  }

  lemma {:induction false} FrontRepaired(m: Message, rs: seq<Message>, rest: seq<Message>)
    requires if IsCaller(m) then AreResults(rs, m.calls) else rs == []
    ensures Injected([m] + (rs + rest)) == Injected(rest)
    ensures Repaired([m] + (rs + rest)) == [m] + rs + Repaired(rest)
  {
    var t := [m] + (rs + rest);
    assert t[0] == m && t[1..] == rs + rest;
    NothingToPatch(m, rs, rest);
    NoPatchTail(t);
    RepairTools(rs, rest);
    Assoc([m], rs, Repaired(rest));
  }

  lemma NothingToPatch(m: Message, rs: seq<Message>, rest: seq<Message>)
    requires IsCaller(m) ==> AreResults(rs, m.calls)
    ensures Patch(m, rs + rest) == []
  {
    if IsCaller(m) {
      ResultsAnswer(rs, rest, m.calls);
      PatchAnswers(m.calls, ToolIds(rs + rest));
    }
  }

  lemma {:induction false} RepairTools(rs: seq<Message>, rest: seq<Message>)
    requires forall k | 0 <= k < |rs| :: rs[k].role.Tool?
    ensures Repaired(rs + rest) == rs + Repaired(rest) && Injected(rs + rest) == Injected(rest)
    decreases |rs|
  {
    if rs == [] {
      assert rs + rest == rest;
    } else {
      RepairTools(rs[1..], rest);
      assert (rs + rest)[0] == rs[0] && (rs + rest)[1..] == rs[1..] + rest;
      NoPatchTail(rs + rest);
      Uncons(rs, Repaired(rest));
    }
  }

  /* What a turn sends and stores */

  lemma ReplyIsWhole(r: Reply)
    requires r.Says?
    ensures Whole([ReplyMessage(r)] + Results(r.calls, r.outputs))
    ensures Stopped(Kept(r))
    ensures r.calls == [] ==> Whole(Kept(r))
  {
    var m, rs := ReplyMessage(r), Results(r.calls, r.outputs);
    var t := [m] + rs;
    assert t[0] == m && t[1..1 + |r.calls|] == rs && t[1 + |r.calls|..] == [];
    if r.calls == [] {
      assert t[1..] == [];
    }
  }

  // Every request has each caller directly followed by one result per call, in order.
  lemma {:induction false} RequestsAreWhole(messages: seq<Message>, unsaved: seq<Message>, script: seq<Reply>,
      tools: bool)
    requires Whole(messages)
    ensures forall i | 0 <= i < |Turn(messages, unsaved, script, tools).requests| ::
      Whole(Turn(messages, unsaved, script, tools).requests[i])
    decreases |script|
  {
    if script != [] && script[0].Says? && script[0].finish.ToolCalls? {
      var m, results := ReplyMessage(script[0]), Results(script[0].calls, script[0].outputs);
      ReplyIsWhole(script[0]);
      WholeThen(messages, [m] + results, false);
      Assoc(messages, [m], results);
      RequestsAreWhole(messages + [m] + results, results, script[1..], tools);
    }
  }

  // saved is what the session holds: wherever the turn stops, at most the last message is open.
  lemma {:induction false} StopsRegular(saved: seq<Message>, messages: seq<Message>, unsaved: seq<Message>,
      script: seq<Reply>, tools: bool)
    requires Stopped(saved) && Whole(saved + unsaved)
    ensures Stopped(saved + Turn(messages, unsaved, script, tools).stored)
    decreases |script|
  {
    if script == [] || !script[0].Says? {
      assert saved + [] == saved;
    } else {
      var r := script[0];
      var exchange := unsaved + Kept(r);
      ReplyIsWhole(r);
      WholeThen(saved + unsaved, Kept(r), true);
      Assoc(saved, unsaved, Kept(r));
      if r.finish.ToolCalls? && (r.calls == [] || tools) {
        var results := Results(r.calls, r.outputs);
        WholeAfterReply(saved + unsaved, r);
        Assoc(saved + unsaved, Kept(r), results);
        var next := messages + [ReplyMessage(r)] + results;
        StopsRegular(saved + exchange, next, results, script[1..], tools);
        Assoc(saved, exchange, Turn(next, results, script[1..], tools).stored);
      }
    }
  }

  lemma WholeAfterReply(t: seq<Message>, r: Reply)
    requires Whole(t) && r.Says?
    ensures Whole(t + (Kept(r) + Results(r.calls, r.outputs)))
  {
    ReplyIsWhole(r);
    if Kept(r) == [] {
      assert t + (Kept(r) + Results(r.calls, r.outputs)) == t;
    } else {
      WholeThen(t, Kept(r) + Results(r.calls, r.outputs), false);
    }
  }

  // The replies and tool results of a turn, each once and in order.
  function Said(script: seq<Reply>, tools: bool): seq<Message>
    decreases |script|
  {
    if script == [] || !script[0].Says? then []
    else if script[0].finish.ToolCalls? && (script[0].calls == [] || tools)
    then Kept(script[0]) + (Results(script[0].calls, script[0].outputs) + Said(script[1..], tools))
    else Kept(script[0])
  }

  // A turn that returns a reply has stored everything said; one that stops earlier, a prefix of it.
  lemma {:induction false} StoresWhatWasSaid(messages: seq<Message>, unsaved: seq<Message>, script: seq<Reply>,
      tools: bool)
    ensures Turn(messages, unsaved, script, tools).stored <= unsaved + Said(script, tools)
    ensures Turn(messages, unsaved, script, tools).end.Replied? ==>
      Turn(messages, unsaved, script, tools).stored == unsaved + Said(script, tools)
    decreases |script|
  {
    if script != [] && script[0].Says? && script[0].finish.ToolCalls? && (script[0].calls == [] || tools) {
      var r := script[0];
      var results := Results(r.calls, r.outputs);
      StoresWhatWasSaid(messages + [ReplyMessage(r)] + results, results, script[1..], tools);
      Assoc(unsaved, Kept(r), results + Said(script[1..], tools));
    }
  }

  /* Handle: perception, the turn, and the offset it announces */

  datatype Perception = Disabled | Ignores | Queues | PerceiverFails | UnknownAction

  datatype HandleEnd = Ignored | HandleFailed | Dead | TurnEnded(offset: nat)

  datatype Handled = Handled(session: seq<Message>, requests: seq<seq<Message>>, end: HandleEnd)

  // The session after SessionContext.Messages has repaired it.
  function AfterRepair(session: seq<Message>): seq<Message> {
    session + Injected(session)
  }

  function Handle(session: seq<Message>, perception: Perception, incoming: seq<Message>, script: seq<Reply>,
      tools: bool): Handled {
    var assessed := if perception.Disabled? then session else AfterRepair(session);
    if perception.Ignores? then Handled(assessed, [], Ignored)
    else if perception.PerceiverFails? || perception.UnknownAction? then Handled(assessed, [], HandleFailed)
    else
      var offset := |Repaired(assessed)|;
      var before := AfterRepair(assessed);
      var turn := Turn(Repaired(before) + incoming, incoming, script, tools);
      Handled(AfterRepair(before) + turn.stored, turn.requests,
              match turn.end
              case Replied(_) => TurnEnded(offset)
              case Failed => HandleFailed
              case Died => Dead)
  }

  lemma {:induction false} RepairTwice(session: seq<Message>)
    requires Stopped(session)
    ensures Whole(AfterRepair(session)) && Repaired(session) == AfterRepair(session)
    ensures AfterRepair(AfterRepair(session)) == AfterRepair(session)
    ensures Repaired(AfterRepair(session)) == AfterRepair(session)
  {
    RepairStopped(session);
    WholeIsAnswered(AfterRepair(session));
    InjectsNothingIffAnswered(AfterRepair(session));
  }

  // Handle on a session that stopped anywhere: repair happens once, and the turn follows it.
  lemma {:induction false} HandleUnfolds(session: seq<Message>, perception: Perception, incoming: seq<Message>,
      script: seq<Reply>, tools: bool)
    requires Stopped(session) && (perception.Disabled? || perception.Queues?)
    ensures var h := Handle(session, perception, incoming, script, tools);
      var turn := Turn(AfterRepair(session) + incoming, incoming, script, tools);
      && h.session == AfterRepair(session) + turn.stored && h.requests == turn.requests
      && (h.end.TurnEnded? <==> turn.end.Replied?)
      && (h.end.TurnEnded? ==> h.end.offset == |AfterRepair(session)|)
  {
    RepairTwice(session);
  }

  // At every stop point the session is one that the next repair completes, and every request was whole.
  lemma HandleStopsRegular(session: seq<Message>, perception: Perception, incoming: seq<Message>, script: seq<Reply>,
      tools: bool)
    requires Stopped(session) && Whole(incoming)
    ensures var h := Handle(session, perception, incoming, script, tools);
      && Stopped(h.session)
      && Repaired(h.session) == AfterRepair(h.session) && Whole(Repaired(h.session))
      && forall i | 0 <= i < |h.requests| :: Whole(h.requests[i])
  {
    RepairTwice(session);
    var saved := AfterRepair(session);
    WholeThen(saved, [], true);
    assert saved + [] == saved;
    if perception.Disabled? || perception.Queues? {
      HandleUnfolds(session, perception, incoming, script, tools);
      WholeThen(saved, incoming, false);
      StopsRegular(saved, saved + incoming, incoming, script, tools);
      RequestsAreWhole(saved + incoming, incoming, script, tools);
    }
    RepairStopped(Handle(session, perception, incoming, script, tools).session);
  }

  // One event after another on one session, each stopping wherever it does.
  datatype Visit = Visit(perception: Perception, incoming: seq<Message>, script: seq<Reply>, tools: bool)

  function Visits(session: seq<Message>, visits: seq<Visit>): seq<Message>
    decreases |visits|
  {
    if visits == [] then session
    else
      var v := visits[0];
      Visits(Handle(session, v.perception, v.incoming, v.script, v.tools).session, visits[1..])
  }

  lemma {:induction false} CrashAnywhere(session: seq<Message>, visits: seq<Visit>)
    requires Stopped(session) && forall i | 0 <= i < |visits| :: Whole(visits[i].incoming)
    ensures Stopped(Visits(session, visits))
    ensures Repaired(Visits(session, visits)) == AfterRepair(Visits(session, visits))
    decreases |visits|
  {
    if visits == [] {
      RepairStopped(session);
    } else {
      var v := visits[0];
      HandleStopsRegular(session, v.perception, v.incoming, v.script, v.tools);
      CrashAnywhere(Handle(session, v.perception, v.incoming, v.script, v.tools).session, visits[1..]);
    }
  }

  /* The memory module's view of a turn */

  function TurnSlice(messages: seq<Message>, offset: nat): seq<Message> {
    if 0 < offset < |messages| then messages[offset..] else messages
  }

  // Cutting the session at the announced offset gives the turn, and what was recorded after it, if and
  // only if the session was empty, or the turn said anything, or something was recorded after it.
  lemma {:induction false} SliceIsTurnIff(session: seq<Message>, perception: Perception, incoming: seq<Message>,
      script: seq<Reply>, tools: bool, later: seq<Message>)
    requires Stopped(session)
    requires Handle(session, perception, incoming, script, tools).end.TurnEnded?
    ensures var h := Handle(session, perception, incoming, script, tools);
      TurnSlice(h.session + later, h.end.offset) == incoming + Said(script, tools) + later <==>
      session == [] || incoming != [] || Said(script, tools) != [] || later != []
  {
    HandleUnfolds(session, perception, incoming, script, tools);
    var saved := AfterRepair(session);
    StoresWhatWasSaid(saved + incoming, incoming, script, tools);
    var turn := incoming + Said(script, tools);
    Assoc(saved, turn, later);
    assert (saved + (turn + later))[|saved|..] == turn + later;
  }

  // The memory module sees the whole session of a turn that said nothing.
  lemma SilentTurnShowsEverything()
    ensures var session := [Message(User, Plain("hello"), [], [], "", Unset)];
      var h := Handle(session, Disabled, [], [Says(Plain(""), [], Stop, [])], false);
      Stopped(session) && h.end.TurnEnded? && TurnSlice(h.session, h.end.offset) == session
  {
    var session := [Message(User, Plain("hello"), [], [], "", Unset)];
    assert session[1..] == [] && Injected(session) == [];
    assert Stopped(session);
    HandleUnfolds(session, Disabled, [], [Says(Plain(""), [], Stop, [])], false);
    assert AfterRepair(session) == session;
  }

  // With at least one incoming message the slice is always the turn.
  lemma {:induction false} SliceIsTurn(session: seq<Message>, perception: Perception, incoming: seq<Message>,
      script: seq<Reply>, tools: bool)
    requires Stopped(session) && incoming != []
    requires Handle(session, perception, incoming, script, tools).end.TurnEnded?
    ensures var h := Handle(session, perception, incoming, script, tools);
      TurnSlice(h.session, h.end.offset) == incoming + Said(script, tools)
  {
    var h := Handle(session, perception, incoming, script, tools);
    SliceIsTurnIff(session, perception, incoming, script, tools, []);
    assert h.session + [] == h.session;
    assert incoming + Said(script, tools) + [] == incoming + Said(script, tools);
  }
}
