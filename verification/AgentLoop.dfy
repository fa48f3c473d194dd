/** The agent loop and its processor over the session store, statement by statement. */
module AgentLoop {
  import opened Options
  import opened Transcript
  import opened Repair
  import opened Spaces
  import opened SessionStore
  import opened AgentTurn
  import opened TurnContent

  // SessionContext.Messages: repair, write the injected messages back, show the repaired ones.
  method ContextMessages(store: Store, uri: string) returns (repaired: seq<Message>)
    requires store.Valid() && !Blank(uri)
    modifies store
    ensures store.Valid() && store.OthersKept(uri)
    ensures repaired == Repaired(old(store.Transcript(uri)))
    ensures store.Transcript(uri) == AfterRepair(old(store.Transcript(uri)))
  {
    var ok, messages := store.Messages(uri);
    var injected;
    repaired, injected := RepairHistory(messages);
    if |injected| > 0 {
      ok := store.Record(uri, Refs(injected));
    }
  }

  // The tool rounds of one reply.
  method RunTools(messages0: seq<Message>, calls: seq<Call>, outputs: seq<Text>) returns (messages: seq<Message>)
    ensures messages == messages0 + Results(calls, outputs)
  {
    messages := messages0;
    for k := 0 to |calls|
      invariant messages == messages0 + Results(calls, outputs)[..k]
    {
      messages := messages + [ToolResult(calls[k].id, OutputAt(outputs, k))];
    }
    assert Results(calls, outputs)[..|calls|] == Results(calls, outputs);
  }

  ghost predicate Joined(whole: Outcome, stored: seq<Message>, requests: seq<seq<Message>>, rest: Outcome) {
    whole.stored == stored + rest.stored && whole.requests == requests + rest.requests && whole.end == rest.end
  }

  lemma JoinedOn(a: Outcome, b: Outcome, c: Outcome, stored: seq<Message>, requests: seq<seq<Message>>,
                 more: seq<Message>, next: seq<seq<Message>>)
    requires Joined(a, stored, requests, b) && Joined(b, more, next, c)
    ensures Joined(a, stored + more, requests + next, c)
  {
    Assoc(stored, more, c.stored);
    Assoc(requests, next, c.requests);
  }

  datatype RoundResult = GoOn(messages: seq<Message>, start: nat) | Over(end: End)

  // What one round has done to the rest of the turn.
  ghost predicate RoundDone(turn: Outcome, messages: seq<Message>, r: RoundResult, stored: seq<Message>,
      rest: seq<Reply>, tools: bool) {
    match r
    case Over(end) => turn == Outcome(stored, [messages], end)
    case GoOn(next, start) =>
      start <= |next| && Joined(turn, stored, [messages], Turn(next, next[start..], rest, tools))
  }

  // The turn after one more round.
  lemma {:induction false} RoundJoins(turn: Outcome, stored: seq<Message>, requests: seq<seq<Message>>,
      messages: seq<Message>, unsaved: seq<Message>, reply: Reply, rest: seq<Reply>, r: RoundResult,
      exchange: seq<Message>, tools: bool)
    requires Joined(turn, stored, requests, Turn(messages, unsaved, [reply] + rest, tools))
    requires RoundDone(Turn(messages, unsaved, [reply] + rest, tools), messages, r, exchange, rest, tools)
    ensures match r
      case Over(end) => turn == Outcome(stored + exchange, requests + [messages], end)
      case GoOn(next, start) =>
        Joined(turn, stored + exchange, requests + [messages], Turn(next, next[start..], rest, tools))
  {
    if r.GoOn? {
      JoinedOn(turn, Turn(messages, unsaved, [reply] + rest, tools),
        Turn(r.messages, r.messages[r.start..], rest, tools), stored, requests, exchange, [messages]);
    }
  }

  lemma HeadOf(script: seq<Reply>, round: nat)
    requires round < |script|
    ensures script[round..] == [script[round]] + script[round + 1..]
  {
  }

  lemma Suffix(a: seq<Message>, b: seq<Message>)
    ensures (a + b)[|a|..] == b
  {
  }

  // The exchange is what is not recorded yet and the reply, unless that is empty.
  method RecordExchange(store: Store, uri: string, unsaved: seq<Message>, reply: Reply) returns (exchange: seq<Message>)
    requires store.Valid() && !Blank(uri) && reply.Says?
    modifies store
    ensures store.Valid() && store.OthersKept(uri)
    ensures exchange == unsaved + Kept(reply)
    ensures store.Transcript(uri) == old(store.Transcript(uri)) + exchange
  {
    exchange := unsaved;
    if !reply.content.Empty() || |reply.calls| > 0 {
      exchange := exchange + [ReplyMessage(reply)];
    }
    if |exchange| > 0 {
      var ok := store.Record(uri, Refs(exchange));
    }
  }

  // The body of the loop, after the model has been asked.
  method Round(store: Store, uri: string, messages: seq<Message>, start: nat, reply: Reply, ghost rest: seq<Reply>,
      tools: bool)
      returns (r: RoundResult, ghost stored: seq<Message>)
    requires store.Valid() && !Blank(uri) && start <= |messages|
    modifies store
    ensures store.Valid() && store.OthersKept(uri)
    ensures store.Transcript(uri) == old(store.Transcript(uri)) + stored
    ensures RoundDone(Turn(messages, messages[start..], [reply] + rest, tools), messages, r, stored, rest, tools)
  {
    assert ([reply] + rest)[1..] == rest;
    if !reply.Says? {
      return Over(Failed), [];
    }
    var message := ReplyMessage(reply);
    stored := RecordExchange(store, uri, messages[start..], reply);
    match reply.finish {
      case Stop => return Over(Replied(message)), stored;
      case ToolCalls =>
        var next := messages + [message];
        var newMessagesStart := |next|;
        if |reply.calls| > 0 && !tools {
          return Over(Failed), stored;
        }
        Suffix(next, Results(reply.calls, reply.outputs));
        next := RunTools(next, reply.calls, reply.outputs);
        r := GoOn(next, newMessagesStart);
      case _ => return Over(Failed), stored;
    }
  }

  // Loop.Run. script is what the model and the tools do; the method ends with it at the latest.
  method Run(store: Store, uri: string, incoming: seq<Message>, script: seq<Reply>, tools: bool)
      returns (requests: seq<seq<Message>>, end: End)
    requires store.Valid() && !Blank(uri)
    modifies store
    ensures store.Valid() && store.OthersKept(uri)
    ensures var before := old(store.Transcript(uri));
      var turn := Turn(Repaired(before) + incoming, incoming, script, tools);
      store.Transcript(uri) == AfterRepair(before) + turn.stored && requests == turn.requests && end == turn.end
    ensures Conversation(requests, Repaired(old(store.Transcript(uri))) + incoming, script, tools)
    ensures EndsWith(end, script, |requests| - 1)
  {
    var history := ContextMessages(store, uri);
    ghost var saved := store.Transcript(uri);
    ghost var stored: seq<Message> := [];
    var messages := history + incoming;
    ghost var turn := Turn(messages, incoming, script, tools);
    RequestsGrow(messages, incoming, script, tools);
    TurnEndsWithLastReply(messages, incoming, script, tools);
    var newMessagesStart := |history|;
    requests := [];
    Suffix(history, incoming);
    for round := 0 to |script|
      invariant 0 <= newMessagesStart <= |messages| && store.Valid() && store.OthersKept(uri)
      invariant store.Transcript(uri) == saved + stored
      invariant Joined(turn, stored, requests, Turn(messages, messages[newMessagesStart..], script[round..], tools))
    {
      ghost var unsaved, rest := messages[newMessagesStart..], script[round + 1..];
      HeadOf(script, round);
      var r;
      ghost var exchange;
      r, exchange := Round(store, uri, messages, newMessagesStart, script[round], rest, tools);
      Assoc(saved, stored, exchange);
      RoundJoins(turn, stored, requests, messages, unsaved, script[round], rest, r, exchange, tools);
      stored, requests := stored + exchange, requests + [messages];
      if r.Over? {
        return requests, r.end;
      }
      messages, newMessagesStart := r.messages, r.start;
    }
    assert script[|script|..] == [];
    requests := requests + [messages];
    end := Died;
  }

  // Processor.Handle, up to the TurnEnd event it records on success.
  method Process(store: Store, uri: string, perception: Perception, incoming: seq<Message>, script: seq<Reply>,
      tools: bool)
      returns (requests: seq<seq<Message>>, end: HandleEnd)
    requires store.Valid() && !Blank(uri)
    modifies store
    ensures store.Valid() && store.OthersKept(uri)
    ensures Handled(store.Transcript(uri), requests, end) ==
      Handle(old(store.Transcript(uri)), perception, incoming, script, tools)
  {
    if !perception.Disabled? {
      var seen := ContextMessages(store, uri);
      if perception.Ignores? {
        return [], Ignored;
      }
      if !perception.Queues? {
        return [], HandleFailed;
      }
    }
    var history := ContextMessages(store, uri);
    var turnOffset := |history|;
    var stop;
    requests, stop := Run(store, uri, incoming, script, tools);
    end := match stop
      case Replied(_) => TurnEnded(turnOffset)
      case Failed => HandleFailed
      case Died => Dead;
  }
}
