/** repairHistory: tool calls left without an answer get a synthetic one. */
module Repair {
  import opened Transcript

  // One synthetic result for each call that is not answered.
  function PatchCalls(calls: seq<Call>, answered: set<string>): seq<Message>
    decreases |calls|
  {
    if calls == [] then []
    else
      (if calls[0].id in answered then [] else [ToolResult(calls[0].id, InterruptedNotice)])
      + PatchCalls(calls[1..], answered)
  }

  function Patch(m: Message, later: seq<Message>): seq<Message> {
    if IsCaller(m) then PatchCalls(m.calls, ToolIds(later)) else []
  }

  function Repaired(t: seq<Message>): seq<Message>
    decreases |t|
  {
    if t == [] then [] else [t[0]] + Patch(t[0], t[1..]) + Repaired(t[1..])
  }

  function Injected(t: seq<Message>): seq<Message>
    decreases |t|
  {
    if t == [] then [] else Patch(t[0], t[1..]) + Injected(t[1..])
  }

  lemma SplitAt(t: seq<Message>, i: nat, r: seq<Message>, j: seq<Message>)
    requires i < |t|
    ensures r + Repaired(t[i..]) == r + ([t[i]] + Patch(t[i], t[i + 1..])) + Repaired(t[i + 1..])
    ensures j + Injected(t[i..]) == j + Patch(t[i], t[i + 1..]) + Injected(t[i + 1..])
  {
    assert t[i..][1..] == t[i + 1..];
    Assoc(r, [t[i]] + Patch(t[i], t[i + 1..]), Repaired(t[i + 1..]));
    Assoc(j, Patch(t[i], t[i + 1..]), Injected(t[i + 1..]));
  }

  lemma {:induction false} PatchNext(done: seq<Message>, calls: seq<Call>, k: nat, answered: set<string>)
    requires k < |calls|
    ensures var next := if calls[k].id in answered then done else done + [ToolResult(calls[k].id, InterruptedNotice)];
      next + PatchCalls(calls[k + 1..], answered) == done + PatchCalls(calls[k..], answered)
  {
    assert calls[k..][1..] == calls[k + 1..];
    Assoc(done, [ToolResult(calls[k].id, InterruptedNotice)], PatchCalls(calls[k + 1..], answered));
    assert [] + PatchCalls(calls[k + 1..], answered) == PatchCalls(calls[k + 1..], answered);
  }

  lemma ToolIdsNext(t: seq<Message>, i: nat, j: nat)
    requires i <= j < |t|
    ensures ToolIds(t[i..j + 1]) == ToolIds(t[i..j]) + if t[j].role.Tool? then {t[j].callId} else {}
  {
    assert t[i..j + 1] == t[i..j] + [t[j]];
    ToolIdsConcat(t[i..j], [t[j]]);
    assert [t[j]][0] == t[j];
  }

  // The inner loop that collects the ids answered after message i.
  method SatisfiedAfter(messages: seq<Message>, i: nat) returns (satisfied: map<string, bool>)
    requires i < |messages|
    ensures satisfied.Keys == ToolIds(messages[i + 1..])
  {
    satisfied := map[];
    for j := i + 1 to |messages|
      invariant satisfied.Keys == ToolIds(messages[i + 1..j])
    {
      ToolIdsNext(messages, i + 1, j);
      if messages[j].role.Tool? {
        satisfied := satisfied[messages[j].callId := true];
      }
    }
    assert messages[i + 1..|messages|] == messages[i + 1..];
  }

  // The inner loop that appends a synthetic result to both slices for each call not satisfied.
  method AppendPatch(repaired0: seq<Message>, injected0: seq<Message>, calls: seq<Call>, satisfied: map<string, bool>)
      returns (repaired: seq<Message>, injected: seq<Message>)
    ensures repaired == repaired0 + PatchCalls(calls, satisfied.Keys)
    ensures injected == injected0 + PatchCalls(calls, satisfied.Keys)
  {
    repaired, injected := repaired0, injected0;
    for k := 0 to |calls|
      invariant repaired + PatchCalls(calls[k..], satisfied.Keys) == repaired0 + PatchCalls(calls, satisfied.Keys)
      invariant injected + PatchCalls(calls[k..], satisfied.Keys) == injected0 + PatchCalls(calls, satisfied.Keys)
    {
      PatchNext(repaired, calls, k, satisfied.Keys);
      PatchNext(injected, calls, k, satisfied.Keys);
      if calls[k].id !in satisfied {
        var synthetic := ToolResult(calls[k].id, InterruptedNotice);
        repaired := repaired + [synthetic];
        injected := injected + [synthetic];
      }
    }
  }

  // The body of the outer loop: message i, and the results of its calls that nothing behind it answers.
  method RepairMessage(messages: seq<Message>, i: nat, repaired0: seq<Message>, injected0: seq<Message>)
      returns (repaired: seq<Message>, injected: seq<Message>)
    requires i < |messages|
    ensures repaired == repaired0 + ([messages[i]] + Patch(messages[i], messages[i + 1..]))
    ensures injected == injected0 + Patch(messages[i], messages[i + 1..])
  {
    var msg := messages[i];
    repaired, injected := repaired0 + [msg], injected0;
    if msg.role.Assistant? && |msg.calls| > 0 {
      var satisfied := SatisfiedAfter(messages, i);
      repaired, injected := AppendPatch(repaired, injected, msg.calls, satisfied);
    }
    Assoc(repaired0, [msg], Patch(msg, messages[i + 1..]));
  }

  method RepairHistory(messages: seq<Message>) returns (repaired: seq<Message>, injected: seq<Message>)
    ensures repaired == Repaired(messages)
    ensures injected == Injected(messages)
  {
    repaired, injected := [], [];
    for i := 0 to |messages|
      invariant repaired + Repaired(messages[i..]) == Repaired(messages)
      invariant injected + Injected(messages[i..]) == Injected(messages)
    {
      SplitAt(messages, i, repaired, injected);
      repaired, injected := RepairMessage(messages, i, repaired, injected);
    }
  }

  /* Every call is answered afterwards */

  // Each tool call has a later tool message with its id.
  ghost predicate Answered(t: seq<Message>) {
    forall i | 0 <= i < |t| :: AnsweredAt(t, i)
  }

  ghost predicate AnsweredAt(t: seq<Message>, i: nat)
    requires i < |t|
  {
    IsCaller(t[i]) ==> CallsIn(t[i].calls, ToolIds(t[i + 1..]))
  }

  ghost predicate CallsIn(calls: seq<Call>, ids: set<string>) {
    forall k | 0 <= k < |calls| :: calls[k].id in ids
  }

  lemma AnsweredCons(m: Message, t: seq<Message>)
    ensures Answered([m] + t) <==> Answered(t) && (IsCaller(m) ==> CallsIn(m.calls, ToolIds(t)))
  {
    var s := [m] + t;
    AnsweredHead(m, t);
    forall i: nat | i < |t| ensures AnsweredAt(s, i + 1) <==> AnsweredAt(t, i) {
      AnsweredShift(m, t, i);
    }
    if Answered(t) && AnsweredAt(s, 0) {
      forall i: nat | i < |s| ensures AnsweredAt(s, i) {
        assert i > 0 ==> AnsweredAt(t, i - 1);
      }
    }
  }

  lemma AnsweredHead(m: Message, t: seq<Message>)
    ensures AnsweredAt([m] + t, 0) <==> (IsCaller(m) ==> CallsIn(m.calls, ToolIds(t)))
  {
    assert ([m] + t)[0 + 1..] == t;
  }

  lemma AnsweredShift(m: Message, t: seq<Message>, i: nat)
    requires i < |t|
    ensures AnsweredAt([m] + t, i + 1) <==> AnsweredAt(t, i)
  {
    assert ([m] + t)[i + 1 + 1..] == t[i + 1..];
  }

  lemma CallsInCons(call: Call, calls: seq<Call>, ids: set<string>)
    ensures CallsIn([call] + calls, ids) <==> call.id in ids && CallsIn(calls, ids)
  {
    var all := [call] + calls;
    assert forall k | 0 <= k < |calls| :: calls[k] == all[k + 1];
    if call.id in ids && CallsIn(calls, ids) {
      assert forall k | 0 < k < |all| :: all[k] == calls[k - 1];
    }
    if CallsIn(all, ids) {
      assert all[0].id in ids;
      forall k | 0 <= k < |calls| ensures calls[k].id in ids {
        assert all[k + 1].id in ids;
      }
    }
  }

  lemma {:induction false} PatchAnswers(calls: seq<Call>, answered: set<string>)
    ensures CallsIn(calls, answered + ToolIds(PatchCalls(calls, answered)))
    ensures forall i | 0 <= i < |PatchCalls(calls, answered)| :: PatchCalls(calls, answered)[i].role.Tool?
    ensures PatchCalls(calls, answered) == [] <==> CallsIn(calls, answered)
    decreases |calls|
  {
    if calls != [] {
      PatchAnswers(calls[1..], answered);
      var head := if calls[0].id in answered then [] else [ToolResult(calls[0].id, InterruptedNotice)];
      var tail := PatchCalls(calls[1..], answered);
      ToolIdsConcat(head, tail);
      if head != [] {
        assert head[0].callId in ToolIds(head);
      }
      forall k | 0 <= k < |calls| ensures calls[k].id in answered + ToolIds(head + tail) {
        if k > 0 {
          assert calls[k] == calls[1..][k - 1];
        }
      }
      assert calls == [calls[0]] + calls[1..];
      CallsInCons(calls[0], calls[1..], answered);
    }
  }

  lemma {:induction false} PrependTools(tools: seq<Message>, t: seq<Message>)
    requires forall i | 0 <= i < |tools| :: tools[i].role.Tool?
    requires Answered(t)
    ensures Answered(tools + t)
    decreases |tools|
  {
    if tools == [] {
      assert tools + t == t;
    } else {
      PrependTools(tools[1..], t);
      assert tools + t == [tools[0]] + (tools[1..] + t);
      AnsweredCons(tools[0], tools[1..] + t);
    }
  }

  lemma {:induction false} RepairedToolIds(t: seq<Message>)
    ensures ToolIds(Repaired(t)) == ToolIds(t) + ToolIds(Injected(t))
    decreases |t|
  {
    if t != [] {
      RepairedToolIds(t[1..]);
      var p := Patch(t[0], t[1..]);
      assert Repaired(t) == [t[0]] + (p + Repaired(t[1..])) && t == [t[0]] + t[1..];
      ToolIdsConcat([t[0]], p + Repaired(t[1..]));
      ToolIdsConcat(p, Repaired(t[1..]));
      ToolIdsConcat([t[0]], t[1..]);
      ToolIdsConcat(p, Injected(t[1..]));
    }
  }

  lemma {:induction false} RepairAnswersAll(t: seq<Message>)
    ensures Answered(Repaired(t))
    decreases |t|
  {
    if t != [] {
      RepairAnswersAll(t[1..]);
      RepairedToolIds(t[1..]);
      var p, r := Patch(t[0], t[1..]), Repaired(t[1..]);
      PatchCompletes(t[0], t[1..], r);
      PrependTools(p, r);
      AnsweredCons(t[0], p + r);
      Assoc([t[0]], p, r);
    }
  }

  // With its patch in front of whatever was there, a caller has every answer.
  lemma PatchCompletes(m: Message, t: seq<Message>, r: seq<Message>)
    requires ToolIds(t) <= ToolIds(r)
    ensures forall i | 0 <= i < |Patch(m, t)| :: Patch(m, t)[i].role.Tool?
    ensures IsCaller(m) ==> CallsIn(m.calls, ToolIds(Patch(m, t) + r))
  {
    if IsCaller(m) {
      PatchAnswers(m.calls, ToolIds(t));
    }
    ToolIdsConcat(Patch(m, t), r);
  }

  // The same when the patch comes anywhere later.
  lemma PatchSuffices(m: Message, t: seq<Message>, ids: set<string>)
    requires ToolIds(t) <= ids && ToolIds(Patch(m, t)) <= ids
    ensures IsCaller(m) ==> CallsIn(m.calls, ids)
  {
    if IsCaller(m) {
      PatchAnswers(m.calls, ToolIds(t));
    }
  }

  /* Nothing is injected exactly when nothing is missing */

  lemma {:induction false} InjectsNothingIffAnswered(t: seq<Message>)
    ensures Injected(t) == [] <==> Answered(t)
    ensures Answered(t) ==> Repaired(t) == t
    decreases |t|
  {
    if t != [] {
      InjectsNothingIffAnswered(t[1..]);
      assert t == [t[0]] + t[1..];
      AnsweredCons(t[0], t[1..]);
      if IsCaller(t[0]) {
        PatchAnswers(t[0].calls, ToolIds(t[1..]));
      }
    }
  }

  lemma {:induction false} InjectedAreTools(t: seq<Message>)
    ensures forall i | 0 <= i < |Injected(t)| :: Injected(t)[i].role.Tool?
    decreases |t|
  {
    if t != [] {
      InjectedAreTools(t[1..]);
      if IsCaller(t[0]) {
        PatchAnswers(t[0].calls, ToolIds(t[1..]));
      }
    }
  }

  // What is injected is the notice, for calls that nothing behind them answers.
  lemma {:induction false} InjectedAreNotices(t: seq<Message>)
    ensures forall m | m in Injected(t) ::
      m == Message(Tool, InterruptedNotice, [], [], m.callId, Unset) && OpenCall(t, m.callId)
    decreases |t|
  {
    if t != [] {
      InjectedAreNotices(t[1..]);
      forall m | m in Injected(t)
        ensures m == Message(Tool, InterruptedNotice, [], [], m.callId, Unset) && OpenCall(t, m.callId)
      {
        if m in Patch(t[0], t[1..]) {
          PatchIsNotices(t[0].calls, ToolIds(t[1..]), m);
          assert OpenAt(t, 0, m.callId);
        } else {
          var i: nat :| OpenAt(t[1..], i, m.callId);
          assert t[1..][i + 1..] == t[i + 2..];
          assert OpenAt(t, i + 1, m.callId);
        }
      }
    }
  }

  // Some message calls id and no tool message behind it has that id.
  ghost predicate OpenCall(t: seq<Message>, id: string) {
    exists i: nat :: OpenAt(t, i, id)
  }

  ghost predicate OpenAt(t: seq<Message>, i: nat, id: string) {
    && i < |t| && IsCaller(t[i]) && id !in ToolIds(t[i + 1..])
    && exists k | 0 <= k < |t[i].calls| :: t[i].calls[k].id == id
  }

  lemma {:induction false} PatchIsNotices(calls: seq<Call>, answered: set<string>, m: Message)
    requires m in PatchCalls(calls, answered)
    ensures m == Message(Tool, InterruptedNotice, [], [], m.callId, Unset) && m.callId !in answered
    ensures exists k | 0 <= k < |calls| :: calls[k].id == m.callId
    decreases |calls|
  {
    if m in PatchCalls(calls[1..], answered) {
      PatchIsNotices(calls[1..], answered, m);
      var k :| 0 <= k < |calls[1..]| && calls[1..][k].id == m.callId;
      assert calls[k + 1].id == m.callId;
    } else {
      assert calls[0].id == m.callId;
    }
  }

  lemma {:induction false} AppendAnswers(t: seq<Message>, more: seq<Message>)
    requires forall i | 0 <= i < |more| :: more[i].role.Tool?
    requires ToolIds(Injected(t)) <= ToolIds(more)
    ensures Answered(t + more)
    decreases |t|
  {
    if t == [] {
      assert t + more == more;
    } else {
      var u := t[1..];
      ToolIdsConcat(Patch(t[0], u), Injected(u));
      AppendAnswers(u, more);
      ToolIdsConcat(u, more);
      PatchSuffices(t[0], u, ToolIds(u + more));
      AnsweredCons(t[0], u + more);
      Uncons(t, more);
    }
  }

  // A second repair finds nothing to do, on the repaired transcript and on what the store holds.
  lemma {:induction false} RepairIsIdempotent(t: seq<Message>)
    ensures Injected(Repaired(t)) == [] && Repaired(Repaired(t)) == Repaired(t)
    ensures Injected(t + Injected(t)) == [] && Repaired(t + Injected(t)) == t + Injected(t)
  {
    RepairAnswersAll(t);
    InjectsNothingIffAnswered(Repaired(t));
    InjectedAreTools(t);
    AppendAnswers(t, Injected(t));
    InjectsNothingIffAnswered(t + Injected(t));
  }

  /* Nothing else changes */

  // The messages of t at the positions where the mask says b.
  function Keep(t: seq<Message>, mask: seq<bool>, b: bool): seq<Message>
    requires |mask| == |t|
    decreases |t|
  {
    if t == [] then [] else (if mask[0] == b then [t[0]] else []) + Keep(t[1..], mask[1..], b)
  }

  lemma {:induction false} KeepConcat(t: seq<Message>, u: seq<Message>, mask: seq<bool>, nask: seq<bool>, b: bool)
    requires |mask| == |t| && |nask| == |u|
    ensures Keep(t + u, mask + nask, b) == Keep(t, mask, b) + Keep(u, nask, b)
    decreases |t|
  {
    if t == [] {
      assert t + u == u && mask + nask == nask;
    } else {
      assert (t + u)[1..] == t[1..] + u && (mask + nask)[1..] == mask[1..] + nask;
      KeepConcat(t[1..], u, mask[1..], nask, b);
      var head := if mask[0] == b then [t[0]] else [];
      assert head + (Keep(t[1..], mask[1..], b) + Keep(u, nask, b)) == Keep(t, mask, b) + Keep(u, nask, b);
    }
  }

  lemma {:induction false} KeepAll(t: seq<Message>, mask: seq<bool>, b: bool)
    requires |mask| == |t| && forall i | 0 <= i < |t| :: mask[i]
    ensures Keep(t, mask, b) == if b then t else []
    decreases |t|
  {
    if t != [] {
      KeepAll(t[1..], mask[1..], b);
    }
  }

  // Taking the injected messages out of the repaired transcript gives the input back, in order.
  lemma {:induction false} RepairIsConservative(t: seq<Message>) returns (added: seq<bool>)
    ensures |added| == |Repaired(t)|
    ensures Keep(Repaired(t), added, false) == t
    ensures Keep(Repaired(t), added, true) == Injected(t)
    decreases |t|
  {
    if t == [] {
      added := [];
    } else {
      var rest := RepairIsConservative(t[1..]);
      var p := Patch(t[0], t[1..]);
      var fill := seq(|p|, _ => true);
      added := [false] + (fill + rest);
      assert Repaired(t) == [t[0]] + (p + Repaired(t[1..]));
      KeepConcat([t[0]], p + Repaired(t[1..]), [false], fill + rest, false);
      KeepConcat([t[0]], p + Repaired(t[1..]), [false], fill + rest, true);
      KeepConcat(p, Repaired(t[1..]), fill, rest, false);
      KeepConcat(p, Repaired(t[1..]), fill, rest, true);
      KeepAll(p, fill, false);
      KeepAll(p, fill, true);
    }
  }

  /* When the store ends up with what the model is shown */

  // Only the last message may have calls without an answer.
  ghost predicate OnlyLastOpen(t: seq<Message>) {
    forall i | 0 <= i < |t| - 1 :: Patch(t[i], t[i + 1..]) == []
  }

  lemma {:induction false} StoredIsShownIffOnlyLastOpen(t: seq<Message>)
    ensures Repaired(t) == t + Injected(t) <==> OnlyLastOpen(t)
    decreases |t|
  {
    if t != [] {
      OnlyLastOpenCons(t);
      if Patch(t[0], t[1..]) == [] {
        StoredIsShownIffOnlyLastOpen(t[1..]);
        NoPatchTail(t);
        ConsInjective(t[0], Repaired(t[1..]), t[1..] + Injected(t[1..]));
      } else if |t| == 1 {
        AloneIsStored(t);
      } else {
        PatchComesFirst(t);
      }
    }
  }

  lemma {:induction false} AloneIsStored(t: seq<Message>)
    requires |t| == 1
    ensures Repaired(t) == t + Injected(t) && OnlyLastOpen(t)
  {
    assert t == [t[0]] && t[1..] == [];
  }

  lemma ConsInjective(x: Message, a: seq<Message>, b: seq<Message>)
    ensures [x] + a == [x] + b <==> a == b
  {
    assert ([x] + a)[1..] == a && ([x] + b)[1..] == b;
  }

  lemma {:induction false} NoPatchTail(t: seq<Message>)
    requires t != [] && Patch(t[0], t[1..]) == []
    ensures Repaired(t) == [t[0]] + Repaired(t[1..])
    ensures t + Injected(t) == [t[0]] + (t[1..] + Injected(t[1..]))
  {
    Uncons(t, Injected(t[1..]));
  }

  lemma Uncons(t: seq<Message>, u: seq<Message>)
    requires t != []
    ensures t + u == [t[0]] + (t[1..] + u)
    ensures [] + u == u && forall x: Message :: [x] + [] + u == [x] + u
  {
  }

  lemma {:induction false} PatchComesFirst(t: seq<Message>)
    requires |t| > 1 && Patch(t[0], t[1..]) != []
    ensures Repaired(t) != t + Injected(t)
  {
    var p, u := Patch(t[0], t[1..]), t[1..];
    PatchIsNew(t[0].calls, ToolIds(u));
    assert p[0].callId !in ToolIds(u);
    assert u[0].role.Tool? ==> u[0].callId in ToolIds(u);
    PatchAnswers(t[0].calls, ToolIds(u));
    assert p[0] != u[0];
    assert Repaired(t) == [t[0]] + p + Repaired(u);
    assert Repaired(t)[1] == p[0];
    assert (t + Injected(t))[1] == u[0];
  }

  lemma OnlyLastOpenCons(t: seq<Message>)
    requires t != []
    ensures OnlyLastOpen(t) <==> OnlyLastOpen(t[1..]) && (|t| == 1 || Patch(t[0], t[1..]) == [])
  {
    var u := t[1..];
    assert forall i | 0 <= i < |u| :: u[i] == t[i + 1] && u[i + 1..] == t[i + 2..];
    if OnlyLastOpen(u) && (|t| == 1 || Patch(t[0], u) == []) {
      forall i | 0 <= i < |t| - 1 ensures Patch(t[i], t[i + 1..]) == [] {
        if i > 0 {
          assert Patch(u[i - 1], u[i - 1 + 1..]) == [];
        }
      }
    }
    if OnlyLastOpen(t) {
      forall i | 0 <= i < |u| - 1 ensures Patch(u[i], u[i + 1..]) == [] {
        assert Patch(t[i + 1], t[i + 1 + 1..]) == [];
      }
    }
  }

  lemma {:induction false} PatchIsNew(calls: seq<Call>, answered: set<string>)
    ensures forall i | 0 <= i < |PatchCalls(calls, answered)| :: PatchCalls(calls, answered)[i].callId !in answered
    decreases |calls|
  {
    if calls != [] {
      PatchIsNew(calls[1..], answered);
    }
  }
}
