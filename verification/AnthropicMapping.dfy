/** mapMessages: from the transcript to the provider's messages. */
module AnthropicMapping {
  import opened Options
  import opened Transcript
  import opened Repair
  import opened AgentTurn

  datatype Block =
    | TextBlock(text: Text)
    | ImageBlock(mime: string, data: string)
    | ToolUseBlock(id: string, input: string, name: string)
    | ToolResultBlock(id: string, content: Text)

  // A provider message: from the user or from the assistant.
  datatype Param = UserParam(blocks: seq<Block>) | AssistantParam(blocks: seq<Block>)

  datatype Mapped = Ok(params: seq<Param>) | UnsupportedRole(name: string)

  // A tool call without arguments is sent with an empty object.
  function Input(arguments: string): string {
    if arguments == "" then "{}" else arguments
  }

  function PartBlocks(parts: seq<Part>): seq<Block>
    decreases |parts|
  {
    if parts == [] then [] else PartBlock(parts[0]) + PartBlocks(parts[1..])
  }

  function PartBlock(part: Part): seq<Block> {
    match part
    case TextPart(text) => [TextBlock(Plain(text))]
    case ImagePart(Some(image)) => [ImageBlock(image.mime, image.data)]
    case ImagePart(None) => []
    case UnknownPart => []
  }

  function UserBlocks(m: Message): seq<Block> {
    if m.parts == [] then [TextBlock(m.content)] else PartBlocks(m.parts)
  }

  function UseBlocks(calls: seq<Call>): seq<Block> {
    seq(|calls|, k requires 0 <= k < |calls| => ToolUseBlock(calls[k].id, Input(calls[k].arguments), calls[k].name))
  }

  function AssistantBlocks(m: Message): seq<Block> {
    if m.content.Empty() && m.calls == [] then [TextBlock(Plain(" "))]
    else (if m.content.Empty() then [] else [TextBlock(m.content)]) + UseBlocks(m.calls)
  }

  predicate IsTool(m: Option<Message>) {
    m.Some? && m.value.role.Tool?
  }

  // The length of the run of tool messages at the head.
  function RunLength(msgs: seq<Option<Message>>): (n: nat)
    ensures n <= |msgs| && forall i | 0 <= i < n :: IsTool(msgs[i])
    decreases |msgs|
  {
    if msgs != [] && IsTool(msgs[0]) then 1 + RunLength(msgs[1..]) else 0
  }

  function ResultBlocks(msgs: seq<Option<Message>>): seq<Block>
    requires forall i | 0 <= i < |msgs| :: IsTool(msgs[i])
  {
    seq(|msgs|, i requires 0 <= i < |msgs| && IsTool(msgs[i]) =>
      ToolResultBlock(msgs[i].value.callId, msgs[i].value.content))
  }

  function Cons(p: Param, m: Mapped): Mapped {
    if m.Ok? then Ok([p] + m.params) else m
  }

  function MapAll(msgs: seq<Option<Message>>): Mapped
    decreases |msgs|
  {
    if msgs == [] then Ok([])
    else if msgs[0].None? then MapAll(msgs[1..])
    else match msgs[0].value.role
      case System => MapAll(msgs[1..])
      case User => Cons(UserParam(UserBlocks(msgs[0].value)), MapAll(msgs[1..]))
      case Assistant => Cons(AssistantParam(AssistantBlocks(msgs[0].value)), MapAll(msgs[1..]))
      case Tool =>
        var n := RunLength(msgs);
        Cons(UserParam(ResultBlocks(msgs[..n])), MapAll(msgs[n..]))
      case Unknown(name) => UnsupportedRole(name)
  }

  /* The loops */

  method UserBlocksOf(m: Message) returns (blocks: seq<Block>)
    ensures blocks == UserBlocks(m)
    ensures m.role.User? ==> Items(true, blocks) == MessageItems(m)
  {
    if m.role.User? {
      UserAsItems(m);
    }
    if |m.parts| == 0 {
      return [TextBlock(m.content)];
    }
    blocks := [];
    for i := 0 to |m.parts|
      invariant blocks + PartBlocks(m.parts[i..]) == PartBlocks(m.parts)
    {
      assert m.parts[i..][1..] == m.parts[i + 1..];
      Assoc(blocks, PartBlock(m.parts[i]), PartBlocks(m.parts[i + 1..]));
      assert blocks + [] == blocks;
      match m.parts[i] {
        case TextPart(text) => blocks := blocks + [TextBlock(Plain(text))];
        case ImagePart(image) =>
          if image.Some? {
            blocks := blocks + [ImageBlock(image.value.mime, image.value.data)];
          }
        case UnknownPart =>
      }
    }
  }

  method AssistantBlocksOf(m: Message) returns (blocks: seq<Block>)
    ensures blocks == AssistantBlocks(m)
    ensures m.role.Assistant? ==> Items(false, blocks) == MessageItems(m)
  {
    blocks := [];
    if m.role.Assistant? {
      AssistantAsItems(m);
    }
    if !m.content.Empty() {
      blocks := blocks + [TextBlock(m.content)];
    }
    ghost var head := blocks;
    for k := 0 to |m.calls|
      invariant blocks == head + UseBlocks(m.calls)[..k]
    {
      blocks := blocks + [ToolUseBlock(m.calls[k].id, Input(m.calls[k].arguments), m.calls[k].name)];
    }
    assert UseBlocks(m.calls)[..|m.calls|] == UseBlocks(m.calls);
    if |blocks| == 0 {
      return [TextBlock(Plain(" "))];
    }
  }

  // What the loop has mapped so far, put before the mapping of the rest.
  function Before(out: seq<Param>, rest: Mapped): Mapped {
    if rest.Ok? then Ok(out + rest.params) else rest
  }

  lemma BeforeCons(out: seq<Param>, p: Param, rest: Mapped)
    ensures Before(out, Cons(p, rest)) == Before(out + [p], rest)
  {
    if rest.Ok? {
      Assoc(out, [p], rest.params);
    }
  }

  lemma RunAt(msgs: seq<Option<Message>>, i: nat)
    requires i < |msgs| && IsTool(msgs[i])
    ensures RunLength(msgs[i..]) == 1 + RunLength(msgs[i + 1..])
  {
    assert msgs[i..][1..] == msgs[i + 1..];
  }

  // The inner loop over consecutive tool messages.
  method ToolRun(msgs: seq<Option<Message>>, start: nat) returns (blocks: seq<Block>, i: nat)
    requires start <= |msgs|
    ensures i == start + RunLength(msgs[start..])
    ensures blocks == ResultBlocks(msgs[start..][..RunLength(msgs[start..])])
  {
    blocks, i := [], start;
    ghost var n := RunLength(msgs[start..]);
    while i < |msgs| && msgs[i].Some? && msgs[i].value.role.Tool?
      invariant start <= i <= |msgs| && i + RunLength(msgs[i..]) == start + n
      invariant blocks == ResultBlocks(msgs[start..][..n])[..i - start]
    {
      RunAt(msgs, i);
      ghost var run := msgs[start..][..n];
      assert run[i - start] == msgs[i];
      ghost var next := ResultBlocks(run);
      assert next[..i + 1 - start] == next[..i - start] + [next[i - start]];
      blocks := blocks + [ToolResultBlock(msgs[i].value.callId, msgs[i].value.content)];
      i := i + 1;
    }
  }

  method MapMessages(msgs: seq<Option<Message>>) returns (result: Mapped)
    ensures result == MapAll(msgs)
  {
    var out: seq<Param> := [];
    var i := 0;
    while i < |msgs|
      invariant 0 <= i <= |msgs|
      invariant Before(out, MapAll(msgs[i..])) == MapAll(msgs)
    {
      ghost var rest := msgs[i..];
      assert rest[0] == msgs[i] && rest[1..] == msgs[i + 1..];
      if msgs[i].None? {
        i := i + 1;
        continue;
      }
      var msg := msgs[i].value;
      match msg.role {
        case System => i := i + 1;
        case User =>
          var blocks := UserBlocksOf(msg);
          BeforeCons(out, UserParam(blocks), MapAll(rest[1..]));
          out := out + [UserParam(blocks)];
          i := i + 1;
        case Assistant =>
          var blocks := AssistantBlocksOf(msg);
          BeforeCons(out, AssistantParam(blocks), MapAll(rest[1..]));
          out := out + [AssistantParam(blocks)];
          i := i + 1;
        case Tool =>
          var blocks, j := ToolRun(msgs, i);
          assert rest[j - i..] == msgs[j..];
          BeforeCons(out, UserParam(blocks), MapAll(msgs[j..]));
          out := out + [UserParam(blocks)];
          i := j;
        case Unknown(name) => return UnsupportedRole(name);
      }
    }
    result := Ok(out);
  }

  /* Pairing */

  function UseIds(blocks: seq<Block>): set<string> {
    set k | 0 <= k < |blocks| && blocks[k].ToolUseBlock? :: blocks[k].id
  }

  function ResultIds(blocks: seq<Block>): set<string> {
    set k | 0 <= k < |blocks| && blocks[k].ToolResultBlock? :: blocks[k].id
  }

  // An assistant message that uses tools is followed by a user message with a result for each use.
  predicate FollowedBy(p: Param, rest: seq<Param>) {
    p.AssistantParam? && UseIds(p.blocks) != {} ==>
      rest != [] && rest[0].UserParam? && UseIds(p.blocks) <= ResultIds(rest[0].blocks)
  }

  ghost predicate Paired(params: seq<Param>)
    decreases |params|
  {
    params == [] || (FollowedBy(params[0], params[1..]) && Paired(params[1..]))
  }

  // The tool messages directly at the head.
  function Run(t: seq<Message>): (n: nat)
    ensures n <= |t| && forall i | 0 <= i < n :: t[i].role.Tool?
    decreases |t|
  {
    if t != [] && t[0].role.Tool? then 1 + Run(t[1..]) else 0
  }

  // Every call is answered in the tool run right after its message.
  ghost predicate RunAnswered(t: seq<Message>)
    decreases |t|
  {
    t == [] || ((IsCaller(t[0]) ==> CallsIn(t[0].calls, ToolIds(t[1..][..Run(t[1..])]))) && RunAnswered(t[1..]))
  }

  // Every call that is answered at all is answered there.
  ghost predicate AnsweredInRun(t: seq<Message>)
    decreases |t|
  {
    t == [] ||
    ((IsCaller(t[0]) ==> forall k | 0 <= k < |t[0].calls| && t[0].calls[k].id in ToolIds(t[1..]) ::
        t[0].calls[k].id in ToolIds(t[1..][..Run(t[1..])]))
     && AnsweredInRun(t[1..]))
  }

  ghost predicate Mappable(t: seq<Message>) {
    forall i | 0 <= i < |t| :: t[i].role.User? || t[i].role.Assistant? || t[i].role.Tool?
  }

  function Pointers(t: seq<Message>): (r: seq<Option<Message>>)
    ensures |r| == |t| && forall i | 0 <= i < |t| :: r[i] == Some(t[i])
  {
    seq(|t|, i requires 0 <= i < |t| => Some(t[i]))
  }

  lemma {:induction false} PointersRun(t: seq<Message>)
    ensures RunLength(Pointers(t)) == Run(t)
    decreases |t|
  {
    if t != [] {
      PointersRun(t[1..]);
      assert Pointers(t)[1..] == Pointers(t[1..]);
    }
  }

  lemma ResultIdsOfRun(t: seq<Message>)
    requires forall i | 0 <= i < |t| :: t[i].role.Tool?
    ensures ResultIds(ResultBlocks(Pointers(t))) == ToolIds(t)
  {
    var b := ResultBlocks(Pointers(t));
    assert forall i | 0 <= i < |t| :: b[i] == ToolResultBlock(t[i].callId, t[i].content);
    forall id | id in ToolIds(t) ensures id in ResultIds(b) {
      var i :| 0 <= i < |t| && t[i].role.Tool? && t[i].callId == id;
      assert b[i].ToolResultBlock? && b[i].id == id;
    }
  }

  lemma UsesCovered(m: Message, ids: set<string>)
    ensures m.calls == [] <==> UseIds(AssistantBlocks(m)) == {}
    ensures UseIds(AssistantBlocks(m)) <= ids <==> CallsIn(m.calls, ids)
  {
    var b := AssistantBlocks(m);
    UseIdsAre(m);
    if m.calls != [] {
      assert m.calls[0].id in UseIds(b);
    }
    if UseIds(b) <= ids {
      assert forall k | 0 <= k < |m.calls| :: m.calls[k].id in UseIds(b);
    }
  }

  lemma UseIdsAre(m: Message)
    ensures forall id :: id in UseIds(AssistantBlocks(m)) <==> exists k | 0 <= k < |m.calls| :: m.calls[k].id == id
  {
    var text := if m.content.Empty() then [] else [TextBlock(m.content)];
    UseIdsConcat(text, UseBlocks(m.calls));
    UseIdsOfCalls(m.calls);
    assert UseIds(text) == {} && UseIds([TextBlock(Plain(" "))]) == {};
  }

  lemma UseIdsConcat(a: seq<Block>, b: seq<Block>)
    ensures UseIds(a + b) == UseIds(a) + UseIds(b)
  {
    forall id | id in UseIds(a) ensures id in UseIds(a + b) {
      var k :| 0 <= k < |a| && a[k].ToolUseBlock? && a[k].id == id;
      assert (a + b)[k] == a[k];
    }
    forall id | id in UseIds(b) ensures id in UseIds(a + b) {
      var k :| 0 <= k < |b| && b[k].ToolUseBlock? && b[k].id == id;
      assert (a + b)[|a| + k] == b[k];
    }
  }

  lemma UseIdsOfCalls(calls: seq<Call>)
    ensures forall id :: id in UseIds(UseBlocks(calls)) <==> exists k | 0 <= k < |calls| :: calls[k].id == id
  {
    var b := UseBlocks(calls);
    assert forall k | 0 <= k < |calls| :: b[k].ToolUseBlock? && b[k].id == calls[k].id;
  }

  lemma {:induction false} NoUsesInParts(parts: seq<Part>)
    ensures ResultIds(PartBlocks(parts)) == {}
    decreases |parts|
  {
    if parts != [] {
      NoUsesInParts(parts[1..]);
      ResultIdsConcat(PartBlock(parts[0]), PartBlocks(parts[1..]));
    }
  }

  lemma ResultIdsConcat(a: seq<Block>, b: seq<Block>)
    ensures ResultIds(a + b) <= ResultIds(a) + ResultIds(b)
  {
  }

  // What follows an assistant message offers exactly the ids of the tool run after it.
  lemma {:induction false} OffersRun(t: seq<Message>)
    requires Mappable(t) && MapAll(Pointers(t)).Ok?
    ensures var params := MapAll(Pointers(t)).params;
      ToolIds(t[..Run(t)]) == if params != [] && params[0].UserParam? then ResultIds(params[0].blocks) else {}
  {
    if t != [] {
      match t[0].role {
        case Tool =>
          PointersRun(t);
          ResultIdsOfRun(t[..Run(t)]);
          assert Pointers(t)[..Run(t)] == Pointers(t[..Run(t)]);
        case User => NoUsesInParts(t[0].parts);
        case Assistant =>
        case _ =>
      }
    }
  }

  lemma {:induction false} ToolsAreRunAnswered(t: seq<Message>, n: nat)
    requires n <= |t| && forall i | 0 <= i < n :: t[i].role.Tool?
    ensures RunAnswered(t) <==> RunAnswered(t[n..])
    ensures AnsweredInRun(t) <==> AnsweredInRun(t[n..])
    decreases n
  {
    if n > 0 {
      ToolsAreRunAnswered(t[1..], n - 1);
      assert t[1..][n - 1..] == t[n..];
    }
  }

  // The mapping keeps calls and results together exactly when the transcript does.
  lemma {:induction false} MappedPairedIff(t: seq<Message>)
    requires Mappable(t)
    ensures MapAll(Pointers(t)).Ok? && (Paired(MapAll(Pointers(t)).params) <==> RunAnswered(t))
    decreases |t|
  {
    if t != [] {
      match t[0].role {
        case Tool =>
          var n := Run(t);
          PointersRun(t);
          assert Pointers(t)[n..] == Pointers(t[n..]);
          MappedPairedIff(t[n..]);
          ToolsAreRunAnswered(t, n);
          PairedCons(UserParam(ResultBlocks(Pointers(t)[..n])), MapAll(Pointers(t[n..])).params);
        case User =>
          assert Pointers(t)[1..] == Pointers(t[1..]);
          MappedPairedIff(t[1..]);
          PairedCons(UserParam(UserBlocks(t[0])), MapAll(Pointers(t[1..])).params);
        case Assistant =>
          assert Pointers(t)[1..] == Pointers(t[1..]);
          MappedPairedIff(t[1..]);
          OffersRun(t[1..]);
          UsesCovered(t[0], ToolIds(t[1..][..Run(t[1..])]));
          PairedCons(AssistantParam(AssistantBlocks(t[0])), MapAll(Pointers(t[1..])).params);
        case _ =>
      }
    }
  }

  lemma {:induction false} PairedCons(p: Param, rest: seq<Param>)
    ensures Paired([p] + rest) <==> FollowedBy(p, rest) && Paired(rest)
  {
    assert ([p] + rest)[1..] == rest;
  }

  /* Repair, then map */

  lemma {:induction false} RepairKeepsRun(t: seq<Message>)
    ensures Run(Repaired(t)) == Run(t) && Repaired(t)[..Run(t)] == t[..Run(t)]
    decreases |t|
  {
    if t != [] && t[0].role.Tool? {
      RepairKeepsRun(t[1..]);
      NoPatchTail(t);
      RunCons(t[0], Repaired(t[1..]));
      RunCons(t[0], t[1..]);
      assert t == [t[0]] + t[1..];
    } else if t != [] {
      assert Repaired(t)[0] == t[0];
    }
  }

  lemma {:induction false} RunCons(m: Message, t: seq<Message>)
    requires m.role.Tool?
    ensures Run([m] + t) == 1 + Run(t)
    ensures ([m] + t)[..1 + Run(t)] == [m] + t[..Run(t)]
  {
    assert ([m] + t)[1..] == t;
  }

  lemma {:induction false} RunOfTools(tools: seq<Message>, t: seq<Message>)
    requires forall i | 0 <= i < |tools| :: tools[i].role.Tool?
    ensures Run(tools + t) == |tools| + Run(t)
    decreases |tools|
  {
    if tools == [] {
      assert tools + t == t;
    } else {
      assert (tools + t)[1..] == tools[1..] + t;
      RunOfTools(tools[1..], t);
    }
  }

  // The tool run right after a repaired caller: its patch, then the run it had before.
  lemma {:induction false} RunAfterPatch(calls: seq<Call>, u: seq<Message>)
    ensures var later := PatchCalls(calls, ToolIds(u)) + Repaired(u);
      ToolIds(later[..Run(later)]) == ToolIds(PatchCalls(calls, ToolIds(u))) + ToolIds(u[..Run(u)])
  {
    var p := PatchCalls(calls, ToolIds(u));
    PatchAnswers(calls, ToolIds(u));
    RepairKeepsRun(u);
    RunOfSum(p, Repaired(u), u);
  }

  lemma {:induction false} RunOfSum(p: seq<Message>, r: seq<Message>, u: seq<Message>)
    requires forall i | 0 <= i < |p| :: p[i].role.Tool?
    requires Run(r) == Run(u) && r[..Run(u)] == u[..Run(u)]
    ensures ToolIds((p + r)[..Run(p + r)]) == ToolIds(p) + ToolIds(u[..Run(u)])
  {
    RunOfTools(p, r);
    TakeSum(p, r, Run(r));
    ToolIdsConcat(p, r[..Run(r)]);
  }

  lemma TakeSum(a: seq<Message>, b: seq<Message>, n: nat)
    requires n <= |b|
    ensures (a + b)[..|a| + n] == a + b[..n]
  {
  }

  lemma {:induction false} PatchCovers(calls: seq<Call>, u: seq<Message>)
    ensures CallsIn(calls, ToolIds(PatchCalls(calls, ToolIds(u))) + ToolIds(u[..Run(u)])) <==>
      forall k | 0 <= k < |calls| && calls[k].id in ToolIds(u) :: calls[k].id in ToolIds(u[..Run(u)])
  {
    var p := PatchCalls(calls, ToolIds(u));
    PatchAnswers(calls, ToolIds(u));
    PatchIsNew(calls, ToolIds(u));
    forall id | id in ToolIds(p) ensures id !in ToolIds(u) {
      var i :| 0 <= i < |p| && p[i].role.Tool? && p[i].callId == id;
    }
  }

  lemma {:induction false} RepairedParts(t: seq<Message>)
    requires t != []
    ensures Repaired(t) != [] && Repaired(t)[0] == t[0] && Repaired(t)[1..] == Patch(t[0], t[1..]) + Repaired(t[1..])
  {
    Assoc([t[0]], Patch(t[0], t[1..]), Repaired(t[1..]));
  }

  lemma {:induction false} PatchedRunAnswered(calls: seq<Call>, u: seq<Message>)
    ensures RunAnswered(PatchCalls(calls, ToolIds(u)) + Repaired(u)) <==> RunAnswered(Repaired(u))
  {
    var p := PatchCalls(calls, ToolIds(u));
    PatchAnswers(calls, ToolIds(u));
    ToolsAreRunAnswered(p + Repaired(u), |p|);
    assert (p + Repaired(u))[|p|..] == Repaired(u);
  }

  lemma {:induction false} RepairedRunAnsweredIff(t: seq<Message>)
    ensures RunAnswered(Repaired(t)) <==> AnsweredInRun(t)
    decreases |t|
  {
    if t != [] {
      var u := t[1..];
      RepairedRunAnsweredIff(u);
      RepairedParts(t);
      if IsCaller(t[0]) {
        PatchedRunAnswered(t[0].calls, u);
        RunAfterPatch(t[0].calls, u);
        PatchCovers(t[0].calls, u);
      } else {
        assert [] + Repaired(u) == Repaired(u);
      }
    }
  }

  lemma {:induction false} RepairedMappable(t: seq<Message>)
    requires Mappable(t)
    ensures Mappable(Repaired(t))
    decreases |t|
  {
    if t != [] {
      RepairedMappable(t[1..]);
      var p := Patch(t[0], t[1..]);
      if IsCaller(t[0]) {
        PatchAnswers(t[0].calls, ToolIds(t[1..]));
      }
      assert Repaired(t) == [t[0]] + p + Repaired(t[1..]);
    }
  }

  // For every transcript: its repaired form maps to a conversation in which each tool use is
  // answered by the next message exactly when no call is answered away from its own tool run.
  lemma {:induction false} RepairThenMapIsPairedIff(t: seq<Message>)
    requires Mappable(t)
    ensures MapAll(Pointers(Repaired(t))).Ok?
    ensures Paired(MapAll(Pointers(Repaired(t))).params) <==> AnsweredInRun(t)
  {
    RepairedMappable(t);
    MappedPairedIff(Repaired(t));
    RepairedRunAnsweredIff(t);
  }

  /* Nothing is lost or reordered */

  // One block with the side it is attributed to.
  datatype Item = Item(user: bool, block: Block)

  function Items(user: bool, blocks: seq<Block>): seq<Item> {
    seq(|blocks|, k requires 0 <= k < |blocks| => Item(user, blocks[k]))
  }

  function FlatParams(params: seq<Param>): seq<Item>
    decreases |params|
  {
    if params == [] then [] else Items(params[0].UserParam?, params[0].blocks) + FlatParams(params[1..])
  }

  // The items of a message, read off its fields. A user says its text parts and the images that are there, or
  // its content when it has no parts.
  function PartItems(parts: seq<Part>): seq<Item>
    decreases |parts|
  {
    if parts == [] then []
    else
      (match parts[0]
       case TextPart(text) => [Item(true, TextBlock(Plain(text)))]
       case ImagePart(Some(image)) => [Item(true, ImageBlock(image.mime, image.data))]
       case _ => []) + PartItems(parts[1..])
  }

  // An assistant says its content unless that is empty, then calls its tools; if it does neither, it says a space.
  function AssistantItems(content: Text, calls: seq<Call>): seq<Item> {
    if content == Plain("") && calls == [] then [Item(false, TextBlock(Plain(" ")))]
    else
      (if content == Plain("") then [] else [Item(false, TextBlock(content))]) +
      seq(|calls|, k requires 0 <= k < |calls| =>
        Item(false, ToolUseBlock(calls[k].id, if calls[k].arguments == "" then "{}" else calls[k].arguments,
          calls[k].name)))
  }

  function MessageItems(m: Message): seq<Item> {
    match m.role
    case User => if m.parts == [] then [Item(true, TextBlock(m.content))] else PartItems(m.parts)
    case Assistant => AssistantItems(m.content, m.calls)
    case Tool => [Item(true, ToolResultBlock(m.callId, m.content))]
    case _ => []
  }

  lemma {:induction false} PartsAsItems(parts: seq<Part>)
    ensures Items(true, PartBlocks(parts)) == PartItems(parts)
    decreases |parts|
  {
    if parts != [] {
      PartsAsItems(parts[1..]);
      assert Items(true, PartBlocks(parts)) == Items(true, PartBlock(parts[0])) + Items(true, PartBlocks(parts[1..]));
    }
  }

  lemma UserAsItems(m: Message)
    requires m.role.User?
    ensures Items(true, UserBlocks(m)) == MessageItems(m)
  {
    PartsAsItems(m.parts);
  }

  lemma AssistantAsItems(m: Message)
    requires m.role.Assistant?
    ensures Items(false, AssistantBlocks(m)) == MessageItems(m)
  {
  }

  function FlatMessages(msgs: seq<Option<Message>>): seq<Item>
    decreases |msgs|
  {
    if msgs == [] then []
    else (if msgs[0].Some? then MessageItems(msgs[0].value) else []) + FlatMessages(msgs[1..])
  }

  lemma ItemsOfRun(msgs: seq<Option<Message>>, n: nat)
    requires 0 < n <= |msgs| && forall i | 0 <= i < n :: IsTool(msgs[i])
    ensures Items(true, ResultBlocks(msgs[..n])) == MessageItems(msgs[0].value) + Items(true, ResultBlocks(msgs[1..n]))
  {
  }

  lemma {:induction false} FlatRun(msgs: seq<Option<Message>>, n: nat)
    requires n <= |msgs| && forall i | 0 <= i < n :: IsTool(msgs[i])
    ensures FlatMessages(msgs) == Items(true, ResultBlocks(msgs[..n])) + FlatMessages(msgs[n..])
    decreases n
  {
    if n > 0 {
      FlatRun(msgs[1..], n - 1);
      assert msgs[1..][n - 1..] == msgs[n..] && msgs[1..][..n - 1] == msgs[1..n];
      ItemsOfRun(msgs, n);
      Assoc(MessageItems(msgs[0].value), Items(true, ResultBlocks(msgs[1..n])), FlatMessages(msgs[n..]));
    } else {
      assert msgs[0..] == msgs;
      assert Items(true, ResultBlocks(msgs[..0])) == [];
    }
  }

  lemma {:induction false} FlatCons(p: Param, rest: seq<Param>)
    ensures FlatParams([p] + rest) == Items(p.UserParam?, p.blocks) + FlatParams(rest)
  {
    assert ([p] + rest)[1..] == rest;
  }

  // The blocks sent, in order, are those of the messages, in order.
  lemma {:induction false} MappingKeepsContent(msgs: seq<Option<Message>>)
    requires MapAll(msgs).Ok?
    ensures FlatParams(MapAll(msgs).params) == FlatMessages(msgs)
    decreases |msgs|
  {
    if msgs != [] {
      if IsTool(msgs[0]) {
        var n := RunLength(msgs);
        MappingKeepsContent(msgs[n..]);
        FlatRun(msgs, n);
        FlatCons(UserParam(ResultBlocks(msgs[..n])), MapAll(msgs[n..]).params);
      } else {
        MappingKeepsContent(msgs[1..]);
        var rest := MapAll(msgs[1..]).params;
        if msgs[0].Some? && msgs[0].value.role.User? {
          UserAsItems(msgs[0].value);
          FlatCons(UserParam(UserBlocks(msgs[0].value)), rest);
        } else if msgs[0].Some? && msgs[0].value.role.Assistant? {
          AssistantAsItems(msgs[0].value);
          FlatCons(AssistantParam(AssistantBlocks(msgs[0].value)), rest);
        }
      }
    }
  }

  /* Errors and grouping */

  predicate IsUnknown(m: Option<Message>) {
    m.Some? && m.value.role.Unknown?
  }

  // The first unknown role stands at i.
  ghost predicate FirstUnknown(msgs: seq<Option<Message>>, i: nat) {
    i < |msgs| && IsUnknown(msgs[i]) && forall j | 0 <= j < i :: !IsUnknown(msgs[j])
  }

  lemma FirstUnknownLater(msgs: seq<Option<Message>>, n: nat, i: nat)
    requires n <= |msgs| && (forall j | 0 <= j < n :: !IsUnknown(msgs[j])) && FirstUnknown(msgs[n..], i)
    ensures FirstUnknown(msgs, n + i) && msgs[n + i] == msgs[n..][i]
  {
    assert forall j | n <= j < n + i :: msgs[j] == msgs[n..][j - n];
  }

  // The mapping fails exactly on transcripts with an unknown role, and names the first one.
  lemma {:induction false} MappingFailsIff(msgs: seq<Option<Message>>)
    ensures MapAll(msgs).Ok? <==> forall i | 0 <= i < |msgs| :: !IsUnknown(msgs[i])
    ensures MapAll(msgs).UnsupportedRole? ==>
      exists i: nat :: FirstUnknown(msgs, i) && MapAll(msgs).name == msgs[i].value.role.name
    decreases |msgs|
  {
    if msgs != [] {
      if IsUnknown(msgs[0]) {
        assert FirstUnknown(msgs, 0);
      } else {
        var n := if IsTool(msgs[0]) then RunLength(msgs) else 1;
        MappingFailsIff(msgs[n..]);
        assert forall i | 0 <= i < n :: !IsUnknown(msgs[i]);
        assert forall i | n <= i < |msgs| :: msgs[i] == msgs[n..][i - n];
        if MapAll(msgs).UnsupportedRole? {
          var i: nat :| FirstUnknown(msgs[n..], i) && MapAll(msgs).name == msgs[n..][i].value.role.name;
          FirstUnknownLater(msgs, n, i);
        }
      }
    }
  }

  // User and assistant messages, and the last tool message of each run.
  function Groups(msgs: seq<Option<Message>>): nat
    decreases |msgs|
  {
    if msgs == [] then 0
    else
      var m := msgs[0];
      (if m.Some? && (m.value.role.User? || m.value.role.Assistant?) then 1
       else if IsTool(m) && (|msgs| == 1 || !IsTool(msgs[1])) then 1
       else 0) + Groups(msgs[1..])
  }

  lemma {:induction false} GroupsOfRun(msgs: seq<Option<Message>>)
    requires msgs != [] && IsTool(msgs[0])
    ensures Groups(msgs) == 1 + Groups(msgs[RunLength(msgs)..])
    decreases |msgs|
  {
    if |msgs| > 1 && IsTool(msgs[1]) {
      GroupsOfRun(msgs[1..]);
      assert msgs[1..][RunLength(msgs[1..])..] == msgs[RunLength(msgs)..];
    } else {
      assert RunLength(msgs) == 1;
    }
  }

  // One provider message for each user or assistant message and one for each run of tool messages.
  lemma {:induction false} OneParamPerGroup(msgs: seq<Option<Message>>)
    requires MapAll(msgs).Ok?
    ensures |MapAll(msgs).params| == Groups(msgs)
    decreases |msgs|
  {
    if msgs != [] {
      if IsTool(msgs[0]) {
        GroupsOfRun(msgs);
        OneParamPerGroup(msgs[RunLength(msgs)..]);
      } else {
        OneParamPerGroup(msgs[1..]);
      }
    }
  }

  /* What the agent sends */

  lemma {:induction false} WholeIsRunAnswered(t: seq<Message>)
    requires Whole(t)
    ensures RunAnswered(t)
    decreases |t|
  {
    if t != [] {
      if IsCaller(t[0]) {
        var n := |t[0].calls|;
        var rs, rest := t[1..1 + n], t[1 + n..];
        assert t[1..] == rs + rest;
        WholeIsRunAnswered(rest);
        ToolsAreRunAnswered(t[1..], n);
        assert t[1..][n..] == rest;
        RunOfTools(rs, rest);
        assert t[1..][..Run(t[1..])] == rs + rest[..Run(rest)];
        ResultsAnswer(rs, rest[..Run(rest)], t[0].calls);
      } else {
        WholeIsRunAnswered(t[1..]);
      }
    }
  }

  lemma {:induction false} RequestsAreMappable(messages: seq<Message>, unsaved: seq<Message>, script: seq<Reply>,
      tools: bool)
    requires Mappable(messages)
    ensures forall i | 0 <= i < |Turn(messages, unsaved, script, tools).requests| ::
      Mappable(Turn(messages, unsaved, script, tools).requests[i])
    decreases |script|
  {
    if script != [] && script[0].Says? && script[0].finish.ToolCalls? {
      var results := Results(script[0].calls, script[0].outputs);
      RequestsAreMappable(messages + [ReplyMessage(script[0])] + results, results, script[1..], tools);
    }
  }

  lemma MappableParts(a: seq<Message>, b: seq<Message>)
    ensures Mappable(a + b) <==> Mappable(a) && Mappable(b)
  {
    assert forall i | 0 <= i < |a| :: (a + b)[i] == a[i];
    assert forall i | 0 <= i < |b| :: (a + b)[|a| + i] == b[i];
  }

  lemma ReplyIsMappable(r: Reply)
    requires r.Says?
    ensures Mappable(Kept(r)) && Mappable(Results(r.calls, r.outputs))
  {
  }

  lemma {:induction false} StoredIsMappable(messages: seq<Message>, unsaved: seq<Message>, script: seq<Reply>,
      tools: bool)
    requires Mappable(unsaved)
    ensures Mappable(Turn(messages, unsaved, script, tools).stored)
    decreases |script|
  {
    if script != [] && script[0].Says? {
      var r := script[0];
      ReplyIsMappable(r);
      MappableParts(unsaved, Kept(r));
      if r.finish.ToolCalls? && (r.calls == [] || tools) {
        var results := Results(r.calls, r.outputs);
        var next := messages + [ReplyMessage(r)] + results;
        StoredIsMappable(next, results, script[1..], tools);
        MappableParts(unsaved + Kept(r), Turn(next, results, script[1..], tools).stored);
      }
    }
  }

  lemma {:induction false} InjectedIsMappable(t: seq<Message>)
    ensures Mappable(Injected(t))
  {
    InjectedAreTools(t);
  }

  // What a stopped visit leaves can be mapped again.
  lemma HandleKeepsMappable(session: seq<Message>, v: Visit)
    requires Stopped(session) && Mappable(session) && Mappable(v.incoming)
    ensures Mappable(Handle(session, v.perception, v.incoming, v.script, v.tools).session)
  {
    var saved := AfterRepair(session);
    InjectedIsMappable(session);
    MappableParts(session, Injected(session));
    if v.perception.Disabled? || v.perception.Queues? {
      HandleUnfolds(session, v.perception, v.incoming, v.script, v.tools);
      StoredIsMappable(saved + v.incoming, v.incoming, v.script, v.tools);
      MappableParts(saved, Turn(saved + v.incoming, v.incoming, v.script, v.tools).stored);
    }
  }

  ghost predicate AllPaired(requests: seq<seq<Message>>) {
    forall i | 0 <= i < |requests| :: MapAll(Pointers(requests[i])).Ok? && Paired(MapAll(Pointers(requests[i])).params)
  }

  // Each request of a turn on such a session maps to a conversation whose tool uses are all answered by
  // the next message.
  lemma EveryRequestIsPaired(session: seq<Message>, v: Visit)
    requires Stopped(session) && Mappable(session) && Whole(v.incoming) && Mappable(v.incoming)
    ensures AllPaired(Handle(session, v.perception, v.incoming, v.script, v.tools).requests)
  {
    if v.perception.Disabled? || v.perception.Queues? {
      HandleUnfolds(session, v.perception, v.incoming, v.script, v.tools);
      RepairTwice(session);
      RepairedMappable(session);
      var saved := AfterRepair(session);
      WholeThen(saved, v.incoming, false);
      RequestsAreWhole(saved + v.incoming, v.incoming, v.script, v.tools);
      RequestsAreMappable(saved + v.incoming, v.incoming, v.script, v.tools);
      var requests := Handle(session, v.perception, v.incoming, v.script, v.tools).requests;
      forall i | 0 <= i < |requests|
        ensures MapAll(Pointers(requests[i])).Ok? && Paired(MapAll(Pointers(requests[i])).params)
      {
        WholeIsRunAnswered(requests[i]);
        MappedPairedIff(requests[i]);
      }
    }
  }

  ghost predicate Incomings(visits: seq<Visit>) {
    forall i | 0 <= i < |visits| :: Whole(visits[i].incoming) && Mappable(visits[i].incoming)
  }

  lemma {:induction false} VisitsKeepMappable(session: seq<Message>, visits: seq<Visit>)
    requires Stopped(session) && Mappable(session) && Incomings(visits)
    ensures Stopped(Visits(session, visits)) && Mappable(Visits(session, visits))
    decreases |visits|
  {
    if visits != [] {
      var v := visits[0];
      HandleStopsRegular(session, v.perception, v.incoming, v.script, v.tools);
      HandleKeepsMappable(session, v);
      assert forall i | 0 <= i < |visits[1..]| :: visits[1..][i] == visits[i + 1];
      VisitsKeepMappable(Handle(session, v.perception, v.incoming, v.script, v.tools).session, visits[1..]);
    }
  }

  // Over any visits to a new session, each stopped anywhere: every request of every visit is paired.
  lemma EveryVisitIsPaired(visits: seq<Visit>, k: nat)
    requires Incomings(visits) && k < |visits|
    ensures var v := visits[k];
      AllPaired(Handle(Visits([], visits[..k]), v.perception, v.incoming, v.script, v.tools).requests)
  {
    VisitsKeepMappable([], visits[..k]);
    EveryRequestIsPaired(Visits([], visits[..k]), visits[k]);
  }
}
