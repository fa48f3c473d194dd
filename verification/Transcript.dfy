/** Messages of a model-facing conversation. */
module Transcript {
  import opened Options

  datatype Role = System | User | Assistant | Tool | Unknown(name: string)

  datatype Finish = Stop | ToolCalls | Length | Unset

  datatype Call = Call(id: string, name: string, arguments: string)

  datatype Image = Image(mime: string, data: string)

  datatype Part = TextPart(text: string) | ImagePart(image: Option<Image>) | UnknownPart

  // The text of a message. The notice that repair inserts is one fixed, non-empty text.
  datatype Text = Plain(chars: string) | InterruptedNotice {
    predicate Empty() { this == Plain("") }
  }

  datatype Message = Message(
    role: Role,
    content: Text,
    parts: seq<Part>,
    calls: seq<Call>,
    callId: string,
    finish: Finish)

  function ToolResult(callId: string, content: Text): Message {
    Message(Tool, content, [], [], callId, Unset)
  }

  // An assistant message that requests tools.
  predicate IsCaller(m: Message) {
    m.role.Assistant? && m.calls != []
  }

  // The ids that the tool messages of t answer.
  function ToolIds(t: seq<Message>): set<string> {
    set i | 0 <= i < |t| && t[i].role.Tool? :: t[i].callId
  }

  lemma ToolIdsConcat(a: seq<Message>, b: seq<Message>)
    ensures ToolIds(a + b) == ToolIds(a) + ToolIds(b)
  {
    forall id | id in ToolIds(a) ensures id in ToolIds(a + b) {
      var i :| 0 <= i < |a| && a[i].role.Tool? && a[i].callId == id;
      assert (a + b)[i] == a[i];
    }
    forall id | id in ToolIds(b) ensures id in ToolIds(a + b) {
      var i :| 0 <= i < |b| && b[i].role.Tool? && b[i].callId == id;
      assert (a + b)[|a| + i] == b[i];
    }
  }

  lemma Assoc<T>(a: seq<T>, b: seq<T>, c: seq<T>)
    ensures a + b + c == a + (b + c)
  {
  }
}
