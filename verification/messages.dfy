/** Stored conversation messages and their translation into the role-tagged
    entries of a chat-completion prompt (`buildMessagesToOpenAI` in
    src/entities/OpenAI.ts). */
module Messages {
  import opened Wrappers

  /** The four roles a stored message can have. */
  datatype Role = System | User | Assistant | Tool

  /** A tool invocation requested by the model: its id, the function name and
      the still-encoded argument text. */
  datatype ToolCall = ToolCall(id: string, name: string, arguments: string)

  /** A stored message: role, optional text, owning user, and for the
      tool-calling exchange the id of the call it belongs to and the call itself. */
  datatype Message = Message(
    role: Role,
    content: Option<string>,
    userId: string,
    toolId: Option<string>,
    toolCall: Option<ToolCall>)

  /** One entry of the prompt sent to the model; each role has its own shape. */
  datatype PromptEntry =
    | SystemEntry(content: Option<string>)
    | UserEntry(content: Option<string>)
    | AssistantEntry(content: Option<string>, toolCalls: Option<seq<ToolCall>>)
    | ToolEntry(content: Option<string>, toolCallId: Option<string>)

  /** The role tag an entry carries. */
  function EntryRole(e: PromptEntry): Role {
    match e
    case SystemEntry(_) => System
    case UserEntry(_) => User
    case AssistantEntry(_, _) => Assistant
    case ToolEntry(_, _) => Tool
  }

  /** What of a message survives in its prompt entry: role and content, the
      tool id for a tool message, the tool call for an assistant message. */
  datatype Shape = Shape(
    role: Role,
    content: Option<string>,
    toolId: Option<string>,
    toolCall: Option<ToolCall>)

  function ShapeOf(m: Message): Shape {
    Shape(
      m.role,
      m.content,
      if m.role == Tool then m.toolId else None,
      if m.role == Assistant then m.toolCall else None)
  }

  /** Reads the shape back out of a prompt entry. An assistant entry is only
      read back when its tool-call list is absent or has exactly one element. */
  function Recover(e: PromptEntry): Shape {
    match e
    case SystemEntry(c) => Shape(System, c, None, None)
    case UserEntry(c) => Shape(User, c, None, None)
    case AssistantEntry(c, calls) =>
      Shape(Assistant, c, None,
            if calls.Some? && |calls.value| == 1 then Some(calls.value[0]) else None)
    case ToolEntry(c, id) => Shape(Tool, c, id, None)
  }

  /** The per-role mapping of one message to a prompt entry. */
  function BuildEntry(m: Message): (e: PromptEntry)
    ensures EntryRole(e) == m.role
    ensures e.content == m.content
    ensures e.ToolEntry? ==> e.toolCallId == m.toolId
    ensures e.AssistantEntry? ==>
              (e.toolCalls.Some? <==> m.toolCall.Some?) &&
              (e.toolCalls.Some? ==> e.toolCalls.value == [m.toolCall.value])
    ensures Recover(e) == ShapeOf(m)
  {
    match m.role
    case Tool => ToolEntry(m.content, m.toolId)
    case Assistant =>
      AssistantEntry(m.content, if m.toolCall.Some? then Some([m.toolCall.value]) else None)
    case System => SystemEntry(m.content)
    case User => UserEntry(m.content)
  }

  /** Two messages give the same prompt entry exactly when they agree on
      everything the entry keeps. */
  lemma BuildEntrySameShape(m1: Message, m2: Message)
    ensures BuildEntry(m1) == BuildEntry(m2) <==> ShapeOf(m1) == ShapeOf(m2)
  {
    if BuildEntry(m1) == BuildEntry(m2) {
      assert Recover(BuildEntry(m1)) == Recover(BuildEntry(m2));
    }
  }

  /** The order-preserving map of stored messages to prompt entries. */
  function BuildMessages(ms: seq<Message>): (r: seq<PromptEntry>)
    ensures |r| == |ms|
    ensures forall i :: 0 <= i < |ms| ==> r[i] == BuildEntry(ms[i])
  {
    if ms == [] then [] else [BuildEntry(ms[0])] + BuildMessages(ms[1..])
  }

  /** Mapping a concatenation is concatenating the mappings, so a history
      extended by a saved batch maps to the old entries followed by the new. */
  lemma BuildMessagesAppend(a: seq<Message>, b: seq<Message>)
    ensures BuildMessages(a + b) == BuildMessages(a) + BuildMessages(b)
  {
  }

  /** The roles of the prompt entries are the roles of the messages, in order. */
  lemma BuildMessagesKeepsRoles(ms: seq<Message>)
    ensures forall i :: 0 <= i < |ms| ==> EntryRole(BuildMessages(ms)[i]) == ms[i].role
  {
  }

  /** Every tool message directly follows the assistant message whose tool
      call it answers, and carries that call's id. */
  predicate ToolMessagesAnswered(ms: seq<Message>) {
    forall i :: 0 <= i < |ms| && ms[i].role == Tool ==>
      && 0 < i
      && ms[i - 1].role == Assistant
      && ms[i - 1].toolCall.Some?
      && ms[i].toolId == Some(ms[i - 1].toolCall.value.id)
  }

  /** The number of messages of role `role`. */
  function CountRole(ms: seq<Message>, role: Role): (n: nat)
    ensures n <= |ms|
    ensures n == 0 <==> forall i :: 0 <= i < |ms| ==> ms[i].role != role
  {
    if ms == [] then 0
    else (if ms[0].role == role then 1 else 0) + CountRole(ms[1..], role)
  }

  lemma {:induction false} CountRoleAppend(a: seq<Message>, b: seq<Message>, role: Role)
    ensures CountRole(a + b, role) == CountRole(a, role) + CountRole(b, role)
  {
    if a == [] {
      assert a + b == b;
    } else {
      assert (a + b)[1..] == a[1..] + b;
      CountRoleAppend(a[1..], b, role);
    }
  }
}
