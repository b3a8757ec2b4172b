/** Stored conversation rows and the form in which they are sent to a model. */
module Messages {
  import opened Text

  datatype Role = User | Assistant | System | Tool

  datatype MessageType = UserQuery | ToolOutput | AssistantResponse | ContextCompaction

  /** One call of an assistant tool turn; `arguments` is the JSON text, an empty signature means none. */
  datatype ToolCall = ToolCall(id: string, name: string, arguments: string, thoughtSignature: string)

  datatype StoredMessage = StoredMessage(
    role: Role,
    content: string,
    messageType: MessageType,
    timestamp: int,
    imageRefs: Option<seq<string>>,
    toolCalls: Option<seq<ToolCall>>,
    toolCallId: Option<string>,
    toolName: Option<string>,
    compactionFacts: Option<map<string, string>>)

  datatype LlmMessage =
    | Plain(role: Role, content: string)
    | AssistantCalls(content: string, calls: seq<ToolCall>, name: Option<string>)
    | ToolResult(content: string, callId: string, name: Option<string>)

  function UserRow(content: string, at: int, imageRefs: Option<seq<string>>): StoredMessage {
    StoredMessage(User, content, UserQuery, at, imageRefs, None, None, None, None)
  }

  function AssistantRow(content: string, at: int, calls: Option<seq<ToolCall>>): StoredMessage {
    StoredMessage(Assistant, content, AssistantResponse, at, None, calls, None, None, None)
  }

  /** A role=tool row that answers the call `id`. */
  function ToolResultRow(content: string, at: int, id: string, name: Option<string>,
          facts: Option<map<string, string>>):
    StoredMessage
  {
    StoredMessage(Tool, content, ToolOutput, at, None, None, Some(id), name, facts)
  }

  /** A tool output that answers no call is stored under the user role. */
  function UnlinkedOutputRow(content: string, at: int, name: Option<string>, facts: Option<map<string, string>>):
    StoredMessage
  {
    StoredMessage(User, content, ToolOutput, at, None, None, None, name, facts)
  }

  /** The calls a row issues: none unless it is an assistant row. */
  function Calls(m: StoredMessage): seq<ToolCall> {
    if m.role == Assistant && m.toolCalls.Some? then m.toolCalls.value else []
  }

  function CallIds(calls: seq<ToolCall>): (ids: seq<string>)
    ensures |ids| == |calls|
    ensures forall k :: 0 <= k < |calls| ==> ids[k] == calls[k].id
  {
    seq(|calls|, k requires 0 <= k < |calls| => calls[k].id)
  }

  /** An assistant row is worth storing when it calls tools or says something. */
  predicate Replayable(content: string, calls: Option<seq<ToolCall>>) {
    (calls.Some? && calls.value != []) || !Blank(content)
  }

  function NonEmpty(name: Option<string>): Option<string> {
    if name.Some? && name.value != "" then name else None
  }

  function ProviderCall(call: ToolCall, index: nat): ToolCall {
    ToolCall(
      if call.id == "" then "tool_call_" + Digits(index) else call.id,
      if call.name == "" then "unknown_tool" else call.name,
      call.arguments,
      Strip(call.thoughtSignature))
  }

  function ToLlm(m: StoredMessage): LlmMessage {
    if Calls(m) != [] then
      AssistantCalls(m.content, seq(|Calls(m)|, k requires 0 <= k < |Calls(m)| => ProviderCall(Calls(m)[k], k)), NonEmpty(m.toolName))
    else if m.role == Tool then
      ToolResult(m.content, if NonEmpty(m.toolCallId).Some? then m.toolCallId.value else "unknown_tool_call", NonEmpty(m.toolName))
    else
      Plain(m.role, m.content)
  }

  function ToLlmAll(rows: seq<StoredMessage>): (llm: seq<LlmMessage>)
    ensures |llm| == |rows|
    ensures forall k :: 0 <= k < |rows| ==> llm[k] == ToLlm(rows[k])
  {
    seq(|rows|, k requires 0 <= k < |rows| => ToLlm(rows[k]))
  }

  /** Role and type agree, as every row the history builds itself does. */
  predicate TypedRow(m: StoredMessage) {
    && m.role != System
    && (m.messageType == UserQuery ==> m.role == User)
    && (m.messageType == AssistantResponse ==> m.role == Assistant)
    && (m.role == Assistant ==> Replayable(m.content, m.toolCalls))
  }

  predicate TypedRows(rows: seq<StoredMessage>) {
    forall k :: 0 <= k < |rows| ==> TypedRow(rows[k])
  }

  lemma TypedRowsConcat(rows: seq<StoredMessage>, more: seq<StoredMessage>)
    requires TypedRows(rows) && TypedRows(more)
    ensures TypedRows(rows + more)
  {
  }

  // ---------- what the model is shown of a row ----------

  /** The call a model is shown: the stored one, with a positional id or a stand-in name where it has none. */
  predicate ShowsCall(shown: ToolCall, stored: ToolCall, index: nat) {
    && (if stored.id != "" then shown.id == stored.id else shown.id == "tool_call_" + Digits(index))
    && (if stored.name != "" then shown.name == stored.name else shown.name == "unknown_tool")
    && shown.arguments == stored.arguments && shown.thoughtSignature == Strip(stored.thoughtSignature)
  }

  predicate ShowsCalls(shown: seq<ToolCall>, stored: seq<ToolCall>) {
    |shown| == |stored| && forall k :: 0 <= k < |shown| ==> ShowsCall(shown[k], stored[k], k)
  }

  /** The text is always shown; calls go out with their row, and a role=tool row with the id it answers. */
  lemma MirrorSaysTheSame(m: StoredMessage)
    ensures var llm := ToLlm(m);
            && llm.content == m.content
            && (llm.AssistantCalls? <==> m.role == Assistant && m.toolCalls.Some? && m.toolCalls.value != [])
            && (llm.AssistantCalls? ==> ShowsCalls(llm.calls, m.toolCalls.value))
            && (llm.ToolResult? <==> m.role == Tool)
            && (m.role == Tool ==>
                  llm.callId == if m.toolCallId.Some? && m.toolCallId.value != "" then m.toolCallId.value else "unknown_tool_call")
            && (llm.Plain? ==> llm.role == m.role)
            && (!llm.Plain? ==> llm.name == if m.toolName.Some? && m.toolName.value != "" then m.toolName else None)
  {
  }
}
