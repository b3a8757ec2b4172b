/** What a replayed transcript says: which rows become messages, and what each message takes over from its row. */
module ReplayedMessages {
  import opened Text
  import opened Messages
  import opened Picking
  import opened Rehydrate

  // ---------- the calls of a row ----------

  predicate HasId(call: RawCall) {
    call.id.Some? && !AllSpace(call.id.value)
  }

  /** A call as it is kept: trimmed, with a name of its own or one made of its place. */
  predicate KeepsCall(raw: RawCall, place: nat, call: ToolCall) {
    && raw.id.Some? && call.id == Strip(raw.id.value)
    && call.name == (if AllSpace(raw.name) then "unknown_tool_" + Digits(place) else Strip(raw.name))
    && call.arguments == raw.arguments && call.thoughtSignature == Strip(raw.thoughtSignature)
  }

  function Marks(raw: seq<RawCall>): (marks: seq<bool>)
    ensures |marks| == |raw| && forall k :: 0 <= k < |raw| ==> marks[k] == HasId(raw[k])
  {
    seq(|raw|, k requires 0 <= k < |raw| => HasId(raw[k]))
  }

  /** The calls are those of the places, counted from `offset`. */
  predicate KeptAt(raw: seq<RawCall>, offset: nat, at: seq<nat>, calls: seq<ToolCall>) {
    |calls| == |at| && forall k :: 0 <= k < |at| ==> at[k] < |raw| && KeepsCall(raw[at[k]], offset + at[k], calls[k])
  }

  predicate KeepsFrom(raw: seq<RawCall>, offset: nat, calls: seq<ToolCall>) {
    KeptAt(raw, offset, Places(Marks(raw)), calls)
  }

  lemma {:induction false} NormalizingKeepsCalls(raw: seq<RawCall>, offset: nat)
    ensures KeepsFrom(raw, offset, NormalizeCalls(raw, offset))
    decreases |raw|
  {
    hide HasId, KeptAt, KeepsCall, Places;
    if raw == [] {
      NothingKept(offset);
    } else {
      NormalizingKeepsCalls(raw[1..], offset + 1);
      PlacesShift(HasId(raw[0]), Marks(raw[1..]));
      assert Marks(raw) == [HasId(raw[0])] + Marks(raw[1..]);
      FirstCall(raw, offset);
      hide NormalizeCalls;
      CallsShift(raw, offset, Places(Marks(raw)), Places(Marks(raw[1..])), NormalizeCalls(raw, offset), NormalizeCalls(raw[1..], offset + 1),
                 HasId(raw[0]));
    }
  }

  lemma NothingKept(offset: nat)
    ensures KeepsFrom([], offset, NormalizeCalls([], offset))
  {
  }

  /** The first call is kept or dropped by itself. */
  lemma FirstCall(raw: seq<RawCall>, offset: nat)
    requires raw != []
    ensures var calls, rest := NormalizeCalls(raw, offset), NormalizeCalls(raw[1..], offset + 1);
            if HasId(raw[0]) then |calls| == 1 + |rest| && KeepsCall(raw[0], offset, calls[0]) && calls[1..] == rest else calls == rest
  {
    if raw[0].id.Some? {
      BlankIffSpace(raw[0].id.value);
    }
    BlankIffSpace(raw[0].name);
    hide AllSpace, Strip, Digits;
  }

  lemma CallsShift(raw: seq<RawCall>, offset: nat, at: seq<nat>, later: seq<nat>, calls: seq<ToolCall>, rest: seq<ToolCall>,
          first: bool)
    requires raw != [] && KeptAt(raw[1..], offset + 1, later, rest)
    requires var skip: nat := if first then 1 else 0;
             |at| == |later| + skip && (first ==> at[0] == 0) && forall k :: 0 <= k < |later| ==> at[k + skip] == later[k] + 1
    requires if first then |calls| == 1 + |rest| && KeepsCall(raw[0], offset, calls[0]) && calls[1..] == rest else calls == rest
    ensures KeptAt(raw, offset, at, calls)
  {
    hide KeepsCall;
    var skip: nat := if first then 1 else 0;
    forall k | 0 <= k < |at|
      ensures at[k] < |raw| && KeepsCall(raw[at[k]], offset + at[k], calls[k])
    {
      if k >= skip {
        var j := k - skip;
        assert at[j + skip] == later[j] + 1;
        assert calls[k] == rest[j];
        assert raw[1..][later[j]] == raw[at[k]];
      }
    }
  }

  /** The calls of a row: those of its structured payload if any of them has an id, and its own otherwise. */
  predicate TakesCalls(e: Entry, calls: seq<ToolCall>) {
    if exists k :: 0 <= k < |e.structuredCalls| && HasId(e.structuredCalls[k]) then KeepsFrom(e.structuredCalls, 0, calls)
    else KeepsFrom(e.toolCalls, 0, calls)
  }

  lemma EntryCallsAreTaken(e: Entry)
    ensures TakesCalls(e, EntryCalls(e))
    ensures EntryCalls(e) != [] <==> IssuesCalls(e)
  {
    NormalizingKeepsCalls(e.structuredCalls, 0);
    NormalizingKeepsCalls(e.toolCalls, 0);
    SomePlace(e.structuredCalls);
    SomePlace(e.toolCalls);
    hide HasId, KeepsCall, NormalizeCalls;
  }

  lemma SomePlace(raw: seq<RawCall>)
    ensures Places(Marks(raw)) != [] <==> exists k :: 0 <= k < |raw| && HasId(raw[k])
  {
    var marks := Marks(raw);
    PlacesAreMarked(marks);
    hide HasId, Places;
    if Places(marks) != [] {
      assert Places(marks)[0] in Places(marks);
      assert marks[Places(marks)[0]];
    }
    if exists k :: 0 <= k < |raw| && HasId(raw[k]) {
      var k :| 0 <= k < |raw| && HasId(raw[k]);
      assert marks[k];
      assert k in Places(marks);
    }
  }

  // ---------- reading a row ----------

  predicate IssuesCalls(e: Entry) {
    || (exists k :: 0 <= k < |e.structuredCalls| && HasId(e.structuredCalls[k]))
    || (exists k :: 0 <= k < |e.toolCalls| && HasId(e.toolCalls[k]))
  }

  /** The type the row spells out; none if it is missing or blank. */
  function TypeWord(e: Entry): string {
    if e.messageType.Some? then Lower(Strip(e.messageType.value)) else ""
  }

  function Word(t: MessageType): string {
    match t
    case UserQuery => "user_query"
    case ToolOutput => "tool_output"
    case AssistantResponse => "assistant_response"
    case ContextCompaction => "context_compaction"
  }

  /** The type it spells out, or the one its role stands for. */
  predicate HasType(e: Entry, t: MessageType) {
    if TypeWord(e) != "" then TypeWord(e) == Word(t)
    else t == match e.role case FromUser => UserQuery case FromAssistant => AssistantResponse case FromTool => ToolOutput
  }

  function Kebab(s: string): string {
    seq(|s|, k requires 0 <= k < |s| => if s[k] == '_' then '-' else s[k])
  }

  /** The trace of a bundle, which is kept as plain text. */
  predicate IsTrace(e: Entry) {
    e.toolName.Some? && Kebab(Lower(Strip(e.toolName.value))) in {"tool-bundle", "bundled-tools"}
  }

  predicate IsOutput(e: Entry) {
    !IsTrace(e) && (e.role == FromTool || TypeWord(e) == "tool_output")
  }

  /** Rows that leave no message: a blank trace, and an assistant row with neither text nor calls. */
  predicate SaysNothing(e: Entry) {
    AllSpace(e.content) && (IsTrace(e) || (!IsOutput(e) && e.role == FromAssistant && !IssuesCalls(e)))
  }

  /** The trimmed text of an optional field, if there is any. */
  predicate SameRef(field: Option<string>, kept: Option<string>) {
    if field.Some? && !AllSpace(field.value) then kept == Some(Strip(field.value)) else kept == None
  }

  /** The call an output answers: the one it names, by its own field or its correlation id. */
  predicate AnswersNamed(e: Entry, id: Option<string>) {
    if e.toolCallId.Some? && !AllSpace(e.toolCallId.value) then id == Some(Strip(e.toolCallId.value))
    else e.correlationId.Some? && !AllSpace(e.correlationId.value) ==> id == Some(Strip(e.correlationId.value))
  }

  /** What a message takes over from its row. */
  predicate Says(e: Entry, h: HydratedEntry) {
    && h.content == e.content
    && if IsTrace(e) then
         h.role == FromAssistant && h.messageType == AssistantResponse && h.toolName == None && h.correlationId == None && h.toolCalls == []
         && h.toolCallId == None
       else
         && HasType(e, h.messageType) && SameRef(e.toolName, h.toolName) && SameRef(e.correlationId, h.correlationId)
         && if IsOutput(e) then h.role == FromTool && h.toolCalls == [] && h.toolCallId.Some? && AnswersNamed(e, h.toolCallId)
            else
              && h.role == e.role && h.toolCallId == None
              && if e.role == FromAssistant then TakesCalls(e, h.toolCalls) else h.toolCalls == []
  }

  lemma RefIsSame(field: Option<string>)
    ensures SameRef(field, NormalizeOptional(field))
  {
    if field.Some? {
      BlankIffSpace(field.value);
    }
    hide AllSpace, Strip;
  }

  lemma TypeIsRead(e: Entry)
    ensures StoredType(e).Some? ==> HasType(e, StoredType(e).value)
    ensures TypeText(e) == TypeWord(e)
  {
    hide Strip, Lower;
  }

  lemma TraceIsRead(e: Entry)
    ensures IsBundleTrace(e) == IsTrace(e)
  {
    if e.toolName.Some? && Strip(e.toolName.value) == "" {
      assert Kebab(Lower("")) == "";
      assert "tool-bundle" != "" && "bundled-tools" != "";
    }
    if e.toolName.Some? {
      assert Dashed(Lower(Strip(e.toolName.value))) == Kebab(Lower(Strip(e.toolName.value)));
    }
    hide Strip, Lower;
  }

  lemma OutputIsRead(e: Entry, link: Link)
    requires !Rejects(link, RowOf(e))
    ensures RowOf(e).Output? <==> IsOutput(e)
    ensures RowOf(e).Output? ==> EffectiveId(link, RowOf(e).callId).Some? && AnswersNamed(e, EffectiveId(link, RowOf(e).callId))
  {
    TraceIsRead(e);
    TypeIsRead(e);
    RefIsSame(e.toolCallId);
    RefIsSame(e.correlationId);
    hide IsBundleTrace, IsTrace, TypeText, TypeWord, NormalizeOptional, EntryCalls, StoredType, AllSpace, Strip;
  }

  /** A row that is not turned away leaves one message, which says what the row says, or none if it says nothing. */
  lemma RowIsSaid(e: Entry, link: Link)
    requires !Rejects(link, RowOf(e))
    ensures var out := Hydrate(e, link);
            if SaysNothing(e) then out == [] else |out| == 1 && Says(e, out[0])
  {
    OutputIsRead(e, link);
    TraceIsRead(e);
    TypeIsRead(e);
    RefIsSame(e.toolName);
    RefIsSame(e.correlationId);
    EntryCallsAreTaken(e);
    BlankIffSpace(e.content);
    assert StoredType(e).Some?;
    hide IsBundleTrace, IsTrace, IsOutput, TypeText, TypeWord, NormalizeOptional, EntryCalls, StoredType, AllSpace, Strip, Blank, HasType,
         IssuesCalls, TakesCalls, SameRef, AnswersNamed, RowOf, EffectiveId, Rejects;
  }

  // ---------- the whole transcript ----------

  function Speaking(entries: seq<Entry>, n: nat): (marks: seq<bool>)
    requires n <= |entries|
    ensures |marks| == n && forall k :: 0 <= k < n ==> marks[k] == !SaysNothing(entries[k])
  {
    seq(n, k requires 0 <= k < n => !SaysNothing(entries[k]))
  }

  /** The messages are those of the rows that say something, in order. */
  predicate SaysAll(entries: seq<Entry>, n: nat, out: seq<HydratedEntry>)
    requires n <= |entries|
  {
    var at := Places(Speaking(entries, n));
    |out| == |at| && forall k :: 0 <= k < |at| ==> at[k] < n && Says(entries[at[k]], out[k])
  }

  lemma {:induction false} ReplaySaysAll(entries: seq<Entry>, n: nat)
    requires n <= |entries| && forall k :: 0 <= k < n ==> !Rejects(Scan(Rows(entries), k), RowOf(entries[k]))
    ensures SaysAll(entries, n, HydrateFirst(entries, n))
    decreases n
  {
    hide Rejects, Hydrate, RowOf, Scan, SaysNothing, Says;
    if n > 0 {
      ReplaySaysAll(entries, n - 1);
      RowIsSaid(entries[n - 1], Scan(Rows(entries), n - 1));
      assert Speaking(entries, n)[..n - 1] == Speaking(entries, n - 1);
    } else {
      assert Speaking(entries, 0) == [];
    }
  }

  /**
   * An accepted transcript becomes exactly one message for each row that says something, in the order of the rows, and
   * each message says what its row says.
   */
  lemma AcceptedTranscriptIsSaid(entries: seq<Entry>)
    requires Accepted(Rows(entries))
    ensures SaysAll(entries, |entries|, HydrateFirst(entries, |entries|))
  {
    hide Rejects, HydrateFirst, RowOf, Scan, SaysAll;
    forall k | 0 <= k < |entries|
      ensures !Rejects(Scan(Rows(entries), k), RowOf(entries[k]))
    {
      assert Rows(entries)[k] == RowOf(entries[k]);
    }
    ReplaySaysAll(entries, |entries|);
  }

  /** A row that names no call is given the one that was open longest. */
  lemma UnnamedOutputIsGivenACall(entries: seq<Entry>, k: nat)
    requires Accepted(Rows(entries)) && k < |entries| && RowOf(entries[k]) == Output(None)
    ensures var out := Hydrate(entries[k], Scan(Rows(entries), k));
            |out| == 1 && out[0].toolCallId.Some? && AnsweredAt(Rows(entries), k, out[0].toolCallId.value)
  {
    assert !Rejects(Scan(Rows(entries), k), Rows(entries)[k]);
    hide StoredType, NormalizeOptional, EntryCalls, IsBundleTrace, Scan, TypeText;
  }
}
