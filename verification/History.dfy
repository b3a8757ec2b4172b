/** The conversation history: stored rows, their model-facing mirror, staged tool-call ids and a running token count. */
module History {
  import opened Text
  import opened Messages
  import opened Tokens

  datatype TokenCache = TokenCache(count: int, model: string)

  datatype HistoryState = HistoryState(
    rows: seq<StoredMessage>,
    llm: seq<LlmMessage>,
    systemPrompt: Option<string>,
    pending: seq<string>,
    consumeAll: bool,
    tokens: Option<TokenCache>)

  // ---------- what each operation does to the state ----------

  function Initial(systemPrompt: Option<string>): HistoryState {
    HistoryState([], [], systemPrompt, [], false, None)
  }

  function Appended(s: HistoryState, rows: seq<StoredMessage>): HistoryState {
    s.(rows := s.rows + rows, llm := s.llm + ToLlmAll(rows))
  }

  function PromptMessages(s: HistoryState): seq<LlmMessage> {
    (if NonEmpty(s.systemPrompt).Some? then [Plain(System, s.systemPrompt.value)] else []) + s.llm
  }

  /** The ids the next tool output answers: a bundle answers all of them, otherwise the oldest. */
  function NextIds(pending: seq<string>, consumeAll: bool): seq<string> {
    if pending == [] || consumeAll then pending else [pending[0]]
  }

  function ResultRows(ids: seq<string>, content: string, at: int, name: Option<string>,
          facts: Option<map<string, string>>):
    (rows: seq<StoredMessage>)
    ensures |rows| == |ids|
    ensures forall k :: 0 <= k < |ids| ==> rows[k] == ToolResultRow(content, at, ids[k], name, facts)
  {
    seq(|ids|, k requires 0 <= k < |ids| => ToolResultRow(content, at, ids[k], name, facts))
  }

  function OutputRows(s: HistoryState, content: string, at: int, name: Option<string>,
          facts: Option<map<string, string>>):
    seq<StoredMessage>
  {
    if s.pending == [] then [UnlinkedOutputRow(content, at, name, facts)]
    else ResultRows(NextIds(s.pending, s.consumeAll), content, at, name, facts)
  }

  function AfterUser(s: HistoryState, row: StoredMessage): HistoryState {
    Appended(s, [row]).(tokens := None)
  }

  function AfterConsume(s: HistoryState): HistoryState {
    s.(pending := s.pending[|NextIds(s.pending, s.consumeAll)|..], consumeAll := s.consumeAll && s.pending == [])
  }

  function AfterOutput(s: HistoryState, rows: seq<StoredMessage>): HistoryState {
    Appended(AfterConsume(s), rows).(
      tokens := if s.tokens.None? then None
                else Some(s.tokens.value.(count := s.tokens.value.count + RowByRow(rows))))
  }

  /** Each new row is estimated on its own, so each may lose up to three characters. */
  function RowByRow(rows: seq<StoredMessage>): nat {
    if rows == [] then 0 else RowByRow(rows[..|rows| - 1]) + EstimateRows([rows[|rows| - 1]])
  }

  function AfterAssistant(s: HistoryState, row: StoredMessage): HistoryState {
    if Replayable(row.content, row.toolCalls) then Appended(s, [row]).(tokens := None) else s
  }

  function AfterStage(s: HistoryState, ids: seq<string>, consumeAll: bool): HistoryState {
    var kept := NonEmptyIds(ids);
    s.(pending := kept, consumeAll := consumeAll && kept != [])
  }

  function NonEmptyIds(ids: seq<string>): seq<string> {
    if ids == [] then []
    else NonEmptyIds(ids[..|ids| - 1]) + (if ids[|ids| - 1] != "" then [ids[|ids| - 1]] else [])
  }

  function AfterCancel(s: HistoryState, content: string, at: int): HistoryState {
    if s.pending == [] then s
    else Appended(s, ResultRows(s.pending, content, at, None, None)).(pending := [], consumeAll := false, tokens := None)
  }

  function AfterReplace(s: HistoryState, rows: seq<StoredMessage>): HistoryState {
    HistoryState(rows, ToLlmAll(rows), s.systemPrompt, [], false, None)
  }

  function FreshCount(s: HistoryState): nat {
    Estimate(PromptMessages(s))
  }

  function Counted(s: HistoryState, model: string): int {
    if s.tokens.Some? && s.tokens.value.model == model then s.tokens.value.count else FreshCount(s)
  }

  function AfterCount(s: HistoryState, model: string): HistoryState {
    s.(tokens := Some(TokenCache(Counted(s, model), model)))
  }

  // ---------- the class ----------

  method CountRowByRow(rows: seq<StoredMessage>) returns (count: nat)
    ensures count == RowByRow(rows)
  {
    count := 0;
    for k := 0 to |rows|
      invariant count == RowByRow(rows[..k])
    {
      assert rows[..k + 1][..k] == rows[..k];
      assert ToLlmAll([rows[k]]) == [ToLlm(rows[k])];
      var tokens := FallbackTokenEstimate([ToLlm(rows[k])]);
      count := count + tokens;
    }
    assert rows[..|rows|] == rows;
  }

  /** One linked row per answered id, or a single unlinked row. */
  method BuildOutputRows(ids: seq<string>, content: string, at: int, name: Option<string>,
          facts: Option<map<string, string>>)
    returns (stored: seq<StoredMessage>)
    ensures stored == if ids == [] then [UnlinkedOutputRow(content, at, name, facts)]
                      else ResultRows(ids, content, at, name, facts)
  {
    stored := [];
    if ids == [] {
      return [UnlinkedOutputRow(content, at, name, facts)];
    }
    for k := 0 to |ids|
      invariant stored == ResultRows(ids, content, at, name, facts)[..k]
    {
      stored := stored + [ToolResultRow(content, at, ids[k], name, facts)];
    }
  }

  class ConversationHistory {
    var history: seq<StoredMessage>
    var llmHistoryCache: seq<LlmMessage>
    var systemPrompt: Option<string>
    var pendingToolCallIds: seq<string>
    var consumeAllOnNextOutput: bool
    var cachedTokenCount: Option<TokenCache>

    function State(): HistoryState
      reads this
    {
      HistoryState(history, llmHistoryCache, systemPrompt, pendingToolCallIds, consumeAllOnNextOutput, cachedTokenCount)
    }

    constructor (systemPrompt: Option<string>)
      ensures State() == Initial(systemPrompt)
    {
      history, llmHistoryCache := [], [];
      this.systemPrompt := systemPrompt;
      pendingToolCallIds, consumeAllOnNextOutput := [], false;
      cachedTokenCount := None;
    }

    method AppendMessage(row: StoredMessage)
      modifies this`history, this`llmHistoryCache
      ensures State() == Appended(old(State()), [row])
    {
      history := history + [row];
      llmHistoryCache := llmHistoryCache + [ToLlm(row)];
    }

    method AppendAll(rows: seq<StoredMessage>)
      modifies this`history, this`llmHistoryCache
      ensures State() == Appended(old(State()), rows)
    {
      for k := 0 to |rows|
        invariant State() == Appended(old(State()), rows[..k])
      {
        assert rows[..k + 1] == rows[..k] + [rows[k]];
        assert ToLlmAll(rows[..k + 1]) == ToLlmAll(rows[..k]) + ToLlmAll([rows[k]]);
        AppendMessage(rows[k]);
      }
      assert rows[..|rows|] == rows;
    }

    method InvalidateTokenCache()
      modifies this`cachedTokenCount
      ensures cachedTokenCount == None
    {
      cachedTokenCount := None;
    }

    method AddUserMessage(content: string, at: int, imageRefs: Option<seq<string>>)
      modifies this
      ensures State() == AfterUser(old(State()), UserRow(content, at, imageRefs))
    {
      AppendMessage(UserRow(content, at, imageRefs));
      InvalidateTokenCache();
    }

    method ConsumeToolCallIdsForNextOutput() returns (ids: seq<string>)
      modifies this`pendingToolCallIds, this`consumeAllOnNextOutput
      ensures ids == NextIds(old(pendingToolCallIds), old(consumeAllOnNextOutput))
      ensures State() == AfterConsume(old(State()))
    {
      if pendingToolCallIds == [] {
        return [];
      }
      if consumeAllOnNextOutput {
        ids := pendingToolCallIds;
        pendingToolCallIds := [];
        consumeAllOnNextOutput := false;
        return;
      }
      ids := [pendingToolCallIds[0]];
      pendingToolCallIds := pendingToolCallIds[1..];
      if pendingToolCallIds == [] {
        consumeAllOnNextOutput := false;
      }
    }

    /** Records a tool output, once per answered call, and moves a valid token count along. */
    method AddToolOutput(content: string, at: int, name: Option<string>, facts: Option<map<string, string>>)
      modifies this
      ensures State() == AfterOutput(old(State()), OutputRows(old(State()), content, at, name, facts))
    {
      hide RowByRow, ToLlmAll, ResultRows, EstimateRows;
      var ids := ConsumeToolCallIdsForNextOutput();
      var stored := BuildOutputRows(ids, content, at, name, facts);
      AppendCounted(stored);
    }

    method AppendCounted(stored: seq<StoredMessage>)
      modifies this
      ensures State() == Appended(old(State()), stored).(
        tokens := if old(cachedTokenCount).None? then None
                  else Some(old(cachedTokenCount).value.(count := old(cachedTokenCount).value.count + RowByRow(stored))))
    {
      hide RowByRow, ToLlmAll;
      var newCount := 0;
      if cachedTokenCount.Some? {
        newCount := CountRowByRow(stored);
      }
      AppendAll(stored);
      if cachedTokenCount.Some? {
        cachedTokenCount := Some(cachedTokenCount.value.(count := cachedTokenCount.value.count + newCount));
      }
    }

    method AddAssistantMessage(content: string, at: int, calls: Option<seq<ToolCall>>)
      modifies this
      ensures State() == AfterAssistant(old(State()), AssistantRow(content, at, calls))
    {
      if !Replayable(content, calls) {
        return;
      }
      AppendMessage(AssistantRow(content, at, calls));
      InvalidateTokenCache();
    }

    method StageToolCallIds(ids: seq<string>, consumeAll: bool)
      modifies this`pendingToolCallIds, this`consumeAllOnNextOutput
      ensures State() == AfterStage(old(State()), ids, consumeAll)
    {
      var kept: seq<string> := [];
      for k := 0 to |ids|
        invariant kept == NonEmptyIds(ids[..k])
      {
        assert ids[..k + 1][..k] == ids[..k];
        if ids[k] != "" {
          kept := kept + [ids[k]];
        }
      }
      assert ids[..|ids|] == ids;
      pendingToolCallIds := kept;
      consumeAllOnNextOutput := consumeAll && kept != [];
    }

    /** Answers every staged call with a synthetic output. */
    method FinalizePendingToolCallsAsCancelled(content: string, at: int) returns (written: nat)
      modifies this
      ensures State() == AfterCancel(old(State()), content, at)
      ensures written == |old(pendingToolCallIds)| == |history| - |old(history)|
      ensures pendingToolCallIds == []
    {
      if pendingToolCallIds == [] {
        return 0;
      }
      var ids := pendingToolCallIds;
      pendingToolCallIds, consumeAllOnNextOutput := [], false;
      var rows := BuildOutputRows(ids, content, at, None, None);
      AppendAll(rows);
      InvalidateTokenCache();
      written := |ids|;
    }

    method GetHistory() returns (messages: seq<LlmMessage>)
      ensures messages == PromptMessages(State())
    {
      messages := [];
      if systemPrompt.Some? && systemPrompt.value != "" {
        messages := messages + [Plain(System, systemPrompt.value)];
      }
      messages := messages + llmHistoryCache;
    }

    method GetTokenCount(model: string) returns (count: int)
      modifies this`cachedTokenCount
      ensures State() == AfterCount(old(State()), model)
      ensures count == Counted(old(State()), model)
    {
      if cachedTokenCount.Some? && cachedTokenCount.value.model == model {
        return cachedTokenCount.value.count;
      }
      var messages := GetHistory();
      count := FallbackTokenEstimate(messages);
      cachedTokenCount := Some(TokenCache(count, model));
    }

    method Clear()
      modifies this
      ensures State() == AfterReplace(old(State()), [])
    {
      history, llmHistoryCache := [], [];
      pendingToolCallIds, consumeAllOnNextOutput := [], false;
      InvalidateTokenCache();
    }

    method ReplaceWithStoredMessages(rows: seq<StoredMessage>)
      modifies this
      ensures State() == AfterReplace(old(State()), rows)
    {
      Clear();
      AppendAll(rows);
      InvalidateTokenCache();
    }
  }
}
