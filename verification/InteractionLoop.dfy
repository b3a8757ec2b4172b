/** The agent loop of one query: prompt, provider, tools, and again, until an answer or an error ends it. */
module InteractionLoop {
  import opened Text
  import opened Messages
  import opened History
  import opened Bridge
  import Checkpoint
  import Linkage

  const AUTO_MID := "auto-mid"
  const OVERFLOW_RETRY := "overflow-retry"
  const MAX_RECOVERY_ATTEMPTS := 1
  const RECOVERY_FAILED := "The model response still failed after compacting history. Please retry, "
    + "or start a new chat if this conversation remains too large."
  const INTERNAL_ERROR := "Internal server error. Start a new chat and try again."
  const RATE_LIMITED := "Rate limit exceeded. Please wait."
  const DONE_WITH_OUTPUT := "I" + " completed the requested tool action(s), but the model returned an empty final response. "
    + "Latest tool output:\n\n"
  const DONE := "I" + " completed the requested action(s), but the model returned an empty final response."
  const OVERFLOW_MARKERS: seq<string> := [
    "context_length_exceeded", "maximum context length", "context window", "context length", "too many tokens", "input is too long", "token limit"]

  // ---------- what the loop meets ----------

  /** A compaction that was decided on: applied with new rows, or skipped or failed. */
  datatype CompactionRun = Applied(rows: seq<StoredMessage>) | NotApplied

  datatype ReportedError = ReportedError(
    content: string, sanitized: string, recoverable: bool, callId: string, toolName: Option<string>, output: string, facts: Option<map<string, string>>)

  datatype Provider =
    | RateLimit
    | Raises(message: string)
    | Answers(error: Option<ReportedError>, text: string, calls: seq<ParsedToolCall>, finishReason: string)

  datatype ToolOutput = ToolOutput(content: string, name: Option<string>, facts: Option<map<string, string>>)

  /** Outputs recorded by one processing of results, which may fail after them. */
  datatype Results = Results(outputs: seq<ToolOutput>, fails: bool)

  datatype ToolRun = ToolRun(sent: seq<string>, sendFails: bool, awaited: Results, cleanup: Results)

  /** Everything one iteration is confronted with; compactions are present only when they were decided on. */
  datatype Turn = Turn(
    mid: Option<CompactionRun>,
    promptFails: bool,
    streamed: seq<string>,
    provider: Provider,
    recovery: Option<CompactionRun>,
    tools: ToolRun,
    at: int)

  datatype Event =
    | Compaction(reason: string, applied: bool)
    | Streamed(text: string)
    | Message(text: string)
    | ToolEvent(text: string)
    | ModelHistory(checkpoint: Checkpoint.ModelHistory)
    | ErrorReport(text: string)
    | Completion(text: string)

  datatype Phase = Running | Finished | Raised

  datatype Refs = Refs(conversation: Option<string>, revision: Option<string>, turn: Option<string>)

  datatype LoopState = LoopState(history: HistoryState, iteration: nat, attempts: nat, events: seq<Event>, phase: Phase)

  // ---------- the pieces of an iteration ----------

  function Emit(s: LoopState, events: seq<Event>): LoopState {
    s.(events := s.events + events)
  }

  function StreamedEvents(texts: seq<string>): seq<Event> {
    seq(|texts|, k requires 0 <= k < |texts| => Streamed(texts[k]))
  }

  function ToolEvents(texts: seq<string>): seq<Event> {
    seq(|texts|, k requires 0 <= k < |texts| => ToolEvent(texts[k]))
  }

  function HistoryEvent(h: HistoryState, refs: Refs): seq<Event> {
    var checkpoint := Checkpoint.Export(h.rows, refs.conversation, refs.revision, refs.turn);
    if checkpoint.Some? then [ModelHistory(checkpoint.value)] else []
  }

  function Compacted(s: LoopState, reason: string, run: CompactionRun): LoopState {
    Emit(s.(history := if run.Applied? then AfterReplace(s.history, run.rows) else s.history), [Compaction(reason, run.Applied?)])
  }

  function ErrorText(message: string): string {
    "[System Error: " + message + "]"
  }

  function Reported(s: LoopState, message: string, at: int): LoopState {
    Emit(s.(history := AfterAssistant(s.history, AssistantRow(ErrorText(message), at, None))), [ErrorReport(message)])
  }

  /** One compaction is allowed to rescue a query that overflows. */
  function Recovery(s: LoopState, run: Option<CompactionRun>): (r: (LoopState, bool)) {
    if s.attempts >= MAX_RECOVERY_ATTEMPTS || run.None? then (s, false)
    else if run.value.Applied? then (Compacted(s, OVERFLOW_RETRY, run.value).(attempts := s.attempts + 1), true)
    else (Compacted(s, OVERFLOW_RETRY, run.value), false)
  }

  function Overflow(s: LoopState, t: Turn): LoopState {
    var r := Recovery(s, t.recovery);
    if r.1 then r.0 else Reported(r.0, RECOVERY_FAILED, t.at).(phase := Finished)
  }

  predicate IsContextOverflow(message: string) {
    exists k :: 0 <= k < |OVERFLOW_MARKERS| && Contains(Lower(Strip(message)), OVERFLOW_MARKERS[k])
  }

  predicate IsEmptyFailed(text: string, calls: seq<ParsedToolCall>, finishReason: string) {
    Blank(text) && calls == [] && Lower(Strip(finishReason)) in {"incomplete", "length"}
  }

  function Recorded(h: HistoryState, outputs: seq<ToolOutput>, n: nat, at: int): HistoryState
    requires n <= |outputs|
  {
    if n == 0 then h
    else
      var before, o := Recorded(h, outputs, n - 1, at), outputs[n - 1];
      AfterOutput(before, OutputRows(before, o.content, at, o.name, o.facts))
  }

  function Processed(s: LoopState, results: Results, at: int, refs: Refs): LoopState {
    var h := Recorded(s.history, results.outputs, |results.outputs|, at);
    Emit(s.(history := h), if results.fails then [] else HistoryEvent(h, refs))
  }

  function Malformed(s: LoopState, e: ReportedError, at: int): LoopState {
    var staged := AfterStage(s.history, [e.callId], false);
    Emit(s.(history := AfterOutput(staged, OutputRows(staged, e.output, at, e.toolName, e.facts))), [ToolEvent(e.callId), ToolEvent(e.output)])
  }

  function FindMarker(s: string, k: nat): nat
    requires k <= |s|
    ensures k <= FindMarker(s, k) <= |s|
    decreases |s| - k
  {
    if HasAt(s, "<system_context>", k) then k
    else if k == |s| then k
    else FindMarker(s, k + 1)
  }

  /** The latest tool output that says something, without system context and cut to 600 characters. */
  function LastOutput(rows: seq<StoredMessage>, n: nat): string
    requires n <= |rows|
  {
    if n == 0 then ""
    else if rows[n - 1].messageType != MessageType.ToolOutput || Blank(rows[n - 1].content) then LastOutput(rows, n - 1)
    else
      var content := Strip(rows[n - 1].content);
      var at := FindMarker(content, 0);
      var own := if at < |content| then Strip(content[..at]) else content;
      if |own| > 600 then own[..597] + "..." else own
  }

  /** What stands in for a blank answer. */
  function EmptyAnswerText(rows: seq<StoredMessage>): string {
    var summary := LastOutput(rows, |rows|);
    if summary != "" then DONE_WITH_OUTPUT + summary else DONE
  }

  function Answered(s: LoopState, text: string, at: int, refs: Refs): LoopState {
    var final := if Blank(text) then EmptyAnswerText(s.history.rows) else text;
    var h := AfterAssistant(s.history, AssistantRow(final, at, None));
    Emit(s.(history := h, phase := Finished), (if Blank(text) then [Message(final)] else []) + HistoryEvent(h, refs) + [Completion(final)])
  }

  function ToolTurn(s: LoopState, t: Turn, refs: Refs): LoopState
    requires t.provider.Answers?
  {
    var calls := HistoryCalls(t.provider.calls);
    var sent := Emit(s.(history := Linkage.AfterToolTurn(s.history, t.provider.text, t.at, calls)), ToolEvents(t.tools.sent));
    if t.tools.sendFails then ToolFailure(sent, t, refs)
    else if |calls| <= 1 then Processed(sent, t.tools.cleanup, t.at, refs)
    else
      var awaited := Processed(sent, t.tools.awaited, t.at, refs);
      if t.tools.awaited.fails then ToolFailure(awaited, t, refs) else awaited
  }

  /** The error is reported first; the cleanup still records results and may announce the history. */
  function ToolFailure(s: LoopState, t: Turn, refs: Refs): LoopState {
    Processed(Reported(s, INTERNAL_ERROR, t.at), t.tools.cleanup, t.at, refs).(phase := Finished)
  }

  function Responded(s: LoopState, t: Turn, refs: Refs): LoopState
    requires t.provider.Answers?
  {
    var p := t.provider;
    var r := if IsEmptyFailed(p.text, p.calls, p.finishReason) then Recovery(s, t.recovery) else (s, false);
    if r.1 then r.0
    else if IsEmptyFailed(p.text, p.calls, p.finishReason) && r.0.attempts >= MAX_RECOVERY_ATTEMPTS then
      Reported(r.0, RECOVERY_FAILED, t.at).(phase := Finished)
    else
      var shown := Emit(r.0, if p.text == "" then [] else [Message(p.text)]);
      if p.calls == [] then Answered(shown, p.text, t.at, refs) else ToolTurn(shown, t, refs)
  }

  function Began(s: LoopState, t: Turn): LoopState {
    (if s.iteration > 0 && t.mid.Some? then Compacted(s, AUTO_MID, t.mid.value) else s).(iteration := s.iteration + 1)
  }

  function AfterTurn(s: LoopState, t: Turn, refs: Refs): LoopState {
    var began := Began(s, t);
    if t.promptFails then began.(phase := Raised)
    else
      var heard := Emit(began, StreamedEvents(t.streamed));
      match t.provider
      case RateLimit => Reported(heard, RATE_LIMITED, t.at).(phase := Finished)
      case Raises(message) =>
        if IsContextOverflow(message) then Overflow(heard, t) else Reported(heard, INTERNAL_ERROR, t.at).(phase := Finished)
      case Answers(error, _, _, _) =>
        if error.None? || error.value.content == "" then Responded(heard, t, refs)
        else if error.value.recoverable then Malformed(heard, error.value, t.at)
        else if IsContextOverflow(error.value.content) then Overflow(heard, t)
        else Reported(heard, error.value.sanitized, t.at).(phase := Finished)
  }

  /** The loop over the turns it meets; turns after the end are not looked at. */
  function RunTurns(s: LoopState, turns: seq<Turn>, refs: Refs): LoopState {
    if turns == [] then s
    else
      var before := RunTurns(s, turns[..|turns| - 1], refs);
      if before.phase == Running then AfterTurn(before, turns[|turns| - 1], refs) else before
  }

  function Begin(h: HistoryState): LoopState {
    LoopState(h, 0, 0, [], Running)
  }

  // ---------- what a run yields ----------

  predicate Terminal(e: Event) {
    e.ErrorReport? || e.Completion?
  }

  predicate Retry(e: Event) {
    e.Compaction? && e.reason == OVERFLOW_RETRY
  }

  function Terminals(events: seq<Event>): nat {
    if events == [] then 0 else Terminals(events[..|events| - 1]) + if Terminal(events[|events| - 1]) then 1 else 0
  }

  function Retries(events: seq<Event>): nat {
    if events == [] then 0 else Retries(events[..|events| - 1]) + if Retry(events[|events| - 1]) then 1 else 0
  }

  lemma {:induction false} CountsAdd(a: seq<Event>, b: seq<Event>)
    ensures Terminals(a + b) == Terminals(a) + Terminals(b)
    ensures Retries(a + b) == Retries(a) + Retries(b)
  {
    if b == [] {
      assert a + b == a;
    } else {
      assert (a + b)[..|a + b| - 1] == a + b[..|b| - 1];
      CountsAdd(a, b[..|b| - 1]);
    }
  }

  predicate Quiet(events: seq<Event>) {
    forall k :: 0 <= k < |events| ==> !Terminal(events[k]) && !Retry(events[k])
  }

  lemma {:induction false} QuietCounts(events: seq<Event>)
    requires Quiet(events)
    ensures Terminals(events) == 0 && Retries(events) == 0
  {
    if events != [] {
      QuietCounts(events[..|events| - 1]);
    }
  }

  /** The terminal event is last, or followed by one announcement of the history. */
  predicate EndsWell(events: seq<Event>) {
    var n := |events|;
    || (n > 0 && Terminal(events[n - 1]))
    || (n > 1 && Terminal(events[n - 2]) && events[n - 1].ModelHistory?)
  }

  predicate Orderly(s: LoopState) {
    match s.phase
    case Finished => Terminals(s.events) == 1 && EndsWell(s.events) && Retries(s.events) <= 1
    case _ => Terminals(s.events) == 0 && Retries(s.events) == s.attempts <= 1
  }

  lemma EmitQuiet(s: LoopState, events: seq<Event>)
    requires Quiet(events)
    ensures Terminals(Emit(s, events).events) == Terminals(s.events) && Retries(Emit(s, events).events) == Retries(s.events)
  {
    CountsAdd(s.events, events);
    QuietCounts(events);
  }

  lemma EmitOne(s: LoopState, e: Event)
    ensures Terminals(Emit(s, [e]).events) == Terminals(s.events) + (if Terminal(e) then 1 else 0)
    ensures Retries(Emit(s, [e]).events) == Retries(s.events) + (if Retry(e) then 1 else 0)
  {
    assert (s.events + [e])[..|s.events + [e]| - 1] == s.events;
  }

  lemma ReportEnds(s: LoopState, message: string, at: int)
    requires Terminals(s.events) == 0 && Retries(s.events) <= 1
    ensures Orderly(Reported(s, message, at).(phase := Finished))
    ensures Terminal(Reported(s, message, at).events[|Reported(s, message, at).events| - 1])
  {
    EmitOne(s, ErrorReport(message));
  }

  lemma RecoveryCounts(s: LoopState, run: Option<CompactionRun>)
    requires Terminals(s.events) == 0 && Retries(s.events) == s.attempts <= 1
    ensures var r := Recovery(s, run);
            && Terminals(r.0.events) == 0 && Retries(r.0.events) <= 1 && r.0.attempts <= 1 && r.0.phase == s.phase
            && (r.1 ==> Retries(r.0.events) == r.0.attempts)
            && (!r.1 && r.0.attempts == 0 && run.None? ==> r.0 == s)
  {
    if s.attempts == 0 && run.Some? {
      EmitOne(s, Compaction(OVERFLOW_RETRY, run.value.Applied?));
    }
  }

  lemma OverflowIsOrderly(s: LoopState, t: Turn)
    requires s.phase == Running && Orderly(s)
    ensures Orderly(Overflow(s, t))
  {
    RecoveryCounts(s, t.recovery);
    var r := Recovery(s, t.recovery);
    hide Recovery, Reported;
    if !r.1 {
      ReportEnds(r.0, RECOVERY_FAILED, t.at);
    }
  }

  lemma ProcessedKeepsCounts(s: LoopState, results: Results, at: int, refs: Refs)
    ensures var r := Processed(s, results, at, refs);
            && Terminals(r.events) == Terminals(s.events) && Retries(r.events) == Retries(s.events)
            && r.attempts == s.attempts && r.phase == s.phase
            && (r.events == s.events || (|r.events| == |s.events| + 1 && r.events[..|s.events|] == s.events && r.events[|s.events|].ModelHistory?))
  {
    var h := Recorded(s.history, results.outputs, |results.outputs|, at);
    EmitQuiet(s, if results.fails then [] else HistoryEvent(h, refs));
  }

  lemma FailureIsOrderly(s: LoopState, t: Turn, refs: Refs)
    requires Terminals(s.events) == 0 && Retries(s.events) <= 1
    ensures Orderly(ToolFailure(s, t, refs))
  {
    ReportEnds(s, INTERNAL_ERROR, t.at);
    ProcessedKeepsCounts(Reported(s, INTERNAL_ERROR, t.at), t.tools.cleanup, t.at, refs);
    hide Reported, Processed;
  }

  lemma ToolEventsAreQuiet(texts: seq<string>)
    ensures Quiet(ToolEvents(texts))
  {
  }

  lemma ToolTurnIsOrderly(s: LoopState, t: Turn, refs: Refs)
    requires t.provider.Answers? && s.phase == Running && Orderly(s)
    ensures Orderly(ToolTurn(s, t, refs))
  {
    hide Processed, ToolFailure, Terminals, Retries, EndsWell, ToolEvents, Linkage.AfterToolTurn;
    var calls := HistoryCalls(t.provider.calls);
    var committed := s.(history := Linkage.AfterToolTurn(s.history, t.provider.text, t.at, calls));
    ToolEventsAreQuiet(t.tools.sent);
    EmitQuiet(committed, ToolEvents(t.tools.sent));
    var sent := Emit(committed, ToolEvents(t.tools.sent));
    ProcessedKeepsCounts(sent, t.tools.cleanup, t.at, refs);
    ProcessedKeepsCounts(sent, t.tools.awaited, t.at, refs);
    FailureIsOrderly(sent, t, refs);
    FailureIsOrderly(Processed(sent, t.tools.awaited, t.at, refs), t, refs);
  }

  lemma AnswerIsOrderly(s: LoopState, text: string, at: int, refs: Refs)
    requires Terminals(s.events) == 0 && Retries(s.events) <= 1
    ensures Orderly(Answered(s, text, at, refs))
  {
    hide Blank, EmptyAnswerText, AfterAssistant, Terminals, Retries, Checkpoint.Export;
    var final := if Blank(text) then EmptyAnswerText(s.history.rows) else text;
    var h := AfterAssistant(s.history, AssistantRow(final, at, None));
    var quiet := (if Blank(text) then [Message(final)] else []) + HistoryEvent(h, refs);
    EmitQuiet(s, quiet);
    EmitOne(Emit(s, quiet), Completion(final));
    assert s.events + (quiet + [Completion(final)]) == (s.events + quiet) + [Completion(final)];
  }

  lemma ResponseIsOrderly(s: LoopState, t: Turn, refs: Refs)
    requires t.provider.Answers? && s.phase == Running && Orderly(s)
    ensures Orderly(Responded(s, t, refs))
  {
    hide Recovery, Terminals, Retries, EndsWell, ToolTurn, Answered, Reported, Blank, Strip, Lower;
    var p := t.provider;
    var failed := IsEmptyFailed(p.text, p.calls, p.finishReason);
    RecoveryCounts(s, t.recovery);
    var r := if failed then Recovery(s, t.recovery) else (s, false);
    var shown := Emit(r.0, if p.text == "" then [] else [Message(p.text)]);
    EmitQuiet(r.0, if p.text == "" then [] else [Message(p.text)]);
    if !r.1 {
      if failed && r.0.attempts >= MAX_RECOVERY_ATTEMPTS {
        ReportEnds(r.0, RECOVERY_FAILED, t.at);
      } else if p.calls == [] {
        AnswerIsOrderly(shown, p.text, t.at, refs);
      } else {
        ToolTurnIsOrderly(shown, t, refs);
      }
    }
  }

  lemma BeginningIsOrderly(s: LoopState, t: Turn)
    requires s.phase == Running && Orderly(s)
    ensures Orderly(Began(s, t)) && Began(s, t).phase == Running
    ensures var heard := Emit(Began(s, t), StreamedEvents(t.streamed));
            Orderly(heard) && heard.phase == Running && Terminals(heard.events) == 0 && Retries(heard.events) <= 1
  {
    if s.iteration > 0 && t.mid.Some? {
      EmitOne(s, Compaction(AUTO_MID, t.mid.value.Applied?));
      assert AUTO_MID[0] != OVERFLOW_RETRY[0];
    }
    EmitQuiet(Began(s, t), StreamedEvents(t.streamed));
  }

  lemma TurnIsOrderly(s: LoopState, t: Turn, refs: Refs)
    requires s.phase == Running && Orderly(s)
    ensures Orderly(AfterTurn(s, t, refs))
  {
    hide Began, Overflow, Responded, Reported, Malformed, Terminals, Retries, EndsWell, IsContextOverflow, StreamedEvents, Emit;
    BeginningIsOrderly(s, t);
    var heard := Emit(Began(s, t), StreamedEvents(t.streamed));
    match t.provider
    case RateLimit => ReportEnds(heard, RATE_LIMITED, t.at);
    case Raises(message) =>
      OverflowIsOrderly(heard, t);
      ReportEnds(heard, INTERNAL_ERROR, t.at);
    case Answers(error, _, _, _) =>
      if error.None? || error.value.content == "" {
        ResponseIsOrderly(heard, t, refs);
      } else {
        OverflowIsOrderly(heard, t);
        ReportEnds(heard, error.value.sanitized, t.at);
        MalformedIsOrderly(heard, error.value, t.at);
      }
  }

  lemma MalformedIsOrderly(s: LoopState, e: ReportedError, at: int)
    requires s.phase == Running && Orderly(s)
    ensures Orderly(Malformed(s, e, at))
  {
    EmitQuiet(s, [ToolEvent(e.callId), ToolEvent(e.output)]);
  }

  lemma {:induction false} RunIsOrderly(h: HistoryState, turns: seq<Turn>, refs: Refs)
    ensures Orderly(RunTurns(Begin(h), turns, refs))
  {
    if turns != [] {
      RunIsOrderly(h, turns[..|turns| - 1], refs);
      var before := RunTurns(Begin(h), turns[..|turns| - 1], refs);
      if before.phase == Running {
        TurnIsOrderly(before, turns[|turns| - 1], refs);
      }
    }
  }

  /**
   * Every run that finishes yields exactly one completion or error, with at most an announcement of the history
   * after it, and compacts at most once to recover; a run that has not finished has yielded neither.
   */
  lemma OneTerminalEvent(h: HistoryState, turns: seq<Turn>, refs: Refs)
    ensures var s := RunTurns(Begin(h), turns, refs);
            && Terminals(s.events) == (if s.phase == Finished then 1 else 0)
            && Retries(s.events) <= 1
            && (s.phase == Finished ==> EndsWell(s.events))
  {
    RunIsOrderly(h, turns, refs);
  }

  // ---------- what a completed run leaves behind ----------

  /** The completion says what the last stored row says, and the announced history is the one the run leaves. */
  predicate AnswerIsStored(s: LoopState, refs: Refs) {
    var n, rows := |s.events|, s.history.rows;
    && n > 0 && s.events[n - 1].Completion? && !Blank(s.events[n - 1].text)
    && rows != [] && rows[|rows| - 1].role == Assistant && rows[|rows| - 1].toolCalls == None
    && rows[|rows| - 1].content == s.events[n - 1].text
    && (HistoryEvent(s.history, refs) == [] || (n > 1 && [s.events[n - 2]] == HistoryEvent(s.history, refs)))
  }

  lemma EmptyAnswerIsVisible(rows: seq<StoredMessage>)
    ensures !Blank(EmptyAnswerText(rows))
  {
    DoneStartsVisibly();
    hide LastOutput, Strip, DONE, DONE_WITH_OUTPUT;
    VisibleStartIsNotBlank(EmptyAnswerText(rows));
  }

  lemma DoneStartsVisibly()
    ensures DONE != "" && DONE[0] == 'I' && DONE_WITH_OUTPUT != "" && DONE_WITH_OUTPUT[0] == 'I'
  {
  }

  lemma AnsweredIsStored(s: LoopState, text: string, at: int, refs: Refs)
    ensures AnswerIsStored(Answered(s, text, at, refs), refs)
  {
    hide EmptyAnswerText, Checkpoint.Export, ToLlmAll, Blank;
    EmptyAnswerIsVisible(s.history.rows);
    var final := if Blank(text) then EmptyAnswerText(s.history.rows) else text;
    var h := AfterAssistant(s.history, AssistantRow(final, at, None));
    var r := Answered(s, text, at, refs);
    assert |HistoryEvent(h, refs)| <= 1;
    assert h.rows == s.history.rows + [AssistantRow(final, at, None)];
    assert r.history == h && r.phase == Finished;
    hide HistoryEvent, AfterAssistant;
    var shown := s.events + if Blank(text) then [Message(final)] else [];
    assert r.events == shown + (HistoryEvent(h, refs) + [Completion(final)]);
    hide Answered;
  }

  predicate EndsInCompletion(events: seq<Event>) {
    events != [] && events[|events| - 1].Completion?
  }

  lemma FailureDoesNotComplete(s: LoopState, t: Turn, refs: Refs)
    ensures !EndsInCompletion(ToolFailure(s, t, refs).events)
  {
    ProcessedKeepsCounts(Reported(s, INTERNAL_ERROR, t.at), t.tools.cleanup, t.at, refs);
    hide Processed, Terminals, Retries;
  }

  lemma ToolTurnDoesNotComplete(s: LoopState, t: Turn, refs: Refs)
    requires t.provider.Answers?
    ensures var r := ToolTurn(s, t, refs);
            r.phase == s.phase || !EndsInCompletion(r.events)
  {
    var calls := HistoryCalls(t.provider.calls);
    var sent := Emit(s.(history := Linkage.AfterToolTurn(s.history, t.provider.text, t.at, calls)), ToolEvents(t.tools.sent));
    FailureDoesNotComplete(sent, t, refs);
    FailureDoesNotComplete(Processed(sent, t.tools.awaited, t.at, refs), t, refs);
    hide ToolFailure, Linkage.AfterToolTurn, Recorded, HistoryEvent;
  }

  lemma TurnStoresAnswer(s: LoopState, t: Turn, refs: Refs)
    requires s.phase == Running
    ensures var r := AfterTurn(s, t, refs);
            r.phase == Finished && EndsInCompletion(r.events) ==> AnswerIsStored(r, refs)
  {
    hide Answered, ToolTurn, AnswerIsStored, IsContextOverflow, IsEmptyFailed, AfterAssistant, AfterReplace, AfterStage, AfterOutput, OutputRows;
    var heard := Emit(Began(s, t), StreamedEvents(t.streamed));
    if t.provider.Answers? {
      var p := t.provider;
      var r := if IsEmptyFailed(p.text, p.calls, p.finishReason) then Recovery(heard, t.recovery) else (heard, false);
      var shown := Emit(r.0, if p.text == "" then [] else [Message(p.text)]);
      AnsweredIsStored(shown, p.text, t.at, refs);
      ToolTurnDoesNotComplete(shown, t, refs);
    }
  }

  /** Whatever the turns were, a completed run has stored what it told the user. */
  lemma {:induction false} CompletedRunStoresAnswer(h: HistoryState, turns: seq<Turn>, refs: Refs)
    ensures var s := RunTurns(Begin(h), turns, refs);
            s.phase == Finished && EndsInCompletion(s.events) ==> AnswerIsStored(s, refs)
  {
    if turns != [] {
      CompletedRunStoresAnswer(h, turns[..|turns| - 1], refs);
      var before := RunTurns(Begin(h), turns[..|turns| - 1], refs);
      hide AfterTurn, AnswerIsStored;
      if before.phase == Running {
        TurnStoresAnswer(before, turns[|turns| - 1], refs);
      }
    }
  }

  // ---------- what a failed run leaves behind ----------

  /** An error the user was told of is on record as an assistant row. */
  ghost predicate ErrorIsStored(s: LoopState) {
    exists j, k :: 0 <= j < |s.events| && 0 <= k < |s.history.rows| && Records(s.history.rows[k], s.events[j])
  }

  predicate Records(row: StoredMessage, e: Event) {
    e.ErrorReport? && row.role == Assistant && row.content == ErrorText(e.text)
  }

  lemma ReportIsStored(s: LoopState, message: string, at: int)
    ensures ErrorIsStored(Reported(s, message, at))
  {
    hide Blank, ToLlmAll, Strip;
    VisibleStartIsNotBlank(ErrorText(message));
    assert Blank(ErrorText(message)) == (Strip(ErrorText(message)) == "") by { BlankIsStripped(ErrorText(message)); }
    var r := Reported(s, message, at);
    assert Records(r.history.rows[|s.history.rows|], r.events[|s.events|]);
  }

  lemma BlankIsStripped(text: string)
    ensures Blank(text) <==> Strip(text) == ""
  {
  }

  lemma {:induction false} RecordedGrows(h: HistoryState, outputs: seq<ToolOutput>, n: nat, at: int)
    requires n <= |outputs|
    ensures h.rows <= Recorded(h, outputs, n, at).rows
  {
    hide OutputRows, ToLlmAll;
    if n > 0 {
      RecordedGrows(h, outputs, n - 1, at);
    }
  }

  lemma ProcessedKeepsStored(s: LoopState, results: Results, at: int, refs: Refs)
    requires ErrorIsStored(s)
    ensures ErrorIsStored(Processed(s, results, at, refs))
  {
    RecordedGrows(s.history, results.outputs, |results.outputs|, at);
    hide Recorded, HistoryEvent, Records;
    var r := Processed(s, results, at, refs);
    var j, k :| 0 <= j < |s.events| && 0 <= k < |s.history.rows| && Records(s.history.rows[k], s.events[j]);
    assert r.events[j] == s.events[j] && r.history.rows[k] == s.history.rows[k];
  }

  lemma FailureIsStored(s: LoopState, t: Turn, refs: Refs)
    ensures ErrorIsStored(ToolFailure(s, t, refs))
  {
    var reported := Reported(s, INTERNAL_ERROR, t.at);
    ReportIsStored(s, INTERNAL_ERROR, t.at);
    ProcessedKeepsStored(reported, t.tools.cleanup, t.at, refs);
    hide Reported, Processed, Records;
  }

  /** Finished with an answer, or with an error on record. */
  ghost predicate Accounted(s: LoopState) {
    s.phase == Finished && !EndsInCompletion(s.events) ==> ErrorIsStored(s)
  }

  lemma FailIsAccounted(s: LoopState, message: string, at: int)
    ensures Accounted(Reported(s, message, at).(phase := Finished))
  {
    ReportIsStored(s, message, at);
    hide Reported, Records;
  }

  lemma ToolTurnIsAccounted(s: LoopState, t: Turn, refs: Refs)
    requires t.provider.Answers? && s.phase == Running
    ensures Accounted(ToolTurn(s, t, refs))
  {
    hide ToolFailure, Linkage.AfterToolTurn, Recorded, HistoryEvent, ErrorIsStored;
    var calls := HistoryCalls(t.provider.calls);
    var sent := Emit(s.(history := Linkage.AfterToolTurn(s.history, t.provider.text, t.at, calls)), ToolEvents(t.tools.sent));
    FailureIsStored(sent, t, refs);
    FailureIsStored(Processed(sent, t.tools.awaited, t.at, refs), t, refs);
  }

  lemma ResponseIsAccounted(s: LoopState, t: Turn, refs: Refs)
    requires t.provider.Answers? && s.phase == Running
    ensures Accounted(Responded(s, t, refs))
  {
    hide Answered, ToolTurn, IsEmptyFailed, Recovery, Reported, Accounted, Emit;
    var p := t.provider;
    var r := if IsEmptyFailed(p.text, p.calls, p.finishReason) then Recovery(s, t.recovery) else (s, false);
    var shown := Emit(r.0, if p.text == "" then [] else [Message(p.text)]);
    RecoveryKeepsPhase(s, t.recovery);
    EmitKeepsPhase(r.0, if p.text == "" then [] else [Message(p.text)]);
    RunningIsAccounted(r.0);
    FailIsAccounted(r.0, RECOVERY_FAILED, t.at);
    AnswerIsAccounted(shown, p.text, t.at, refs);
    ToolTurnIsAccounted(shown, t, refs);
  }

  lemma RecoveryKeepsPhase(s: LoopState, run: Option<CompactionRun>)
    ensures Recovery(s, run).0.phase == s.phase
  {
  }

  lemma EmitKeepsPhase(s: LoopState, events: seq<Event>)
    ensures Emit(s, events).phase == s.phase
  {
  }

  lemma RunningIsAccounted(s: LoopState)
    requires s.phase != Finished
    ensures Accounted(s)
  {
  }

  lemma AnswerIsAccounted(s: LoopState, text: string, at: int, refs: Refs)
    ensures Accounted(Answered(s, text, at, refs))
  {
    hide Blank, EmptyAnswerText, AfterAssistant, HistoryEvent;
  }

  lemma TurnIsAccounted(s: LoopState, t: Turn, refs: Refs)
    requires s.phase == Running
    ensures Accounted(AfterTurn(s, t, refs))
  {
    hide Responded, Reported, Recovery, Accounted, IsContextOverflow, AfterReplace, AfterStage, AfterOutput, OutputRows, StreamedEvents;
    var heard := Emit(Began(s, t), StreamedEvents(t.streamed));
    RunningIsAccounted(Began(s, t).(phase := Raised));
    FailIsAccounted(heard, RATE_LIMITED, t.at);
    FailIsAccounted(heard, INTERNAL_ERROR, t.at);
    RecoveryKeepsPhase(heard, t.recovery);
    RunningIsAccounted(Recovery(heard, t.recovery).0);
    FailIsAccounted(Recovery(heard, t.recovery).0, RECOVERY_FAILED, t.at);
    if t.provider.Answers? {
      ResponseIsAccounted(heard, t, refs);
      if t.provider.error.Some? {
        RunningIsAccounted(Malformed(heard, t.provider.error.value, t.at));
        FailIsAccounted(heard, t.provider.error.value.sanitized, t.at);
      }
    }
  }

  /** A run that finishes without an answer has told the user of an error, and the history says so too. */
  lemma {:induction false} FailedRunStoresError(h: HistoryState, turns: seq<Turn>, refs: Refs)
    ensures var s := RunTurns(Begin(h), turns, refs);
            s.phase == Finished && !EndsInCompletion(s.events) ==> ErrorIsStored(s)
  {
    if turns != [] {
      FailedRunStoresError(h, turns[..|turns| - 1], refs);
      var before := RunTurns(Begin(h), turns[..|turns| - 1], refs);
      hide AfterTurn, ErrorIsStored;
      if before.phase == Running {
        TurnIsAccounted(before, turns[|turns| - 1], refs);
      }
    }
  }

  // ---------- the loop itself ----------

  class Loop {
    const history: ConversationHistory
    const refs: Refs
    var iteration: nat
    var attempts: nat
    var events: seq<Event>
    var phase: Phase

    function State(): LoopState
      reads this, history
    {
      LoopState(history.State(), iteration, attempts, events, phase)
    }

    constructor (history: ConversationHistory, refs: Refs)
      ensures this.history == history && this.refs == refs
      ensures State() == Begin(history.State())
    {
      this.history, this.refs := history, refs;
      iteration, attempts, events, phase := 0, 0, [], Running;
    }

    method Yield(more: seq<Event>)
      modifies this`events
      ensures State() == Emit(old(State()), more)
    {
      events := events + more;
    }

    method RunCompaction(reason: string, run: CompactionRun) returns (applied: bool)
      modifies this`events, history
      ensures State() == Compacted(old(State()), reason, run)
      ensures applied == run.Applied?
    {
      applied := run.Applied?;
      if applied {
        history.ReplaceWithStoredMessages(run.rows);
      }
      Yield([Compaction(reason, applied)]);
    }

    method AttemptCompactionRecovery(run: Option<CompactionRun>) returns (recovered: bool)
      modifies this, history
      ensures State() == Recovery(old(State()), run).0
      ensures recovered == Recovery(old(State()), run).1
    {
      if attempts >= MAX_RECOVERY_ATTEMPTS || run.None? {
        return false;
      }
      recovered := RunCompaction(OVERFLOW_RETRY, run.value);
      if recovered {
        attempts := attempts + 1;
      }
    }

    method EmitErrorAndRecord(message: string, at: int)
      modifies this`events, history
      ensures State() == Reported(old(State()), message, at)
    {
      Yield([ErrorReport(message)]);
      history.AddAssistantMessage(ErrorText(message), at, None);
    }

    method EmitModelHistory()
      modifies this`events
      ensures State() == Emit(old(State()), HistoryEvent(old(history.State()), refs))
    {
      var checkpoint := Checkpoint.Export(history.history, refs.conversation, refs.revision, refs.turn);
      if checkpoint.Some? {
        Yield([ModelHistory(checkpoint.value)]);
      }
    }

    /** Stores the assistant's tool turn and stages its ids. */
    method CommitAssistantToolTurn(text: string, at: int, calls: seq<ParsedToolCall>) returns (isBundle: bool)
      modifies history
      ensures State() == old(State()).(history := Linkage.AfterToolTurn(old(history.State()), text, at, HistoryCalls(calls)))
      ensures isBundle == (|calls| > 1)
    {
      hide ToLlmAll, Replayable, NonEmptyIds;
      var stored := ToHistoryToolCalls(calls);
      history.AddAssistantMessage(text, at, Some(stored));
      var ids := ExtractHistoryToolCallIds(calls, stored);
      isBundle := |calls| > 1;
      history.StageToolCallIds(ids, isBundle);
    }

    method RecordOutputs(outputs: seq<ToolOutput>, at: int)
      modifies history
      ensures State() == old(State()).(history := Recorded(old(history.State()), outputs, |outputs|, at))
    {
      hide OutputRows, AfterOutput;
      for n := 0 to |outputs|
        invariant history.State() == Recorded(old(history.State()), outputs, n, at)
      {
        history.AddToolOutput(outputs[n].content, at, outputs[n].name, outputs[n].facts);
      }
    }

    method ProcessResults(results: Results, at: int)
      modifies this`events, history
      ensures State() == Processed(old(State()), results, at, refs)
    {
      RecordOutputs(results.outputs, at);
      if !results.fails {
        EmitModelHistory();
      }
    }

    method EmitRecoverableToolCallError(e: ReportedError, at: int)
      modifies this`events, history
      ensures State() == Malformed(old(State()), e, at)
    {
      hide OutputRows, NonEmptyIds;
      Yield([ToolEvent(e.callId), ToolEvent(e.output)]);
      history.StageToolCallIds([e.callId], false);
      history.AddToolOutput(e.output, at, e.toolName, e.facts);
    }

    /** Sends the calls; a bundle is awaited at once. Results are always processed for cleanup unless that succeeded. */
    method ExecuteTools(t: Turn)
      requires t.provider.Answers?
      modifies this, history
      ensures State() == ToolTurn(old(State()), t, refs)
    {
      hide Linkage.AfterToolTurn, Processed, Reported;
      var isBundle := CommitAssistantToolTurn(t.provider.text, t.at, t.provider.calls);
      Yield(ToolEvents(t.tools.sent));
      var failed := t.tools.sendFails;
      if !failed && isBundle {
        ProcessResults(t.tools.awaited, t.at);
        failed := t.tools.awaited.fails;
        if !failed {
          return;
        }
      }
      if failed {
        EmitErrorAndRecord(INTERNAL_ERROR, t.at);
      }
      ProcessResults(t.tools.cleanup, t.at);
      if failed {
        phase := Finished;
      }
    }

    method FinalAnswer(text: string, at: int)
      modifies this, history
      ensures State() == Answered(old(State()), text, at, refs)
    {
      hide EmptyAnswerText, Blank, AfterAssistant;
      var final := text;
      if Blank(text) {
        final := EmptyAnswerText(history.history);
        Yield([Message(final)]);
      }
      history.AddAssistantMessage(final, at, None);
      EmitModelHistory();
      Yield([Completion(final)]);
      phase := Finished;
    }

    method RecoverOrFail(t: Turn)
      modifies this, history
      ensures State() == Overflow(old(State()), t)
    {
      hide Recovery, Reported;
      var recovered := AttemptCompactionRecovery(t.recovery);
      if !recovered {
        EmitErrorAndRecord(RECOVERY_FAILED, t.at);
        phase := Finished;
      }
    }

    method FailWith(message: string, at: int)
      modifies this, history
      ensures State() == Reported(old(State()), message, at).(phase := Finished)
    {
      EmitErrorAndRecord(message, at);
      phase := Finished;
    }

    method UseResponse(t: Turn)
      requires t.provider.Answers?
      modifies this, history
      ensures State() == Responded(old(State()), t, refs)
    {
      hide Recovery, Reported, Answered, ToolTurn, IsEmptyFailed;
      var p := t.provider;
      if IsEmptyFailed(p.text, p.calls, p.finishReason) {
        var recovered := AttemptCompactionRecovery(t.recovery);
        if recovered {
          return;
        }
        if attempts >= MAX_RECOVERY_ATTEMPTS {
          FailWith(RECOVERY_FAILED, t.at);
          return;
        }
      }
      if p.text != "" {
        Yield([Message(p.text)]);
      } else {
        assert State() == Emit(State(), []);
      }
      if p.calls == [] {
        FinalAnswer(p.text, t.at);
      } else {
        ExecuteTools(t);
      }
    }

    method StartTurn(t: Turn)
      modifies this, history
      ensures State() == Began(old(State()), t)
    {
      hide Compacted;
      if iteration > 0 && t.mid.Some? {
        var _ := RunCompaction(AUTO_MID, t.mid.value);
      }
      iteration := iteration + 1;
    }

    method RunTurn(t: Turn)
      modifies this, history
      ensures State() == AfterTurn(old(State()), t, refs)
    {
      hide Began, Reported, Overflow, Responded, Malformed, IsContextOverflow;
      StartTurn(t);
      if t.promptFails {
        phase := Raised;
        return;
      }
      Yield(StreamedEvents(t.streamed));
      match t.provider
      case RateLimit => FailWith(RATE_LIMITED, t.at);
      case Raises(message) =>
        if IsContextOverflow(message) {
          RecoverOrFail(t);
        } else {
          FailWith(INTERNAL_ERROR, t.at);
        }
      case Answers(error, _, _, _) =>
        if error.None? || error.value.content == "" {
          UseResponse(t);
        } else if error.value.recoverable {
          EmitRecoverableToolCallError(error.value, t.at);
        } else if IsContextOverflow(error.value.content) {
          RecoverOrFail(t);
        } else {
          FailWith(error.value.sanitized, t.at);
        }
    }

    /** Goes round until the query is answered, fails, or the given turns are used up. */
    method RunLoop(turns: seq<Turn>)
      modifies this, history
      ensures State() == RunTurns(old(State()), turns, refs)
    {
      for n := 0 to |turns|
        invariant State() == RunTurns(old(State()), turns[..n], refs)
      {
        hide AfterTurn;
        assert turns[..n + 1][..n] == turns[..n];
        if phase == Running {
          RunTurn(turns[n]);
        }
      }
      assert turns[..|turns|] == turns;
    }
  }
}
