/** The agent loop with the compactions its own engine installs. */
module LoopCompaction {
  import opened Text
  import opened Messages
  import opened History
  import opened HistoryRuns
  import opened Bridge
  import opened Compaction
  import opened InteractionLoop
  import opened LoopLinkage
  import L = Linkage

  // ---------- a commit over a history that grew meanwhile ----------

  /** What the summary and the tail leave open is what the summarised rows left open. */
  lemma TailLeavesTheSame(rows: seq<StoredMessage>, env: L.Env, minimal: bool, summary: string, at: int)
    requires TypedRows(rows) && L.Replay(rows).Some? && BuildInput(rows, env.cfg, minimal, env.tokenizer).Some?
    requires L.Replay(rows) == Some([]) || BuildInput(rows, env.cfg, minimal, env.tokenizer).value.tail != []
    ensures var tail := BuildInput(rows, env.cfg, minimal, env.tokenizer).value.tail;
            L.Replay([SummaryRow(summary, at)] + tail) == L.Replay(rows)
  {
    SplitConserves(rows, env.cfg, minimal, env.tokenizer);
    SummaryRowIsTyped(summary, at);
    var input := BuildInput(rows, env.cfg, minimal, env.tokenizer).value;
    L.SummaryFirst(SummaryRow(summary, at), input.tail);
    hide BuildInput, SummaryRow, TypedRow, L.ReplayFrom, TailStandsFor;
    if input.tail != [] {
      L.TailReplays(rows, |input.compacted|, input.tail);
    } else {
      NothingReplays();
    }
  }

  lemma NothingReplays()
    ensures L.Replay([]) == Some([])
  {
  }

  lemma PrefixReplays(before: seq<StoredMessage>, rows: seq<StoredMessage>)
    requires before <= rows && L.Replay(rows).Some?
    ensures L.Replay(before).Some? && L.ReplayFrom(L.Replay(before), rows[|before|..]) == L.Replay(rows)
  {
    assert rows == before + rows[|before|..];
    L.ReplayConcat(Some([]), before, rows[|before|..]);
    L.BrokenStaysBroken(rows[|before|..]);
  }

  /**
   * The summary of rows that left nothing open, or of which some are kept, is committed over whatever the history has
   * become. The linkage holds afterwards exactly if nothing is staged then, or if the commit is skipped.
   */
  lemma CommitKeepsLinkageIff(before: seq<StoredMessage>, now: HistoryState, env: L.Env, minimal: bool, summary: string,
          at: int)
    requires TypedRows(before) && L.Linked(now) && BuildInput(before, env.cfg, minimal, env.tokenizer).Some?
    requires L.Replay(before) == Some([]) || BuildInput(before, env.cfg, minimal, env.tokenizer).value.tail != []
    ensures var tail := BuildInput(before, env.cfg, minimal, env.tokenizer).value.tail;
            var after := AfterCommit(now, before, SummaryRow(summary, at), tail);
            && (L.Linked(after) <==> now.pending == [] || !(before <= now.rows))
            && (before <= now.rows ==> L.Replay(after.rows) == L.Replay(now.rows))
  {
    hide BuildInput, SummaryRow, ToLlmAll, TypedRow, L.ReplayFrom;
    var tail := BuildInput(before, env.cfg, minimal, env.tokenizer).value.tail;
    if before <= now.rows {
      PrefixReplays(before, now.rows);
      TailLeavesTheSame(before, env, minimal, summary, at);
      L.ReplayConcat(Some([]), [SummaryRow(summary, at)] + tail, now.rows[|before|..]);
    }
  }

  // ---------- what the engine installs in the loop ----------

  /** The rows that replace a history the engine has summarised, while `later` were added to it. */
  predicate Installs(h: HistoryState, rows: seq<StoredMessage>, env: L.Env, minimal: bool, summary: string, at: int,
          later: seq<StoredMessage>) {
    var input := BuildInput(h.rows, env.cfg, minimal, env.tokenizer);
    input.Some? && rows == [SummaryRow(summary, at)] + input.value.tail + later
  }

  /** Rows another task has added, with nothing staged when the summary is committed. */
  predicate Grown(later: seq<StoredMessage>) {
    TypedRows(later) && L.Replay(later) == Some([])
  }

  ghost predicate Engine(h: HistoryState, run: Option<CompactionRun>, env: L.Env) {
    run.Some? && run.value.Applied? ==>
      exists minimal: bool, summary: string, at: int, later: seq<StoredMessage> ::
        Installs(h, run.value.rows, env, minimal, summary, at, later) && Grown(later)
  }

  predicate TypedRun(run: Option<CompactionRun>) {
    run.Some? && run.value.Applied? ==> TypedRows(run.value.rows)
  }

  lemma HeadIsTyped(rows: seq<StoredMessage>, env: L.Env, minimal: bool, summary: string, at: int)
    requires TypedRows(rows) && BuildInput(rows, env.cfg, minimal, env.tokenizer).Some?
    ensures TypedRows([SummaryRow(summary, at)] + BuildInput(rows, env.cfg, minimal, env.tokenizer).value.tail)
  {
    SplitConserves(rows, env.cfg, minimal, env.tokenizer);
    SummaryRowIsTyped(summary, at);
    var input := BuildInput(rows, env.cfg, minimal, env.tokenizer).value;
    hide BuildInput, SummaryRow, TypedRow, TailStandsFor;
    L.TailIsTyped(rows, |input.compacted|, input.tail);
    TypedRowsConcat([SummaryRow(summary, at)], input.tail);
  }

  lemma InstalledIsClosed(h: HistoryState, rows: seq<StoredMessage>, env: L.Env, minimal: bool, summary: string,
          at: int, later: seq<StoredMessage>)
    requires L.Good(h) && Closed(h) && Installs(h, rows, env, minimal, summary, at, later) && Grown(later)
    ensures L.Replay(rows) == Some([]) && TypedRows(rows)
  {
    hide BuildInput, SummaryRow, ToLlmAll, TypedRow, L.ReplayFrom;
    var head := [SummaryRow(summary, at)] + BuildInput(h.rows, env.cfg, minimal, env.tokenizer).value.tail;
    TailLeavesTheSame(h.rows, env, minimal, summary, at);
    HeadIsTyped(h.rows, env, minimal, summary, at);
    L.ReplayConcat(Some([]), head, later);
    TypedRowsConcat(head, later);
  }

  /** Over a closed history the engine installs closed rows, those added meanwhile included. */
  lemma EngineIsClosed(h: HistoryState, run: Option<CompactionRun>, env: L.Env)
    requires L.Good(h) && Closed(h) && Engine(h, run, env)
    ensures ClosedRun(run) && TypedRun(run)
  {
    hide Installs, Grown, Closed, L.Good, TypedRows, L.ReplayFrom;
    if run.Some? && run.value.Applied? {
      var minimal: bool, summary: string, at: int, later: seq<StoredMessage> :|
        Installs(h, run.value.rows, env, minimal, summary, at, later) && Grown(later);
      InstalledIsClosed(h, run.value.rows, env, minimal, summary, at, later);
    }
  }

  // ---------- a turn keeps the history well-typed ----------

  lemma CompactedIsGood(s: LoopState, reason: string, run: CompactionRun)
    requires L.Good(s.history) && TypedRun(Some(run))
    ensures L.Good(Compacted(s, reason, run).history)
  {
    hide TypedRows;
  }

  lemma RecoveryIsGood(s: LoopState, run: Option<CompactionRun>)
    requires L.Good(s.history) && TypedRun(run)
    ensures L.Good(Recovery(s, run).0.history)
  {
    if run.Some? {
      CompactedIsGood(s, OVERFLOW_RETRY, run.value);
    }
    hide L.Good, Compacted;
  }

  lemma ReportedIsGood(s: LoopState, message: string, at: int)
    requires L.Good(s.history)
    ensures L.Good(Reported(s, message, at).history)
  {
    L.AssistantIsGood(s.history, ErrorText(message), at, None);
    hide L.Good, AfterAssistant, ErrorText;
  }

  lemma {:induction false} RecordedIsGood(h: HistoryState, outputs: seq<ToolOutput>, n: nat, at: int)
    requires n <= |outputs| && L.Good(h)
    ensures L.Good(Recorded(h, outputs, n, at))
    decreases n
  {
    hide L.Good, AfterOutput, OutputRows;
    if n > 0 {
      RecordedIsGood(h, outputs, n - 1, at);
      var o := outputs[n - 1];
      L.OutputIsGood(Recorded(h, outputs, n - 1, at), o.content, at, o.name, o.facts);
    }
  }

  lemma ProcessedIsGood(s: LoopState, results: Results, at: int, refs: Refs)
    requires L.Good(s.history)
    ensures L.Good(Processed(s, results, at, refs).history)
  {
    RecordedIsGood(s.history, results.outputs, |results.outputs|, at);
    hide L.Good, Recorded, HistoryEvent;
  }

  lemma FailureIsGood(s: LoopState, t: Turn, refs: Refs)
    requires L.Good(s.history)
    ensures L.Good(ToolFailure(s, t, refs).history)
  {
    ReportedIsGood(s, INTERNAL_ERROR, t.at);
    ProcessedIsGood(Reported(s, INTERNAL_ERROR, t.at), t.tools.cleanup, t.at, refs);
    hide L.Good, Reported, Processed;
  }

  lemma ToolTurnIsGood(s: LoopState, t: Turn, refs: Refs)
    requires t.provider.Answers? && L.Good(s.history)
    ensures L.Good(ToolTurn(s, t, refs).history)
  {
    L.ToolTurnIsGood(s.history, t.provider.text, t.at, HistoryCalls(t.provider.calls));
    hide L.Good, L.AfterToolTurn, Processed, ToolFailure, HistoryCall;
    var committed := L.AfterToolTurn(s.history, t.provider.text, t.at, HistoryCalls(t.provider.calls));
    var sent := Emit(s.(history := committed), ToolEvents(t.tools.sent));
    FailureIsGood(sent, t, refs);
    ProcessedIsGood(sent, t.tools.cleanup, t.at, refs);
    ProcessedIsGood(sent, t.tools.awaited, t.at, refs);
    FailureIsGood(Processed(sent, t.tools.awaited, t.at, refs), t, refs);
  }

  lemma AnsweredIsGood(s: LoopState, text: string, at: int, refs: Refs)
    requires L.Good(s.history)
    ensures L.Good(Answered(s, text, at, refs).history)
  {
    var final := if Blank(text) then EmptyAnswerText(s.history.rows) else text;
    L.AssistantIsGood(s.history, final, at, None);
    hide L.Good, AfterAssistant, EmptyAnswerText, Blank, HistoryEvent;
  }

  lemma MalformedIsGood(s: LoopState, e: ReportedError, at: int)
    requires L.Good(s.history)
    ensures L.Good(Malformed(s, e, at).history)
  {
    ApplyIsSound(s.history, Stage([e.callId], false));
    hide Sound, TypedRows, AfterOutput, OutputRows, NonEmptyIds;
    L.OutputIsGood(AfterStage(s.history, [e.callId], false), e.output, at, e.toolName, e.facts);
  }

  lemma OverflowIsGood(s: LoopState, t: Turn)
    requires L.Good(s.history) && TypedRun(t.recovery)
    ensures L.Good(Overflow(s, t).history)
  {
    hide L.Good, Recovery, Reported;
    RecoveryIsGood(s, t.recovery);
    ReportedIsGood(Recovery(s, t.recovery).0, RECOVERY_FAILED, t.at);
  }

  lemma AnswersAreGood(s: LoopState, t: Turn, refs: Refs)
    requires t.provider.Answers? && L.Good(s.history)
    ensures var shown := Emit(s, if t.provider.text == "" then [] else [Message(t.provider.text)]);
            L.Good((if t.provider.calls == [] then Answered(shown, t.provider.text, t.at, refs) else ToolTurn(shown, t, refs)).history)
  {
    hide L.Good, Answered, ToolTurn;
    var shown := Emit(s, if t.provider.text == "" then [] else [Message(t.provider.text)]);
    AnsweredIsGood(shown, t.provider.text, t.at, refs);
    ToolTurnIsGood(shown, t, refs);
  }

  lemma RespondedIsGood(s: LoopState, t: Turn, refs: Refs)
    requires t.provider.Answers? && L.Good(s.history) && TypedRun(t.recovery)
    ensures L.Good(Responded(s, t, refs).history)
  {
    hide L.Good, Recovery, IsEmptyFailed, Answered, ToolTurn, Reported, Emit, TypedRun;
    RecoveryIsGood(s, t.recovery);
    ReportedIsGood(Recovery(s, t.recovery).0, RECOVERY_FAILED, t.at);
    AnswersAreGood(s, t, refs);
    AnswersAreGood(Recovery(s, t.recovery).0, t, refs);
  }

  lemma BeganIsGood(s: LoopState, t: Turn)
    requires L.Good(s.history) && TypedRun(t.mid)
    ensures L.Good(Began(s, t).history)
  {
    if t.mid.Some? {
      CompactedIsGood(s, AUTO_MID, t.mid.value);
    }
    hide L.Good, Compacted;
  }

  lemma TurnIsGood(s: LoopState, t: Turn, refs: Refs)
    requires L.Good(s.history) && TypedRun(t.mid) && TypedRun(t.recovery)
    ensures L.Good(AfterTurn(s, t, refs).history)
  {
    hide L.Good, Began, Overflow, Reported, Responded, IsContextOverflow, Malformed, StreamedEvents, TypedRun;
    BeganIsGood(s, t);
    var heard := Emit(Began(s, t), StreamedEvents(t.streamed));
    OverflowIsGood(heard, t);
    ReportedIsGood(heard, RATE_LIMITED, t.at);
    ReportedIsGood(heard, INTERNAL_ERROR, t.at);
    if t.provider.Answers? {
      RespondedIsGood(heard, t, refs);
      if t.provider.error.Some? {
        ReportedIsGood(heard, t.provider.error.value.sanitized, t.at);
        MalformedIsGood(heard, t.provider.error.value, t.at);
      }
    }
  }

  // ---------- whole runs ----------

  /** Each compaction of the turn is the engine's own, over the history it meets. */
  ghost predicate EngineTurn(s: LoopState, t: Turn, env: L.Env) {
    Engine(s.history, t.mid, env) && Engine(Began(s, t).history, t.recovery, env) && RecordsOutputs(t)
  }

  ghost predicate EngineTurns(h: HistoryState, turns: seq<Turn>, refs: Refs, env: L.Env) {
    forall n :: 0 <= n < |turns| ==> EngineTurn(RunTurns(Begin(h), turns[..n], refs), turns[n], env)
  }

  lemma EngineTurnKeepsLinkage(s: LoopState, t: Turn, refs: Refs, env: L.Env)
    requires L.Good(s.history) && Closed(s.history) && s.phase == Running && EngineTurn(s, t, env)
    ensures L.Good(AfterTurn(s, t, refs).history) && Fine(AfterTurn(s, t, refs))
  {
    hide L.Good, Closed, ClosedRun, TypedRun, Engine, Began, AfterTurn, RecordsOutputs, Fine;
    EngineIsClosed(s.history, t.mid, env);
    BeganIsGood(s, t);
    BeganIsClosed(s, t);
    EngineIsClosed(Began(s, t).history, t.recovery, env);
    TurnIsGood(s, t, refs);
    TurnKeepsLinkage(s, t, refs);
  }

  /**
   * The loop from a closed history, compacting with its own engine before a turn or to recover: rows and staged ids
   * agree throughout, and nothing is staged whenever the loop goes on.
   */
  lemma {:induction false} EngineRunKeepsLinkage(h: HistoryState, turns: seq<Turn>, refs: Refs, env: L.Env)
    requires L.Good(h) && Closed(h) && EngineTurns(h, turns, refs, env)
    ensures var s := RunTurns(Begin(h), turns, refs);
            L.Good(s.history) && L.Linked(s.history) && (s.phase == Running ==> s.history.pending == [])
    decreases |turns|
  {
    hide AfterTurn, EngineTurn, L.Linked, L.Good;
    if turns != [] {
      var front, last := turns[..|turns| - 1], turns[|turns| - 1];
      forall n | 0 <= n < |front|
        ensures EngineTurn(RunTurns(Begin(h), front[..n], refs), front[n], env)
      {
        assert front[..n] == turns[..n];
      }
      EngineRunKeepsLinkage(h, front, refs, env);
      var before := RunTurns(Begin(h), front, refs);
      if before.phase == Running {
        EngineTurnKeepsLinkage(before, last, refs, env);
      }
    }
  }
}
