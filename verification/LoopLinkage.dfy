/** The agent loop and the linkage of calls and outputs: what a run of the loop does to a closed history. */
module LoopLinkage {
  import opened Text
  import opened Messages
  import opened History
  import opened Bridge
  import opened InteractionLoop
  import L = Linkage

  predicate Closed(h: HistoryState) {
    L.Linked(h) && h.pending == []
  }

  /** One output is enough for what is staged: a single call, or a bundle. */
  predicate OneAnswerIsEnough(h: HistoryState) {
    |h.pending| <= 1 || h.consumeAll
  }

  /** A committed tool turn is linked exactly when nothing was open before it; one output then closes it. */
  lemma CommittedTurnIsLinked(h: HistoryState, text: string, at: int, calls: seq<ParsedToolCall>)
    requires L.Linked(h)
    ensures var t := L.AfterToolTurn(h, text, at, HistoryCalls(calls));
            (L.Linked(t) <==> h.pending == []) && |t.pending| == |calls| && OneAnswerIsEnough(t)
  {
    var stored := HistoryCalls(calls);
    forall k | 0 <= k < |stored|
      ensures stored[k].id != ""
    {
      HistoryIdIsTrimmed(calls[k], k);
    }
    hide HistoryCall;
    L.ToolTurnLinkage(h, text, at, stored);
    L.ToolTurnEffect(h, text, at, stored);
    hide NonEmptyIds, ToLlmAll, Replayable, L.Linked;
  }

  lemma OneOutput(h: HistoryState, o: ToolOutput, at: int)
    requires L.Linked(h) && OneAnswerIsEnough(h)
    ensures var t := AfterOutput(h, OutputRows(h, o.content, at, o.name, o.facts));
            Closed(t)
  {
    L.OutputKeepsLinkage(h, o.content, at, o.name, o.facts);
    hide L.Linked, ToLlmAll, RowByRow;
  }

  /** However many outputs are recorded, the linkage holds, and the first one closes the turn. */
  lemma {:induction false} RecordedIsLinked(h: HistoryState, outputs: seq<ToolOutput>, n: nat, at: int)
    requires n <= |outputs| && L.Linked(h) && OneAnswerIsEnough(h)
    ensures var t := Recorded(h, outputs, n, at);
            if n == 0 then t == h else Closed(t)
    decreases n
  {
    hide L.Linked, AfterOutput, OutputRows;
    if n > 0 {
      RecordedIsLinked(h, outputs, n - 1, at);
      OneOutput(Recorded(h, outputs, n - 1, at), outputs[n - 1], at);
    }
  }

  lemma ReportedIsLinked(s: LoopState, message: string, at: int)
    requires L.Linked(s.history)
    ensures L.Linked(Reported(s, message, at).history)
    ensures Reported(s, message, at).history.pending == s.history.pending && Reported(s, message, at).history.consumeAll == s.history.consumeAll
  {
    L.ReplyKeepsLinkage(s.history, ErrorText(message), at);
    hide L.Linked, ErrorText, Replayable, ToLlmAll;
  }

  lemma ProcessedIsLinked(s: LoopState, results: Results, at: int, refs: Refs)
    requires L.Linked(s.history) && OneAnswerIsEnough(s.history)
    ensures var r := Processed(s, results, at, refs).history;
            if results.outputs == [] then r == s.history else Closed(r)
  {
    RecordedIsLinked(s.history, results.outputs, |results.outputs|, at);
    hide Recorded, Closed, L.Linked, HistoryEvent;
  }

  lemma FailureIsLinked(s: LoopState, t: Turn, refs: Refs)
    requires L.Linked(s.history) && OneAnswerIsEnough(s.history)
    ensures L.Linked(ToolFailure(s, t, refs).history)
  {
    ReportedIsLinked(s, INTERNAL_ERROR, t.at);
    ProcessedIsLinked(Reported(s, INTERNAL_ERROR, t.at), t.tools.cleanup, t.at, refs);
    hide Reported, Processed, L.Linked;
  }

  /** The results whose outputs a tool turn without failures records. */
  function ResultsOf(t: Turn): Results
    requires t.provider.Answers?
  {
    if |t.provider.calls| > 1 then t.tools.awaited else t.tools.cleanup
  }

  /** A tool turn keeps the linkage whatever goes wrong, and goes on with a closed history exactly if it recorded something. */
  lemma ToolTurnIsLinked(s: LoopState, t: Turn, refs: Refs)
    requires t.provider.Answers? && t.provider.calls != [] && Closed(s.history) && s.phase == Running
    ensures var r := ToolTurn(s, t, refs);
            && L.Linked(r.history)
            && (r.phase == Running ==> (r.history.pending == [] <==> ResultsOf(t).outputs != []))
  {
    CommittedTurnIsLinked(s.history, t.provider.text, t.at, t.provider.calls);
    hide L.AfterToolTurn, Processed, ToolFailure, L.Linked, HistoryCall;
    var committed := s.(history := L.AfterToolTurn(s.history, t.provider.text, t.at, HistoryCalls(t.provider.calls)));
    var sent := Emit(committed, ToolEvents(t.tools.sent));
    ProcessedIsLinked(sent, t.tools.cleanup, t.at, refs);
    ProcessedIsLinked(sent, t.tools.awaited, t.at, refs);
    FailureIsLinked(sent, t, refs);
    ProcessedPhase(sent, t.tools.cleanup, t.at, refs);
    ProcessedPhase(sent, t.tools.awaited, t.at, refs);
    FailurePhase(sent, t, refs);
    FailurePhase(Processed(sent, t.tools.awaited, t.at, refs), t, refs);
    FailureIsLinked(Processed(sent, t.tools.awaited, t.at, refs), t, refs);
  }

  lemma ProcessedPhase(s: LoopState, results: Results, at: int, refs: Refs)
    ensures Processed(s, results, at, refs).phase == s.phase
    ensures results.outputs == [] ==> Processed(s, results, at, refs).history == s.history
  {
    hide HistoryEvent;
  }

  lemma FailurePhase(s: LoopState, t: Turn, refs: Refs)
    ensures ToolFailure(s, t, refs).phase == Finished
  {
    hide Recorded, HistoryEvent, AfterAssistant;
  }

  /** Replacement rows of a compaction leave nothing open, as those the engine installs over a closed history do. */
  predicate ClosedRun(run: Option<CompactionRun>) {
    run.Some? && run.value.Applied? ==> L.Replay(run.value.rows) == Some([])
  }

  /** No malformed call is reported, and a tool turn records an output. */
  predicate RecordsOutputs(t: Turn) {
    t.provider.Answers? ==>
      && (t.provider.error.Some? && t.provider.error.value.content != "" ==> !t.provider.error.value.recoverable)
      && (t.provider.calls != [] ==> ResultsOf(t).outputs != [])
  }

  predicate KeepsLinkage(t: Turn) {
    ClosedRun(t.mid) && ClosedRun(t.recovery) && RecordsOutputs(t)
  }

  lemma CompactedIsClosed(s: LoopState, reason: string, run: CompactionRun)
    requires Closed(s.history) && ClosedRun(Some(run))
    ensures Closed(Compacted(s, reason, run).history)
  {
    hide L.ReplayFrom, ToLlmAll;
  }

  lemma RecoveryIsClosed(s: LoopState, run: Option<CompactionRun>)
    requires Closed(s.history) && ClosedRun(run)
    ensures Closed(Recovery(s, run).0.history) && Recovery(s, run).0.phase == s.phase
  {
    if run.Some? {
      CompactedIsClosed(s, OVERFLOW_RETRY, run.value);
    }
    hide Closed;
  }

  lemma OverflowIsLinked(s: LoopState, t: Turn)
    requires Closed(s.history) && ClosedRun(t.recovery)
    ensures Closed(Overflow(s, t).history)
  {
    RecoveryIsClosed(s, t.recovery);
    ReportedIsLinked(Recovery(s, t.recovery).0, RECOVERY_FAILED, t.at);
    hide Recovery, Reported, L.Linked;
  }

  lemma AnsweredIsLinked(s: LoopState, text: string, at: int, refs: Refs)
    requires Closed(s.history)
    ensures L.Linked(Answered(s, text, at, refs).history) && Answered(s, text, at, refs).phase == Finished
  {
    var final := if Blank(text) then EmptyAnswerText(s.history.rows) else text;
    L.ReplyKeepsLinkage(s.history, final, at);
    hide EmptyAnswerText, L.Linked, AfterAssistant, Blank, HistoryEvent;
  }

  /** Linked, and closed if the loop goes on. */
  predicate Fine(s: LoopState) {
    L.Linked(s.history) && (s.phase == Running ==> s.history.pending == [])
  }

  lemma ToolTurnIsFine(s: LoopState, t: Turn, refs: Refs)
    requires t.provider.Answers? && t.provider.calls != [] && Closed(s.history) && s.phase == Running && KeepsLinkage(t)
    ensures Fine(ToolTurn(s, t, refs))
  {
    ToolTurnIsLinked(s, t, refs);
    hide ToolTurn, L.Linked;
  }

  lemma FailIsFine(s: LoopState, message: string, at: int)
    requires Closed(s.history)
    ensures Fine(Reported(s, message, at).(phase := Finished))
  {
    ReportedIsLinked(s, message, at);
    hide Reported, L.Linked;
  }

  lemma ResponseIsFine(s: LoopState, t: Turn, refs: Refs)
    requires t.provider.Answers? && Closed(s.history) && s.phase == Running && KeepsLinkage(t)
    ensures Fine(Responded(s, t, refs))
  {
    hide Recovery, L.Linked, IsEmptyFailed, ToolTurn, Answered, Reported, Fine, Closed, KeepsLinkage, Emit;
    KeptRecovery(t);
    RecoveryIsClosed(s, t.recovery);
    AnswersAreFine(s, t, refs);
    AnswersAreFine(Recovery(s, t.recovery).0, t, refs);
    FailIsFine(Recovery(s, t.recovery).0, RECOVERY_FAILED, t.at);
    ClosedIsFine(Recovery(s, t.recovery).0);
  }

  lemma KeptRecovery(t: Turn)
    requires KeepsLinkage(t)
    ensures ClosedRun(t.recovery) && ClosedRun(t.mid)
  {
  }

  lemma ClosedIsFine(s: LoopState)
    requires Closed(s.history)
    ensures Fine(s)
  {
  }

  lemma AnswersAreFine(s: LoopState, t: Turn, refs: Refs)
    requires t.provider.Answers? && Closed(s.history) && s.phase == Running && KeepsLinkage(t)
    ensures var shown := Emit(s, if t.provider.text == "" then [] else [Message(t.provider.text)]);
            Fine(if t.provider.calls == [] then Answered(shown, t.provider.text, t.at, refs) else ToolTurn(shown, t, refs))
  {
    var shown := Emit(s, if t.provider.text == "" then [] else [Message(t.provider.text)]);
    if t.provider.calls == [] {
      AnsweredIsLinked(shown, t.provider.text, t.at, refs);
    } else {
      ToolTurnIsFine(shown, t, refs);
    }
    hide Answered, ToolTurn, L.Linked, KeepsLinkage;
  }

  lemma OverflowIsFine(s: LoopState, t: Turn)
    requires Closed(s.history) && ClosedRun(t.recovery)
    ensures Fine(Overflow(s, t))
  {
    OverflowIsLinked(s, t);
    hide Overflow, L.Linked;
  }

  lemma TurnKeepsLinkage(s: LoopState, t: Turn, refs: Refs)
    requires Closed(s.history) && s.phase == Running && KeepsLinkage(t)
    ensures Fine(AfterTurn(s, t, refs))
  {
    hide Began, Overflow, Reported, Responded, IsContextOverflow, Malformed, Fine, Closed, Emit, ClosedRun, StreamedEvents;
    BeganIsClosed(s, t);
    var heard := Emit(Began(s, t), StreamedEvents(t.streamed));
    OverflowIsFine(heard, t);
    FailIsFine(heard, RATE_LIMITED, t.at);
    FailIsFine(heard, INTERNAL_ERROR, t.at);
    if t.provider.Answers? {
      ResponseIsFine(heard, t, refs);
      if t.provider.error.Some? {
        FailIsFine(heard, t.provider.error.value.sanitized, t.at);
      }
    }
    ClosedIsFine(Began(s, t).(phase := Raised));
  }

  lemma BeganIsClosed(s: LoopState, t: Turn)
    requires Closed(s.history) && ClosedRun(t.mid)
    ensures Closed(Began(s, t).history) && Began(s, t).phase == s.phase
    ensures var heard := Emit(Began(s, t), StreamedEvents(t.streamed)); Closed(heard.history) && heard.phase == s.phase
  {
    if t.mid.Some? {
      CompactedIsClosed(s, AUTO_MID, t.mid.value);
    }
    hide Closed;
  }

  /** Over any turns of this kind the history stays linked, and is closed whenever the loop goes on. */
  lemma {:induction false} RunKeepsLinkage(h: HistoryState, turns: seq<Turn>, refs: Refs)
    requires Closed(h) && forall n :: 0 <= n < |turns| ==> KeepsLinkage(turns[n])
    ensures var s := RunTurns(Begin(h), turns, refs);
            L.Linked(s.history) && (s.phase == Running ==> s.history.pending == [])
  {
    hide AfterTurn, KeepsLinkage, L.Linked;
    if turns != [] {
      RunKeepsLinkage(h, turns[..|turns| - 1], refs);
      var before := RunTurns(Begin(h), turns[..|turns| - 1], refs);
      if before.phase == Running {
        TurnKeepsLinkage(before, turns[|turns| - 1], refs);
      }
    }
  }
}
