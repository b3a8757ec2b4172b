/** What becomes of a turn: for everything the provider and the tools may do, what is told and what is recorded. */
module LoopOutcomes {
  import opened Text
  import opened Messages
  import opened History
  import opened Bridge
  import opened InteractionLoop
  import Checkpoint
  import L = Linkage

  // ---------- how a turn begins ----------

  /** The rows the turn starts from: those of a compaction that was applied, or the ones that are there. */
  function StartRows(s: LoopState, t: Turn): seq<StoredMessage> {
    if s.iteration > 0 && t.mid.Some? && t.mid.value.Applied? then t.mid.value.rows else s.history.rows
  }

  /** What is told before the provider's response is used. */
  function Opening(s: LoopState, t: Turn): seq<Event> {
    (if s.iteration > 0 && t.mid.Some? then [Compaction("auto-mid", t.mid.value.Applied?)] else [])
    + seq(|t.streamed|, k requires 0 <= k < |t.streamed| => Streamed(t.streamed[k]))
  }

  /** The state in which the response is used. */
  function Heard(s: LoopState, t: Turn): LoopState {
    Emit(Began(s, t), StreamedEvents(t.streamed))
  }

  lemma HeardIsStart(s: LoopState, t: Turn)
    ensures var h := Heard(s, t);
            && h.history.rows == StartRows(s, t) && h.events == s.events + Opening(s, t)
            && h.iteration == s.iteration + 1 && h.attempts == s.attempts && h.phase == s.phase
  {
    var streamed := StreamedEvents(t.streamed);
    if s.iteration > 0 && t.mid.Some? {
      assert s.events + [Compaction("auto-mid", t.mid.value.Applied?)] + streamed == s.events + ([Compaction("auto-mid", t.mid.value.Applied?)] + streamed);
    } else {
      assert [] + streamed == streamed;
    }
  }

  // ---------- text that ends the loop ----------

  /** One more assistant row with this text. */
  predicate AddsReply(before: seq<StoredMessage>, after: seq<StoredMessage>, text: string, at: int) {
    after == before + [StoredMessage(Assistant, text, AssistantResponse, at, None, None, None, None, None)]
  }

  /** The announcement of the history, if there is one. */
  function Announced(s: LoopState, refs: Refs): seq<Event> {
    HistoryEvent(s.history, refs)
  }

  /**
   * The history is announced once, with every row as it is stored, under the trimmed conversation and revision; without
   * both of them it is not announced.
   */
  lemma HistoryIsAnnounced(s: LoopState, refs: Refs)
    ensures var told := Announced(s, refs);
            if refs.conversation.None? || refs.revision.None? || AllSpace(refs.conversation.value) || AllSpace(refs.revision.value) then told == []
            else
              var conversation, revision := Strip(refs.conversation.value), Strip(refs.revision.value);
              && |told| == 1 && told[0].ModelHistory?
              && told[0].checkpoint.conversation == conversation && told[0].checkpoint.revision == revision
              && Checkpoint.AllExported(told[0].checkpoint.rows, s.history.rows, conversation, revision)
  {
    if refs.conversation.Some? && refs.revision.Some? {
      BlankIffSpace(refs.conversation.value);
      BlankIffSpace(refs.revision.value);
      hide AllSpace, Strip, Checkpoint.AllExported, Checkpoint.ExportRows;
      var checkpoint := Checkpoint.Export(s.history.rows, refs.conversation, refs.revision, refs.turn);
      if checkpoint.Some? {
        Checkpoint.EveryRowIsExported(s.history.rows, checkpoint.value.conversation, checkpoint.value.revision, checkpoint.value.checkpointId);
      }
    }
  }

  predicate Failed(t: Turn) {
    && t.provider.Answers? && AllSpace(t.provider.text) && t.provider.calls == []
    && Lower(Strip(t.provider.finishReason)) in {"incomplete", "length"}
  }

  /** The provider has answered, and reported no error. */
  predicate Responds(t: Turn) {
    !t.promptFails && t.provider.Answers? && (t.provider.error.None? || t.provider.error.value.content == "")
  }

  lemma FailedIsRead(t: Turn)
    requires t.provider.Answers?
    ensures IsEmptyFailed(t.provider.text, t.provider.calls, t.provider.finishReason) == Failed(t)
  {
    BlankIffSpace(t.provider.text);
    hide AllSpace, Strip, Lower;
  }

  lemma AnsweredAdds(s: LoopState, text: string, at: int, refs: Refs)
    requires !AllSpace(text)
    ensures var r := Answered(s, text, at, refs);
            && r.phase == Finished && AddsReply(s.history.rows, r.history.rows, text, at)
            && r.events == s.events + Announced(r, refs) + [Completion(text)]
  {
    BlankIffSpace(text);
    hide AllSpace, Strip, EmptyAnswerText, HistoryEvent, ToLlmAll;
    assert [] + Announced(Answered(s, text, at, refs), refs) == Announced(Answered(s, text, at, refs), refs);
  }

  /**
   * The provider's answer is what the user is told and what is recorded: a response with text and without calls is
   * shown, becomes the last row, and completes the query.
   */
  lemma AnswerIsTold(s: LoopState, t: Turn, refs: Refs)
    requires s.phase == Running && Responds(t) && t.provider.calls == [] && !AllSpace(t.provider.text)
    ensures var r, text := AfterTurn(s, t, refs), t.provider.text;
            && r.phase == Finished && AddsReply(StartRows(s, t), r.history.rows, text, t.at)
            && r.events == s.events + Opening(s, t) + [Message(text)] + Announced(r, refs) + [Completion(text)]
  {
    FailedIsRead(t);
    HeardIsStart(s, t);
    var heard, text := Heard(s, t), t.provider.text;
    assert text != "";
    var shown := Emit(heard, [Message(text)]);
    AnsweredAdds(shown, text, t.at, refs);
    hide Began, StreamedEvents, Answered, Opening, StartRows, IsEmptyFailed, Failed, AllSpace, Announced, AddsReply;
    assert Responded(heard, t, refs) == Answered(shown, text, t.at, refs);
  }

  /** The run has ended with this answer. */
  predicate EndsWithAnswer(s: LoopState, text: string) {
    && s.phase == Finished
    && s.events != [] && s.events[|s.events| - 1] == Completion(text)
    && s.history.rows != [] && s.history.rows[|s.history.rows| - 1].role == Assistant
    && s.history.rows[|s.history.rows| - 1].content == text
  }

  lemma TurnEndsWithAnswer(s: LoopState, t: Turn, refs: Refs)
    requires s.phase == Running && Responds(t) && t.provider.calls == [] && !AllSpace(t.provider.text)
    ensures EndsWithAnswer(AfterTurn(s, t, refs), t.provider.text)
  {
    AnswerIsTold(s, t, refs);
    hide AfterTurn, Opening, Announced, StartRows, AllSpace, Responds;
  }

  /** Over a run: the first turn that answers ends it with that answer, whatever turns are given after it. */
  lemma {:induction false} RunAnswerIsTold(h: HistoryState, turns: seq<Turn>, more: seq<Turn>, refs: Refs)
    requires turns != [] && RunTurns(Begin(h), turns[..|turns| - 1], refs).phase == Running
    requires var t := turns[|turns| - 1]; Responds(t) && t.provider.calls == [] && !AllSpace(t.provider.text)
    ensures EndsWithAnswer(RunTurns(Begin(h), turns + more, refs), turns[|turns| - 1].provider.text)
    decreases |more|
  {
    hide AfterTurn, AllSpace, EndsWithAnswer;
    if more == [] {
      assert turns + more == turns;
      TurnEndsWithAnswer(RunTurns(Begin(h), turns[..|turns| - 1], refs), turns[|turns| - 1], refs);
    } else {
      RunAnswerIsTold(h, turns, more[..|more| - 1], refs);
      assert (turns + more)[..|turns + more| - 1] == turns + more[..|more| - 1];
      AnswerFinishes(RunTurns(Begin(h), turns + more[..|more| - 1], refs), turns[|turns| - 1].provider.text);
    }
  }

  lemma AnswerFinishes(s: LoopState, text: string)
    requires EndsWithAnswer(s, text)
    ensures s.phase == Finished
  {
  }

  // ---------- a blank answer ----------

  /** Row `k` is the latest tool output that says something. */
  predicate IsLatestOutput(rows: seq<StoredMessage>, k: nat) {
    && k < |rows| && rows[k].messageType == MessageType.ToolOutput && !AllSpace(rows[k].content)
    && forall j :: k < j < |rows| ==> rows[j].messageType != MessageType.ToolOutput || AllSpace(rows[j].content)
  }

  predicate NoOutput(rows: seq<StoredMessage>) {
    forall k :: 0 <= k < |rows| ==> rows[k].messageType != MessageType.ToolOutput || AllSpace(rows[k].content)
  }

  /** The content up to the system context, if there is any, and trimmed. */
  predicate OwnPart(content: string, own: string) {
    || (own == Strip(content) && !Contains(Strip(content), "<system_context>"))
    || (exists k :: 0 <= k < |Strip(content)| && HasAt(Strip(content), "<system_context>", k) && own == Strip(Strip(content)[..k])
          && forall j :: 0 <= j < k ==> !HasAt(Strip(content), "<system_context>", j))
  }

  /** What is shown of the latest tool output. */
  predicate ShownOutput(rows: seq<StoredMessage>, k: nat, own: string) {
    IsLatestOutput(rows, k) && OwnPart(rows[k].content, own)
  }

  lemma ShortIsEmpty(own: string)
    ensures Short(own) == "" <==> own == ""
  {
  }

  /** Up to 600 characters, and otherwise the first 597 and an ellipsis. */
  function Short(text: string): string {
    if |text| <= 600 then text else text[..597] + "..."
  }

  lemma {:induction false} MarkerIsFirst(s: string, k: nat)
    requires k <= |s|
    ensures var at := FindMarker(s, k);
            && (forall j :: k <= j < at ==> !HasAt(s, "<system_context>", j))
            && (at < |s| ==> HasAt(s, "<system_context>", at))
    decreases |s| - k
  {
    hide HasAt;
    if k < |s| && !HasAt(s, "<system_context>", k) {
      MarkerIsFirst(s, k + 1);
    }
  }

  lemma OwnPartIsFound(content: string)
    ensures var s := Strip(content);
            var at := FindMarker(s, 0);
            OwnPart(content, if at < |s| then Strip(s[..at]) else s)
  {
    var s := Strip(content);
    MarkerIsFirst(s, 0);
    var at := FindMarker(s, 0);
    hide Strip, FindMarker;
    if at == |s| {
      assert !HasAt(s, "<system_context>", |s|);
      assert !Contains(s, "<system_context>");
    }
  }

  lemma {:induction false} LastOutputIsLatest(rows: seq<StoredMessage>, n: nat)
    requires n <= |rows|
    ensures if NoOutput(rows[..n]) then LastOutput(rows, n) == ""
            else exists k: nat, own :: ShownOutput(rows[..n], k, own) && LastOutput(rows, n) == Short(own)
    decreases n
  {
    hide ShownOutput, NoOutput, AllSpace, Short;
    if n > 0 {
      var m := rows[n - 1];
      BlankIffSpace(m.content);
      assert rows[..n] == rows[..n - 1] + [m];
      if m.messageType == MessageType.ToolOutput && !AllSpace(m.content) {
        var own := LastIsLatest(rows, n);
      } else {
        LastOutputIsLatest(rows, n - 1);
        LatestStays(rows[..n - 1], m);
      }
    } else {
      NothingNoOutput();
      assert rows[..0] == [];
    }
  }

  lemma NothingNoOutput()
    ensures NoOutput([])
  {
  }

  lemma LastIsLatest(rows: seq<StoredMessage>, n: nat) returns (own: string)
    requires 0 < n <= |rows| && rows[n - 1].messageType == MessageType.ToolOutput && !AllSpace(rows[n - 1].content)
    ensures ShownOutput(rows[..n], n - 1, own) && LastOutput(rows, n) == Short(own) && !NoOutput(rows[..n])
  {
    var content := rows[n - 1].content;
    BlankIffSpace(content);
    OwnPartIsFound(content);
    var at := FindMarker(Strip(content), 0);
    own := if at < |Strip(content)| then Strip(Strip(content)[..at]) else Strip(content);
    hide Strip, FindMarker, OwnPart, AllSpace;
    assert rows[..n][n - 1] == rows[n - 1];
  }

  lemma LatestStays(front: seq<StoredMessage>, m: StoredMessage)
    requires m.messageType != MessageType.ToolOutput || AllSpace(m.content)
    ensures NoOutput(front + [m]) <==> NoOutput(front)
    ensures forall k: nat, own :: ShownOutput(front, k, own) ==> ShownOutput(front + [m], k, own)
  {
    hide AllSpace, OwnPart;
    var all := front + [m];
    assert forall k :: 0 <= k < |front| ==> all[k] == front[k];
    if NoOutput(all) {
      forall k | 0 <= k < |front|
        ensures front[k].messageType != MessageType.ToolOutput || AllSpace(front[k].content)
      {
        assert all[k] == front[k];
      }
    }
  }

  /** What stands in for a blank answer: the latest tool output, or a bare notice. */
  ghost predicate StandsIn(rows: seq<StoredMessage>, text: string) {
    if NoOutput(rows) then text == DONE
    else exists k: nat, own :: ShownOutput(rows, k, own) && text == if own == "" then DONE else DONE_WITH_OUTPUT + Short(own)
  }

  lemma FallbackStandsIn(rows: seq<StoredMessage>)
    ensures StandsIn(rows, EmptyAnswerText(rows))
  {
    LastOutputIsLatest(rows, |rows|);
    assert rows[..|rows|] == rows;
    hide LastOutput, IsLatestOutput, OwnPart, NoOutput, DONE, DONE_WITH_OUTPUT, Short;
    if !NoOutput(rows) {
      var k: nat, own :| ShownOutput(rows, k, own) && LastOutput(rows, |rows|) == Short(own);
      ShortIsEmpty(own);
    }
  }

  lemma AnsweredStandsIn(s: LoopState, text: string, at: int, refs: Refs) returns (final: string)
    requires AllSpace(text)
    ensures StandsIn(s.history.rows, final)
    ensures var r := Answered(s, text, at, refs);
            && r.phase == Finished && AddsReply(s.history.rows, r.history.rows, final, at)
            && r.events == s.events + [Message(final)] + Announced(r, refs) + [Completion(final)]
  {
    BlankIffSpace(text);
    FallbackStandsIn(s.history.rows);
    EmptyAnswerIsVisible(s.history.rows);
    hide AllSpace, Strip, Blank, EmptyAnswerText, HistoryEvent, ToLlmAll, StandsIn;
    final := EmptyAnswerText(s.history.rows);
    var r := Answered(s, text, at, refs);
    assert s.events + ([Message(final)] + Announced(r, refs) + [Completion(final)]) == s.events + [Message(final)] + Announced(r, refs) + [Completion(final)];
  }

  function SaidFirst(text: string): seq<Event> {
    if text == "" then [] else [Message(text)]
  }

  /** A blank response without calls, which the provider finished regularly, is replaced by the latest tool output. */
  lemma BlankAnswerStandsIn(s: LoopState, t: Turn, refs: Refs) returns (final: string)
    requires s.phase == Running && Responds(t) && t.provider.calls == [] && AllSpace(t.provider.text) && !Failed(t)
    ensures StandsIn(StartRows(s, t), final)
    ensures var r := AfterTurn(s, t, refs);
            && r.phase == Finished && AddsReply(StartRows(s, t), r.history.rows, final, t.at)
            && r.events == s.events + Opening(s, t) + SaidFirst(t.provider.text) + [Message(final)] + Announced(r, refs) + [Completion(final)]
  {
    FailedIsRead(t);
    HeardIsStart(s, t);
    var heard, text := Heard(s, t), t.provider.text;
    var shown := Emit(heard, SaidFirst(text));
    hide Began, StreamedEvents, Answered, Opening, StartRows, IsEmptyFailed, Failed, AllSpace, Announced, AddsReply, StandsIn;
    final := AnsweredStandsIn(shown, text, t.at, refs);
    assert Responded(heard, t, refs) == Answered(shown, text, t.at, refs);
  }

  // ---------- errors ----------

  /** One more assistant row that says what went wrong. */
  predicate AddsError(before: seq<StoredMessage>, after: seq<StoredMessage>, message: string, at: int) {
    AddsReply(before, after, "[System Error: " + message + "]", at)
  }

  lemma ReportedAdds(s: LoopState, message: string, at: int)
    ensures var r := Reported(s, message, at);
            && AddsError(s.history.rows, r.history.rows, message, at)
            && r.events == s.events + [ErrorReport(message)] && r.attempts == s.attempts && r.phase == s.phase
  {
    VisibleStartIsNotBlank(ErrorText(message));
    assert Blank(ErrorText(message)) == (Strip(ErrorText(message)) == "") by { BlankIsStripped(ErrorText(message)); }
    hide Strip, Blank, ToLlmAll;
  }

  /** The message mentions, in any case, that the context is too long. */
  predicate MentionsOverflow(message: string) {
    var text := Lower(Strip(message));
    || Contains(text, "context_length_exceeded") || Contains(text, "maximum context length") || Contains(text, "context window")
    || Contains(text, "context length") || Contains(text, "too many tokens") || Contains(text, "input is too long")
    || Contains(text, "token limit")
  }

  lemma OverflowIsMentioned(message: string)
    ensures IsContextOverflow(message) <==> MentionsOverflow(message)
  {
    var text := Lower(Strip(message));
    hide Lower, Strip, Contains;
    assert forall k :: 0 <= k < |OVERFLOW_MARKERS| && Contains(text, OVERFLOW_MARKERS[k]) ==> MentionsOverflow(message);
    assert OVERFLOW_MARKERS[0] == "context_length_exceeded" && OVERFLOW_MARKERS[1] == "maximum context length";
    assert OVERFLOW_MARKERS[2] == "context window" && OVERFLOW_MARKERS[3] == "context length";
    assert OVERFLOW_MARKERS[4] == "too many tokens" && OVERFLOW_MARKERS[5] == "input is too long" && OVERFLOW_MARKERS[6] == "token limit";
  }

  /** The provider gave up because the context is too long. */
  predicate Overflows(t: Turn) {
    && !t.promptFails
    && match t.provider
       case Raises(message) => MentionsOverflow(message)
       case Answers(error, _, _, _) =>
         error.Some? && error.value.content != "" && !error.value.recoverable && MentionsOverflow(error.value.content)
       case _ => false
  }

  /** What the user is told of another error; nothing if there is none or the model is to try again. */
  function Told(t: Turn): Option<string> {
    if t.promptFails then None
    else
      match t.provider
      case RateLimit => Some("Rate limit exceeded. Please wait.")
      case Raises(message) => if MentionsOverflow(message) then None else Some(INTERNAL_ERROR)
      case Answers(error, _, _, _) =>
        if error.None? || error.value.content == "" || error.value.recoverable || MentionsOverflow(error.value.content) then None
        else Some(error.value.sanitized)
  }

  /** Any other error is told, recorded, and ends the loop. */
  lemma ErrorIsTold(s: LoopState, t: Turn, refs: Refs)
    requires s.phase == Running && Told(t).Some?
    ensures var r, message := AfterTurn(s, t, refs), Told(t).value;
            && r.phase == Finished && AddsError(StartRows(s, t), r.history.rows, message, t.at)
            && r.events == s.events + Opening(s, t) + [ErrorReport(message)] && r.attempts == s.attempts
  {
    HeardIsStart(s, t);
    ReportedAdds(Heard(s, t), Told(t).value, t.at);
    if t.provider.Raises? {
      OverflowIsMentioned(t.provider.message);
    } else if t.provider.Answers? {
      OverflowIsMentioned(t.provider.error.value.content);
    }
    hide Began, StreamedEvents, Opening, StartRows, IsContextOverflow, MentionsOverflow, Reported, AddsError, Overflow, Malformed, Responded;
  }

  /** A recovery was still allowed and its compaction was applied. */
  predicate Recovers(s: LoopState, t: Turn) {
    s.attempts == 0 && t.recovery.Some? && t.recovery.value.Applied?
  }

  /** What is told of a recovery that was tried. */
  function Tried(s: LoopState, t: Turn): seq<Event> {
    if s.attempts == 0 && t.recovery.Some? then [Compaction("overflow-retry", t.recovery.value.Applied?)] else []
  }

  lemma RecoveryIsTried(s: LoopState, t: Turn)
    requires s.attempts <= 1
    ensures var r := Recovery(s, t.recovery);
            && (r.1 <==> Recovers(s, t)) && r.0.events == s.events + Tried(s, t)
            && r.0.history.rows == (if Recovers(s, t) then t.recovery.value.rows else s.history.rows)
            && r.0.attempts == s.attempts + (if Recovers(s, t) then 1 else 0) && r.0.phase == s.phase
            && (Recovers(s, t) ==> r.0.history.pending == [])
  {
    assert s.events + [] == s.events;
  }

  /**
   * An overflow is retried once over a compacted history; if that is not possible the user is told, and the loop ends.
   */
  lemma OverflowIsRetriedOnce(s: LoopState, t: Turn, refs: Refs)
    requires s.phase == Running && s.attempts <= 1 && Overflows(t)
    ensures var r := AfterTurn(s, t, refs);
            if Recovers(s, t) then
              && r.phase == Running && r.attempts == 1 && r.history.rows == t.recovery.value.rows && r.history.pending == []
              && r.events == s.events + Opening(s, t) + [Compaction("overflow-retry", true)]
            else
              && r.phase == Finished && r.attempts == s.attempts && AddsError(StartRows(s, t), r.history.rows, RECOVERY_FAILED, t.at)
              && r.events == s.events + Opening(s, t) + Tried(s, t) + [ErrorReport(RECOVERY_FAILED)]
  {
    HeardIsStart(s, t);
    var heard := Heard(s, t);
    RecoveryIsTried(heard, t);
    ReportedAdds(Recovery(heard, t.recovery).0, RECOVERY_FAILED, t.at);
    if t.provider.Raises? {
      OverflowIsMentioned(t.provider.message);
    } else {
      OverflowIsMentioned(t.provider.error.value.content);
    }
    assert AfterTurn(s, t, refs) == Overflow(heard, t) by {
      hide Began, StreamedEvents, IsContextOverflow, MentionsOverflow, Overflow, Opening, StartRows;
    }
    hide Began, StreamedEvents, Opening, StartRows, IsContextOverflow, MentionsOverflow, Reported, AddsError, Recovery, AfterTurn, RECOVERY_FAILED;
  }

  /** An empty response that the provider cut short is retried in the same way, but without a compaction it stands in. */
  lemma FailedResponseIsRetriedOnce(s: LoopState, t: Turn, refs: Refs) returns (final: string)
    requires s.phase == Running && s.attempts <= 1 && Responds(t) && Failed(t)
    ensures !Recovers(s, t) && s.attempts == 0 ==> StandsIn(StartRows(s, t), final)
    ensures var r := AfterTurn(s, t, refs);
            if Recovers(s, t) then
              && r.phase == Running && r.attempts == 1 && r.history.rows == t.recovery.value.rows
              && r.events == s.events + Opening(s, t) + [Compaction("overflow-retry", true)]
            else if s.attempts == 1 then
              && r.phase == Finished && AddsError(StartRows(s, t), r.history.rows, RECOVERY_FAILED, t.at)
              && r.events == s.events + Opening(s, t) + [ErrorReport(RECOVERY_FAILED)]
            else
              && r.phase == Finished && AddsReply(StartRows(s, t), r.history.rows, final, t.at)
              && r.events == s.events + Opening(s, t) + Tried(s, t) + SaidFirst(t.provider.text) + [Message(final)] + Announced(r, refs)
                             + [Completion(final)]
  {
    var heard, text := Heard(s, t), t.provider.text;
    FailedTurn(s, t, refs);
    HeardIsStart(s, t);
    RecoveryIsTried(heard, t);
    var tried := Recovery(heard, t.recovery).0;
    ReportedAdds(tried, RECOVERY_FAILED, t.at);
    hide AfterTurn, Began, StreamedEvents, Opening, StartRows, Reported, AddsError, AddsReply, Recovery, Answered, Failed, AllSpace, Announced,
         StandsIn, RECOVERY_FAILED;
    final := AnsweredStandsIn(Emit(tried, SaidFirst(text)), text, t.at, refs);
    assert heard.events + [] == heard.events;
  }

  lemma FailedTurn(s: LoopState, t: Turn, refs: Refs)
    requires s.phase == Running && Responds(t) && Failed(t)
    ensures AllSpace(t.provider.text)
    ensures var r := Recovery(Heard(s, t), t.recovery);
            AfterTurn(s, t, refs) == if r.1 then r.0
                                     else if r.0.attempts >= 1 then Reported(r.0, RECOVERY_FAILED, t.at).(phase := Finished)
                                     else Answered(Emit(r.0, SaidFirst(t.provider.text)), t.provider.text, t.at, refs)
  {
    FailedIsRead(t);
    assert t.provider.calls == [];
    hide Began, StreamedEvents, Reported, Recovery, Answered, IsEmptyFailed, Failed, AllSpace, RECOVERY_FAILED, Strip, Lower;
  }

  /** A recovery happens exactly after an overflow or an empty response cut short, and never twice in a run. */
  lemma OnlyOverflowRecovers(s: LoopState, t: Turn, refs: Refs)
    requires s.phase == Running && s.attempts <= 1
    ensures AfterTurn(s, t, refs).attempts == s.attempts + if Recovers(s, t) && (Overflows(t) || (Responds(t) && Failed(t))) then 1 else 0
  {
    HeardIsStart(s, t);
    if Overflows(t) {
      OverflowIsRetriedOnce(s, t, refs);
    } else if t.provider.Answers? {
      FailedIsRead(t);
      RecoveryIsTried(Heard(s, t), t);
      if t.provider.error.Some? {
        OverflowIsMentioned(t.provider.error.value.content);
      }
      OthersKeepAttempts(Heard(s, t), t, refs);
    } else if t.provider.Raises? {
      OverflowIsMentioned(t.provider.message);
    }
    hide Began, StreamedEvents, IsContextOverflow, MentionsOverflow, Overflow, Responded, Reported, Malformed, Opening, StartRows,
         Failed, AllSpace, IsEmptyFailed;
    KeepsAttempts(Heard(s, t), t);
  }

  lemma KeepsAttempts(s: LoopState, t: Turn)
    ensures forall message :: Reported(s, message, t.at).attempts == s.attempts
    ensures t.provider.Answers? && t.provider.error.Some? ==> Malformed(s, t.provider.error.value, t.at).attempts == s.attempts
  {
  }

  lemma OthersKeepAttempts(s: LoopState, t: Turn, refs: Refs)
    requires t.provider.Answers? && s.attempts <= 1
    ensures Responded(s, t, refs).attempts == s.attempts + if Failed(t) && Recovers(s, t) then 1 else 0
  {
    FailedIsRead(t);
    RecoveryIsTried(s, t);
    var r := if IsEmptyFailed(t.provider.text, t.provider.calls, t.provider.finishReason) then Recovery(s, t.recovery).0 else s;
    var shown := Emit(r, SaidFirst(t.provider.text));
    AnsweringKeepsAttempts(shown, t, refs);
    KeepsAttempts(r, t);
    hide Failed, IsEmptyFailed, Recovery, ToolTurn, Answered, Reported, AllSpace, Strip, Lower;
  }

  lemma AnsweringKeepsAttempts(s: LoopState, t: Turn, refs: Refs)
    requires t.provider.Answers?
    ensures Answered(s, t.provider.text, t.at, refs).attempts == s.attempts && ToolTurn(s, t, refs).attempts == s.attempts
  {
    hide HistoryEvent, Recorded, L.AfterToolTurn, AfterAssistant, EmptyAnswerText, Blank;
  }

  // ---------- tool turns ----------

  /** An output without a call. */
  function LaterRow(o: ToolOutput, at: int): StoredMessage {
    StoredMessage(User, o.content, MessageType.ToolOutput, at, None, None, None, o.name, o.facts)
  }

  /** The outputs for a call or a bundle: the first answers every call, the others are recorded without one. */
  function OutputRowsFor(ids: seq<string>, outputs: seq<ToolOutput>, at: int): seq<StoredMessage> {
    if outputs == [] then []
    else if |outputs| == 1 then ResultRows(ids, outputs[0].content, at, outputs[0].name, outputs[0].facts)
    else
      var o := outputs[|outputs| - 1];
      OutputRowsFor(ids, outputs[..|outputs| - 1], at) + [LaterRow(o, at)]
  }

  /** What is staged is one call, or a bundle. */
  predicate Stands(h: HistoryState) {
    h.pending != [] && (|h.pending| == 1 || h.consumeAll)
  }

  lemma RecordedStep(h: HistoryState, outputs: seq<ToolOutput>, n: nat, at: int)
    requires 0 < n <= |outputs|
    ensures var before, o := Recorded(h, outputs, n - 1, at), outputs[n - 1];
            Recorded(h, outputs, n, at) == AfterOutput(before, OutputRows(before, o.content, at, o.name, o.facts))
    ensures Recorded(h, outputs, 0, at) == h
  {
    hide AfterOutput, OutputRows;
  }

  lemma OutputRowsStep(ids: seq<string>, outputs: seq<ToolOutput>, n: nat, at: int)
    requires 0 < n <= |outputs|
    ensures OutputRowsFor(ids, outputs[..n], at) ==
      if n == 1 then ResultRows(ids, outputs[0].content, at, outputs[0].name, outputs[0].facts)
      else OutputRowsFor(ids, outputs[..n - 1], at) + [LaterRow(outputs[n - 1], at)]
  {
    assert outputs[..n][..n - 1] == outputs[..n - 1];
  }

  lemma {:induction false} RecordedRows(h: HistoryState, outputs: seq<ToolOutput>, n: nat, at: int)
    requires Stands(h) && n <= |outputs|
    ensures var r := Recorded(h, outputs, n, at);
            && r.rows == h.rows + OutputRowsFor(h.pending, outputs[..n], at)
            && (n == 0 ==> r == h) && (n > 0 ==> r.pending == [])
    decreases n
  {
    hide Recorded, AfterOutput, OutputRows, OutputRowsFor, Stands, LaterRow;
    if n == 0 {
      assert outputs[..0] == [];
      NothingFor(h.pending, at);
      NothingRecorded(h, outputs, at);
      assert h.rows + [] == h.rows;
    } else {
      RecordedRows(h, outputs, n - 1, at);
      RecordedStep(h, outputs, n, at);
      OutputRowsStep(h.pending, outputs, n, at);
      if n == 1 {
        FirstOutput(h, outputs[0], at);
      } else {
        LaterOutput(Recorded(h, outputs, n - 1, at), outputs[n - 1], at);
      }
    }
  }

  lemma NothingRecorded(h: HistoryState, outputs: seq<ToolOutput>, at: int)
    ensures Recorded(h, outputs, 0, at) == h
  {
  }

  lemma NothingFor(ids: seq<string>, at: int)
    ensures OutputRowsFor(ids, [], at) == []
  {
  }

  lemma FirstOutput(h: HistoryState, o: ToolOutput, at: int)
    requires Stands(h)
    ensures var r := AfterOutput(h, OutputRows(h, o.content, at, o.name, o.facts));
            r.rows == h.rows + ResultRows(h.pending, o.content, at, o.name, o.facts) && r.pending == []
  {
    hide ToLlmAll, RowByRow;
    assert NextIds(h.pending, h.consumeAll) == h.pending;
  }

  lemma LaterOutput(h: HistoryState, o: ToolOutput, at: int)
    requires h.pending == []
    ensures var r := AfterOutput(h, OutputRows(h, o.content, at, o.name, o.facts));
            r.rows == h.rows + [LaterRow(o, at)] && r.pending == []
  {
    hide ToLlmAll, RowByRow;
  }

  /** The rows for outputs, each with the content of its output. */
  function RowsFor(open: seq<string>, outputs: seq<ToolOutput>, at: int): seq<StoredMessage> {
    if open != [] then OutputRowsFor(open, outputs, at) else Unlinked(outputs, at)
  }

  function Unlinked(outputs: seq<ToolOutput>, at: int): (rows: seq<StoredMessage>)
    ensures |rows| == |outputs| && forall k :: 0 <= k < |outputs| ==> rows[k] == LaterRow(outputs[k], at)
  {
    seq(|outputs|, k requires 0 <= k < |outputs| => LaterRow(outputs[k], at))
  }

  lemma {:induction false} UnlinkedRows(h: HistoryState, outputs: seq<ToolOutput>, n: nat, at: int)
    requires h.pending == [] && n <= |outputs|
    ensures var r := Recorded(h, outputs, n, at); r.rows == h.rows + Unlinked(outputs[..n], at) && r.pending == []
    decreases n
  {
    hide Recorded, AfterOutput, OutputRows, LaterRow;
    if n == 0 {
      NothingRecorded(h, outputs, at);
      assert h.rows + Unlinked(outputs[..0], at) == h.rows;
    } else {
      UnlinkedRows(h, outputs, n - 1, at);
      RecordedStep(h, outputs, n, at);
      LaterOutput(Recorded(h, outputs, n - 1, at), outputs[n - 1], at);
      assert Unlinked(outputs[..n], at) == Unlinked(outputs[..n - 1], at) + [LaterRow(outputs[n - 1], at)];
    }
  }

  /** What is staged can be answered by one output, or nothing is staged. */
  predicate AnsweredAtOnce(h: HistoryState) {
    h.pending == [] || Stands(h)
  }

  lemma ProcessedRows(s: LoopState, results: Results, at: int, refs: Refs)
    requires AnsweredAtOnce(s.history)
    ensures var r := Processed(s, results, at, refs);
            && r.history.rows == s.history.rows + RowsFor(s.history.pending, results.outputs, at)
            && r.events == s.events + (if results.fails then [] else Announced(r, refs))
            && r.phase == s.phase && r.attempts == s.attempts
            && r.history.pending == (if results.outputs == [] then s.history.pending else [])
            && (results.outputs == [] ==> r.history == s.history)
  {
    var n := |results.outputs|;
    assert results.outputs[..n] == results.outputs;
    hide HistoryEvent, OutputRowsFor, Stands;
    if s.history.pending == [] {
      UnlinkedRows(s.history, results.outputs, n, at);
    } else {
      RecordedRows(s.history, results.outputs, n, at);
    }
    assert n == 0 ==> Recorded(s.history, results.outputs, n, at) == s.history;
    hide Recorded;
  }

  /** The assistant row of a tool turn: the response's text, and its calls as they are stored. */
  predicate CallRow(row: StoredMessage, t: Turn)
    requires t.provider.Answers?
  {
    && row == StoredMessage(Assistant, t.provider.text, AssistantResponse, t.at, None, row.toolCalls, None, None, None)
    && row.toolCalls.Some? && |row.toolCalls.value| == |t.provider.calls|
    && forall k :: 0 <= k < |t.provider.calls| ==> row.toolCalls.value[k] == HistoryCall(t.provider.calls[k], k)
  }

  /** The ids of the stored calls, in order. */
  function StoredIds(t: Turn): (ids: seq<string>)
    requires t.provider.Answers?
    ensures |ids| == |t.provider.calls|
  {
    seq(|t.provider.calls|, k requires 0 <= k < |t.provider.calls| => HistoryCall(t.provider.calls[k], k).id)
  }

  lemma CallRowIsBuilt(t: Turn)
    requires t.provider.Answers?
    ensures CallRow(AssistantRow(t.provider.text, t.at, Some(HistoryCalls(t.provider.calls))), t)
    ensures CallIds(HistoryCalls(t.provider.calls)) == StoredIds(t)
  {
    hide HistoryCall;
  }

  lemma CommittedRows(h: HistoryState, t: Turn) returns (row: StoredMessage)
    requires t.provider.Answers? && t.provider.calls != []
    ensures CallRow(row, t)
    ensures var r := L.AfterToolTurn(h, t.provider.text, t.at, HistoryCalls(t.provider.calls));
            r.rows == h.rows + [row] && r.pending == StoredIds(t) && Stands(r)
  {
    var calls := HistoryCalls(t.provider.calls);
    row := AssistantRow(t.provider.text, t.at, Some(calls));
    CallRowIsBuilt(t);
    CallsAreWellFormed(t);
    hide HistoryCall, CallRow, HistoryCalls, StoredIds, ToLlmAll, Replayable, L.AfterToolTurn, CallIds;
    L.ToolTurnEffect(h, t.provider.text, t.at, calls);
    StagedAsABundle(h, t.provider.text, t.at, calls);
  }

  lemma CallsAreWellFormed(t: Turn)
    requires t.provider.Answers?
    ensures |HistoryCalls(t.provider.calls)| == |t.provider.calls|
    ensures L.WellFormed(L.ToolTurn(t.provider.text, t.at, HistoryCalls(t.provider.calls)))
  {
    var calls := HistoryCalls(t.provider.calls);
    forall k | 0 <= k < |calls|
      ensures calls[k].id != ""
    {
      HistoryIdIsTrimmed(t.provider.calls[k], k);
    }
    hide HistoryCall;
  }

  lemma StagedAsABundle(h: HistoryState, text: string, at: int, calls: seq<ToolCall>)
    requires calls != []
    ensures var r := L.AfterToolTurn(h, text, at, calls);
            r.rows == h.rows + [AssistantRow(text, at, Some(calls))] && (r.pending != [] && |calls| > 1 ==> r.consumeAll)
  {
    hide ToLlmAll, Blank;
  }

  function ToolsTold(t: Turn): seq<Event> {
    seq(|t.tools.sent|, k requires 0 <= k < |t.tools.sent| => ToolEvent(t.tools.sent[k]))
  }

  lemma RowsForStaged(ids: seq<string>, outputs: seq<ToolOutput>, at: int)
    ensures ids != [] ==> RowsFor(ids, outputs, at) == OutputRowsFor(ids, outputs, at)
  {
    hide OutputRowsFor;
  }

  /** The response is shown, its calls are committed and sent; then the outputs are dealt with. */
  lemma CallsAreSent(s: LoopState, t: Turn, refs: Refs) returns (sent: LoopState, row: StoredMessage)
    requires s.phase == Running && Responds(t) && t.provider.calls != []
    ensures CallRow(row, t) && sent.phase == Running && sent.attempts == s.attempts
    ensures sent.history.rows == StartRows(s, t) + [row] && sent.history.pending == StoredIds(t) && Stands(sent.history)
    ensures sent.events == s.events + Opening(s, t) + SaidFirst(t.provider.text) + ToolsTold(t)
    ensures var awaited := Processed(sent, t.tools.awaited, t.at, refs);
            AfterTurn(s, t, refs) == if t.tools.sendFails then ToolFailure(sent, t, refs)
                                     else if |t.provider.calls| == 1 then Processed(sent, t.tools.cleanup, t.at, refs)
                                     else if t.tools.awaited.fails then ToolFailure(awaited, t, refs)
                                     else awaited
  {
    HeardIsStart(s, t);
    FailedIsRead(t);
    var heard, text := Heard(s, t), t.provider.text;
    var shown := Emit(heard, SaidFirst(text));
    row := CommittedRows(shown.history, t);
    sent := Emit(shown.(history := L.AfterToolTurn(shown.history, text, t.at, HistoryCalls(t.provider.calls))), ToolEvents(t.tools.sent));
    assert ToolEvents(t.tools.sent) == ToolsTold(t);
    assert |HistoryCalls(t.provider.calls)| == |t.provider.calls|;
    hide Began, StreamedEvents, Opening, StartRows, Processed, L.AfterToolTurn, HistoryCalls, StoredIds, CallRow, Stands, AllSpace,
         IsEmptyFailed, ToolFailure, ToolEvents, ToolsTold;
    assert !Failed(t);
    assert Responded(heard, t, refs) == ToolTurn(shown, t, refs);
  }

  /**
   * A tool turn that goes well: the response is shown, its calls are committed, and the outputs of a bundle, or else
   * those of the cleanup, are recorded word for word; the loop goes on.
   */
  lemma ToolsAreRecorded(s: LoopState, t: Turn, refs: Refs) returns (row: StoredMessage)
    requires s.phase == Running && Responds(t) && t.provider.calls != [] && !t.tools.sendFails
    requires |t.provider.calls| > 1 ==> !t.tools.awaited.fails
    ensures CallRow(row, t)
    ensures var r := AfterTurn(s, t, refs);
            var results := if |t.provider.calls| > 1 then t.tools.awaited else t.tools.cleanup;
            && r.phase == Running && r.attempts == s.attempts
            && r.history.rows == StartRows(s, t) + [row] + OutputRowsFor(StoredIds(t), results.outputs, t.at)
            && r.events == s.events + Opening(s, t) + SaidFirst(t.provider.text) + ToolsTold(t)
                           + (if results.fails then [] else Announced(r, refs))
  {
    var sent;
    hide AfterTurn, Opening, StartRows, Processed, Announced, OutputRowsFor, StoredIds, CallRow, ToolsTold, ToolFailure;
    sent, row := CallsAreSent(s, t, refs);
    var results := if |t.provider.calls| > 1 then t.tools.awaited else t.tools.cleanup;
    ProcessedRows(sent, results, t.at, refs);
    RowsForStaged(StoredIds(t), results.outputs, t.at);
    hide RowsFor;
  }

  /**
   * A tool turn that fails to send, or whose bundle fails: the error is told and recorded before the cleanup records
   * its outputs, and the loop ends.
   */
  lemma ToolFailureIsTold(s: LoopState, t: Turn, refs: Refs) returns (row: StoredMessage, error: StoredMessage)
    requires s.phase == Running && Responds(t) && t.provider.calls != []
    requires t.tools.sendFails || (|t.provider.calls| > 1 && t.tools.awaited.fails)
    ensures CallRow(row, t) && AddsError([], [error], INTERNAL_ERROR, t.at)
    ensures var r := AfterTurn(s, t, refs);
            var awaited := if t.tools.sendFails then [] else t.tools.awaited.outputs;
            && r.phase == Finished && r.attempts == s.attempts
            && r.history.rows == StartRows(s, t) + [row] + OutputRowsFor(StoredIds(t), awaited, t.at) + [error]
                                 + RowsFor(if awaited == [] then StoredIds(t) else [], t.tools.cleanup.outputs, t.at)
            && r.events == s.events + Opening(s, t) + SaidFirst(t.provider.text) + ToolsTold(t) + [ErrorReport(INTERNAL_ERROR)]
                           + (if t.tools.cleanup.fails then [] else Announced(r, refs))
  {
    var sent;
    hide AfterTurn, Opening, StartRows, Processed, Announced, OutputRowsFor, RowsFor, StoredIds, CallRow, ToolsTold, ToolFailure,
         AddsError, INTERNAL_ERROR;
    sent, row := CallsAreSent(s, t, refs);
    NothingFor(StoredIds(t), t.at);
    assert StartRows(s, t) + [row] + [] == StartRows(s, t) + [row];
    if t.tools.sendFails {
      error := FailureRows(sent, t, refs);
    } else {
      ProcessedRows(sent, t.tools.awaited, t.at, refs);
      RowsForStaged(StoredIds(t), t.tools.awaited.outputs, t.at);
      assert sent.events + [] == sent.events;
      error := FailureRows(Processed(sent, t.tools.awaited, t.at, refs), t, refs);
    }
  }

  lemma FailureRows(s: LoopState, t: Turn, refs: Refs) returns (error: StoredMessage)
    requires AnsweredAtOnce(s.history)
    ensures AddsError([], [error], INTERNAL_ERROR, t.at)
    ensures var r := ToolFailure(s, t, refs);
            && r.phase == Finished && r.attempts == s.attempts
            && r.history.rows == s.history.rows + [error] + RowsFor(s.history.pending, t.tools.cleanup.outputs, t.at)
            && r.events == s.events + [ErrorReport(INTERNAL_ERROR)] + (if t.tools.cleanup.fails then [] else Announced(r, refs))
  {
    var reported := Reported(s, INTERNAL_ERROR, t.at);
    ReportedAdds(s, INTERNAL_ERROR, t.at);
    ReportedKeepsStaged(s, INTERNAL_ERROR, t.at);
    error := reported.history.rows[|s.history.rows|];
    hide Reported, RowsFor, Announced, ErrorText, INTERNAL_ERROR;
    ProcessedRows(reported, t.tools.cleanup, t.at, refs);
    hide Processed;
  }

  lemma ReportedKeepsStaged(s: LoopState, message: string, at: int)
    ensures var r := Reported(s, message, at); r.history.pending == s.history.pending && r.history.consumeAll == s.history.consumeAll
  {
    hide ToLlmAll, Replayable;
  }

  // ---------- the remaining outcomes ----------

  /** A malformed call is answered by an output for its own id, and the model goes on. */
  lemma MalformedCallIsAnswered(s: LoopState, t: Turn, refs: Refs)
    requires s.phase == Running && !t.promptFails && t.provider.Answers? && t.provider.error.Some?
    requires t.provider.error.value.content != "" && t.provider.error.value.recoverable && t.provider.error.value.callId != ""
    ensures var r, e := AfterTurn(s, t, refs), t.provider.error.value;
            && r.phase == Running && r.attempts == s.attempts && r.history.pending == []
            && r.history.rows == StartRows(s, t)
                                 + [StoredMessage(Tool, e.output, MessageType.ToolOutput, t.at, None, None, Some(e.callId), e.toolName, e.facts)]
            && r.events == s.events + Opening(s, t) + [ToolEvent(e.callId), ToolEvent(e.output)]
  {
    HeardIsStart(s, t);
    var heard, e := Heard(s, t), t.provider.error.value;
    MalformedRows(heard, e, t.at);
    hide Began, StreamedEvents, Opening, StartRows, Malformed, IsContextOverflow;
  }

  lemma MalformedRows(s: LoopState, e: ReportedError, at: int)
    requires e.callId != ""
    ensures var r := Malformed(s, e, at);
            && r.phase == s.phase && r.attempts == s.attempts && r.history.pending == []
            && r.history.rows == s.history.rows
                                 + [StoredMessage(Tool, e.output, MessageType.ToolOutput, at, None, None, Some(e.callId), e.toolName, e.facts)]
            && r.events == s.events + [ToolEvent(e.callId), ToolEvent(e.output)]
  {
    hide ToLlmAll, RowByRow;
    assert [e.callId][..0] == [];
    assert NonEmptyIds([]) == [];
    assert NonEmptyIds([e.callId]) == [e.callId];
  }

  /** A turn whose prompt cannot be built ends the run with an exception, and nothing more is told or recorded. */
  lemma PromptFailureIsRaised(s: LoopState, t: Turn, refs: Refs)
    requires s.phase == Running && t.promptFails
    ensures var r := AfterTurn(s, t, refs);
            && r.phase == Raised && r.history.rows == StartRows(s, t) && r.attempts == s.attempts
            && r.events == s.events + if s.iteration > 0 && t.mid.Some? then [Compaction("auto-mid", t.mid.value.Applied?)] else []
  {
    assert s.events + [] == s.events;
  }

  /** Every turn is one of those above. */
  lemma EveryTurnIsCovered(t: Turn)
    ensures t.promptFails || Told(t).Some? || Overflows(t) || Responds(t)
            || (t.provider.Answers? && t.provider.error.Some? && t.provider.error.value.content != "" && t.provider.error.value.recoverable)
  {
    hide MentionsOverflow;
  }
}
