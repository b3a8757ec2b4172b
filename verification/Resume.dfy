/** Taking a conversation up again: its stored rows, sent back as a transcript, are replayed. */
module Resume {
  import opened Text
  import opened Messages
  import opened History
  import opened Compaction
  import opened Linkage
  import opened Matching
  import FreshIds
  import HistoryRuns
  import R = Rehydrate

  // ---------- a history as a transcript ----------

  function TypeName(t: MessageType): string {
    match t
    case UserQuery => "user_query"
    case ToolOutput => "tool_output"
    case AssistantResponse => "assistant_response"
    case ContextCompaction => "context_compaction"
  }

  function SentCalls(calls: seq<ToolCall>): seq<R.RawCall> {
    if calls == [] then []
    else [R.RawCall(Some(calls[0].id), calls[0].name, calls[0].arguments, calls[0].thoughtSignature)] + SentCalls(calls[1..])
  }

  function SentRow(m: StoredMessage): R.Entry {
    var role := match m.role case Tool => R.FromTool case Assistant => R.FromAssistant case _ => R.FromUser;
    R.Entry(role, m.content, Some(TypeName(m.messageType)), m.toolName, None, m.toolCallId, [],
            SentCalls(if m.toolCalls.Some? then m.toolCalls.value else []))
  }

  function Transcript(rows: seq<StoredMessage>): (entries: seq<R.Entry>)
    ensures |entries| == |rows| && forall k :: 0 <= k < |rows| ==> entries[k] == SentRow(rows[k])
  {
    seq(|rows|, k requires 0 <= k < |rows| => SentRow(rows[k]))
  }

  // ---------- rows the history writes ----------

  /** An id as the bridge makes it. */
  predicate GoodId(id: string) {
    id != "" && Trimmed(id)
  }

  predicate GoodIds(ids: seq<string>) {
    forall k :: 0 <= k < |ids| ==> GoodId(ids[k])
  }

  /** The name of a tool, and not of an internal bundle. */
  predicate ToolName(name: Option<string>) {
    var n := NormalizeOptional(name);
    n.None? || R.Dashed(Lower(n.value)) !in {"tool-bundle", "bundled-tools"}
  }

  predicate OwnRow(m: StoredMessage) {
    && ToolName(m.toolName)
    && match m.role
       case Tool => m.messageType == ToolOutput && m.toolCallId.Some? && GoodId(m.toolCallId.value)
       case User => (m.messageType == UserQuery || m.messageType == ToolOutput) && m.toolCallId.None?
       case Assistant => (m.messageType == AssistantResponse || m.messageType == ContextCompaction) && GoodIds(CallIds(Calls(m)))
       case System => false
  }

  predicate OwnRows(rows: seq<StoredMessage>) {
    forall k :: 0 <= k < |rows| ==> OwnRow(rows[k])
  }

  /** A tool output that was recorded with nothing staged. */
  predicate Unlinked(m: StoredMessage) {
    m.role == User && m.messageType == ToolOutput
  }

  predicate NothingUnlinked(rows: seq<StoredMessage>) {
    forall k :: 0 <= k < |rows| ==> !Unlinked(rows[k])
  }

  /** What such a row means to the replay. */
  function Meaning(m: StoredMessage): R.Row {
    if m.role == Tool then R.Output(m.toolCallId)
    else if Unlinked(m) then R.Output(None)
    else if Calls(m) != [] then R.Issues(CallIds(Calls(m)))
    else R.Inert
  }

  lemma TypeNamesAreTrimmed(t: MessageType)
    ensures Strip(TypeName(t)) == TypeName(t)
  {
    TrimmedIsFixed(TypeName(t));
    hide Strip;
  }

  lemma TypeNamesAreLower(t: MessageType)
    ensures Lower(TypeName(t)) == TypeName(t)
  {
    assert forall k :: 0 <= k < |TypeName(t)| ==> !('A' <= TypeName(t)[k] <= 'Z');
    hide TypeName;
  }

  lemma OneSentCall(calls: seq<ToolCall>, index: nat)
    requires calls != [] && GoodId(calls[0].id)
    ensures var rest := R.NormalizeCalls(SentCalls(calls[1..]), index + 1);
            var sent := R.NormalizeCalls(SentCalls(calls), index);
            |sent| == 1 + |rest| && sent[0].id == calls[0].id && sent[1..] == rest
  {
    TrimmedIsFixed(calls[0].id);
    hide Strip, Digits;
    assert SentCalls(calls)[1..] == SentCalls(calls[1..]);
  }

  lemma {:induction false} SentCallsKeepIds(calls: seq<ToolCall>, index: nat)
    requires forall k :: 0 <= k < |calls| ==> GoodId(calls[k].id)
    ensures CallIds(R.NormalizeCalls(SentCalls(calls), index)) == CallIds(calls)
    decreases |calls|
  {
    hide GoodId, R.NormalizeCalls, SentCalls;
    if calls == [] {
      SentNothing(index);
    } else {
      SentCallsKeepIds(calls[1..], index + 1);
      OneSentCall(calls, index);
      var sent := R.NormalizeCalls(SentCalls(calls), index);
      assert CallIds(sent) == [sent[0].id] + CallIds(sent[1..]);
      assert CallIds(calls) == [calls[0].id] + CallIds(calls[1..]);
    }
  }

  lemma SentTypeIsStored(m: StoredMessage)
    ensures R.StoredType(SentRow(m)) == Some(m.messageType) && R.TypeText(SentRow(m)) == TypeName(m.messageType)
  {
    hide Strip, Lower;
    TypeNamesAreTrimmed(m.messageType);
    TypeNamesAreLower(m.messageType);
  }

  lemma RowMeans(m: StoredMessage)
    requires OwnRow(m)
    ensures R.RowOf(SentRow(m)) == Meaning(m)
  {
    SentTypeIsStored(m);
    hide R.StoredType, R.TypeText, Strip, SentCalls;
    if m.role == Tool {
      TrimmedIsFixed(m.toolCallId.value);
    } else if m.role == Assistant {
      NoStructuredCalls(SentRow(m));
      if Calls(m) != [] {
        assert forall k :: 0 <= k < |Calls(m)| ==> GoodId(CallIds(Calls(m))[k]);
        SentCallsKeepIds(Calls(m), 0);
        assert |R.NormalizeCalls(SentCalls(Calls(m)))| == |Calls(m)|;
      } else {
        SentNothing(0);
      }
    }
    hide R.NormalizeCalls;
  }

  lemma NoStructuredCalls(e: R.Entry)
    requires e.structuredCalls == []
    ensures R.EntryCalls(e) == R.NormalizeCalls(e.toolCalls)
  {
  }

  lemma SentNothing(index: nat)
    ensures R.NormalizeCalls(SentCalls([]), index) == []
  {
  }

  function Meanings(rows: seq<StoredMessage>): (out: seq<R.Row>)
    ensures |out| == |rows| && forall k :: 0 <= k < |rows| ==> out[k] == Meaning(rows[k])
  {
    seq(|rows|, k requires 0 <= k < |rows| => Meaning(rows[k]))
  }

  lemma TranscriptMeans(rows: seq<StoredMessage>)
    requires OwnRows(rows)
    ensures R.Rows(Transcript(rows)) == Meanings(rows)
  {
    hide R.RowOf, Meaning, OwnRow;
    forall k | 0 <= k < |rows|
      ensures R.Rows(Transcript(rows))[k] == Meanings(rows)[k]
    {
      RowMeans(rows[k]);
    }
  }

  // ---------- the replay beside the queue of open calls ----------

  lemma {:induction false} WithoutIsOther(ids: seq<string>, id: string, x: string)
    requires R.Distinct(ids) && x in R.Without(ids, id)
    ensures x in ids && x != id
  {
    if ids[0] == id {
      assert x in ids[1..];
    } else if x != ids[0] {
      WithoutIsOther(ids[1..], id, x);
    }
  }

  lemma {:induction false} RegisteredIsGiven(link: R.Link, ids: seq<string>, n: nat, x: string)
    requires n <= |ids|
    ensures x in R.RegisterFirst(link, ids, n).pending ==> x in link.pending || x in ids
    decreases n
  {
    if n > 0 {
      RegisteredIsGiven(link, ids, n - 1, x);
    }
  }

  lemma {:induction false} RegisteredInOrder(known: set<string>, ids: seq<string>, n: nat)
    requires n <= |ids| && R.Distinct(ids) && GoodIds(ids)
    ensures R.RegisterFirst(R.Link(known, []), ids, n).pending == ids[..n]
    decreases n
  {
    if n > 0 {
      RegisteredInOrder(known, ids, n - 1);
      assert ids[..n] == ids[..n - 1] + [ids[n - 1]];
      assert GoodId(ids[n - 1]);
    }
  }

  /** What the replay still waits for is open, and what is open it knows. */
  predicate Covers(link: R.Link, open: seq<string>) {
    && (forall k :: 0 <= k < |link.pending| ==> link.pending[k] in open)
    && (forall k :: 0 <= k < |open| ==> open[k] in link.known)
  }

  lemma IssueCovers(link: R.Link, ids: seq<string>)
    requires Covers(link, []) && GoodIds(ids)
    ensures Covers(R.RegisterFirst(link, ids, |ids|), ids)
  {
    var after := R.RegisterFirst(link, ids, |ids|);
    forall k | 0 <= k < |after.pending|
      ensures after.pending[k] in ids
    {
      RegisteredIsGiven(link, ids, |ids|, after.pending[k]);
    }
    forall k | 0 <= k < |ids|
      ensures ids[k] in after.known
    {
      R.RegisterFirstKnows(link, ids, |ids|, ids[k]);
      assert GoodId(ids[k]) && ids[..|ids|] == ids;
    }
  }

  lemma AnswerCovers(link: R.Link, open: seq<string>)
    requires Covers(link, open) && open != [] && R.Distinct(link.pending)
    ensures Covers(link.(pending := R.Without(link.pending, open[0])), open[1..])
  {
    var rest := R.Without(link.pending, open[0]);
    forall k | 0 <= k < |rest|
      ensures rest[k] in open[1..]
    {
      WithoutIsOther(link.pending, open[0], rest[k]);
    }
  }

  lemma RowCovers(link: R.Link, open: seq<string>, m: StoredMessage)
    requires OwnRow(m) && Covers(link, open) && R.Distinct(link.pending) && Next(Some(open), m).Some?
    ensures R.Rejects(link, Meaning(m)) <==> Unlinked(m)
    ensures Covers(R.After(link, Meaning(m)), Next(Some(open), m).value)
  {
    hide R.RegisterFirst, R.Without;
    if m.role == Tool {
      AnswerCovers(link, open);
    } else if Calls(m) != [] {
      IssueCovers(link, CallIds(Calls(m)));
    }
  }

  lemma {:induction false} ReplayCovers(rows: seq<StoredMessage>, n: nat)
    requires OwnRows(rows) && n <= |rows| && OpenAt(rows, |rows|).Some?
    ensures OpenAt(rows, n).Some? && Covers(R.Scan(Meanings(rows), n), OpenAt(rows, n).value)
    decreases n
  {
    hide OwnRow, Meaning, Covers, Next, R.Rejects, R.After;
    OpenAtPrefix(rows, n, |rows|);
    if n > 0 {
      ReplayCovers(rows, n - 1);
      R.PendingIsKnown(Meanings(rows), n - 1);
      RowCovers(R.Scan(Meanings(rows), n - 1), OpenAt(rows, n - 1).value, rows[n - 1]);
    } else {
      NothingCovered();
    }
  }

  lemma RejectedIffUnlinked(rows: seq<StoredMessage>, k: nat)
    requires OwnRows(rows) && k < |rows| && OpenAt(rows, |rows|).Some?
    ensures R.Rejects(R.Scan(Meanings(rows), k), Meanings(rows)[k]) <==> Unlinked(rows[k])
  {
    hide OwnRow, Meaning, Covers, Next, R.Rejects, R.After, R.Scan;
    OpenAtPrefix(rows, k + 1, |rows|);
    ReplayCovers(rows, k);
    R.PendingIsKnown(Meanings(rows), k);
    RowCovers(R.Scan(Meanings(rows), k), OpenAt(rows, k).value, rows[k]);
  }

  lemma NothingCovered()
    ensures Covers(R.UNLINKED, [])
  {
  }

  /** No row issues an id twice. */
  predicate DistinctTurns(rows: seq<StoredMessage>) {
    forall k :: 0 <= k < |rows| ==> R.Distinct(CallIds(Calls(rows[k])))
  }

  lemma RowKeepsQueue(link: R.Link, m: StoredMessage)
    requires OwnRow(m) && R.Distinct(CallIds(Calls(m))) && Next(Some(link.pending), m).Some?
    ensures R.After(link, Meaning(m)).pending == Next(Some(link.pending), m).value
  {
    hide R.RegisterFirst;
    if m.role != Tool && Calls(m) != [] {
      var ids := CallIds(Calls(m));
      RegisteredInOrder(link.known, ids, |ids|);
      assert ids[..|ids|] == ids;
    }
  }

  lemma {:induction false} ReplayKeepsQueue(rows: seq<StoredMessage>, n: nat)
    requires OwnRows(rows) && DistinctTurns(rows) && n <= |rows| && OpenAt(rows, |rows|).Some?
    ensures OpenAt(rows, n) == Some(R.Scan(Meanings(rows), n).pending)
    decreases n
  {
    hide OwnRow, Meaning, Next, R.After;
    OpenAtPrefix(rows, n, |rows|);
    if n > 0 {
      ReplayKeepsQueue(rows, n - 1);
      RowKeepsQueue(R.Scan(Meanings(rows), n - 1), rows[n - 1]);
    }
  }

  lemma AcceptedIffNothingUnlinked(rows: seq<StoredMessage>)
    requires OwnRows(rows) && OpenAt(rows, |rows|).Some?
    ensures R.Accepted(Meanings(rows)) <==> NothingUnlinked(rows) && R.Scan(Meanings(rows), |rows|).pending == []
  {
    forall k | 0 <= k < |rows|
      ensures R.Rejects(R.Scan(Meanings(rows), k), Meanings(rows)[k]) <==> Unlinked(rows[k])
    {
      RejectedIffUnlinked(rows, k);
    }
    hide OwnRows, Meaning, R.Rejects, R.Scan, Unlinked, OpenAt;
  }

  lemma ClosedWaitsForNothing(rows: seq<StoredMessage>)
    requires OwnRows(rows) && OpenAt(rows, |rows|) == Some([])
    ensures R.Scan(Meanings(rows), |rows|).pending == []
  {
    ReplayCovers(rows, |rows|);
    hide OwnRows, Meaning, R.Scan, OpenAt;
  }

  /**
   * A history that closes is accepted exactly if no output was recorded without a call; one that leaves calls open
   * never is, unless a turn has issued an id twice.
   */
  lemma LinkedIsAcceptedIff(rows: seq<StoredMessage>)
    requires OwnRows(rows) && Replay(rows).Some?
    ensures var sent := R.Rows(Transcript(rows));
            && (Replay(rows) == Some([]) ==> (R.Accepted(sent) <==> NothingUnlinked(rows)))
            && (DistinctTurns(rows) ==> (R.Accepted(sent) <==> Replay(rows) == Some([]) && NothingUnlinked(rows)))
  {
    hide OwnRows, Meanings, Transcript, R.Rows, R.Accepted, R.Scan, NothingUnlinked, DistinctTurns, ReplayFrom, OpenAt;
    TranscriptMeans(rows);
    OpenAtIsReplay(rows, |rows|);
    assert rows[..|rows|] == rows;
    AcceptedIffNothingUnlinked(rows);
    if Replay(rows) == Some([]) {
      ClosedWaitsForNothing(rows);
    }
    if DistinctTurns(rows) {
      ReplayKeepsQueue(rows, |rows|);
    }
  }

  // ---------- whole runs ----------

  /** What the bridge and the tool names give: trimmed ids, and no internal bundle name. */
  predicate OwnStep(step: Step) {
    match step
    case ToolTurn(_, _, calls) => GoodIds(CallIds(calls))
    case Output(_, _, name, _) => ToolName(name)
    case RecoverableError(id, _, _, name, _) => GoodId(id) && ToolName(name)
    case _ => true
  }

  predicate OwnHistory(s: HistoryState) {
    OwnRows(s.rows) && GoodIds(s.pending)
  }

  lemma OwnRowsConcat(a: seq<StoredMessage>, b: seq<StoredMessage>)
    requires OwnRows(a) && OwnRows(b)
    ensures OwnRows(a + b)
  {
    hide OwnRow;
  }

  lemma OwnOutput(s: HistoryState, content: string, at: int, name: Option<string>, facts: Option<map<string, string>>)
    requires OwnHistory(s) && ToolName(name)
    ensures OwnHistory(AfterOutput(s, OutputRows(s, content, at, name, facts)))
  {
    hide ToLlmAll, RowByRow, ToolName, Trimmed;
    OwnRowsConcat(s.rows, OutputRows(s, content, at, name, facts));
  }

  lemma OwnCancel(s: HistoryState, content: string, at: int)
    requires OwnHistory(s)
    ensures OwnHistory(AfterCancel(s, content, at))
  {
    hide ToLlmAll, Trimmed;
    OwnRowsConcat(s.rows, ResultRows(s.pending, content, at, None, None));
  }

  lemma OwnToolTurn(s: HistoryState, text: string, at: int, calls: seq<ToolCall>)
    requires OwnHistory(s) && GoodIds(CallIds(calls))
    ensures OwnHistory(AfterToolTurn(s, text, at, calls))
  {
    hide ToLlmAll, Blank, Trimmed;
    var row := AssistantRow(text, at, Some(calls));
    HistoryRuns.NonEmptyIdsAreNonEmpty(CallIds(calls));
    assert OwnRow(row);
    OwnRowsConcat(s.rows, [row]);
  }

  lemma OwnReply(s: HistoryState, text: string, at: int)
    requires OwnHistory(s)
    ensures OwnHistory(AfterAssistant(s, AssistantRow(text, at, None)))
  {
    hide ToLlmAll, Blank, Trimmed;
    OwnRowsConcat(s.rows, [AssistantRow(text, at, None)]);
  }

  lemma OwnTail(rows: seq<StoredMessage>, n: nat, tail: seq<StoredMessage>)
    requires OwnRows(rows) && n <= |rows| && TailStandsFor(tail, rows[n..])
    ensures OwnRows(tail)
  {
    hide ToolName, GoodId;
    forall k | 0 <= k < |tail|
      ensures OwnRow(tail[k])
    {
      assert OwnRow(rows[n + k]) && rows[n..][k] == rows[n + k];
    }
  }

  lemma OwnCompaction(s: HistoryState, env: Env, allowMinimal: bool, summary: string, at: int)
    requires OwnHistory(s)
    ensures OwnHistory(Take(s, CompactNow(allowMinimal, summary, at), env))
  {
    hide ToLlmAll, Trimmed, OwnRow, GoodId;
    var built := BuildInput(s.rows, env.cfg, allowMinimal, env.tokenizer);
    if built.Some? {
      SplitConserves(s.rows, env.cfg, allowMinimal, env.tokenizer);
      hide BuildInput;
      CommitOverSame(s, SummaryRow(summary, at), built.value.tail);
      OwnTail(s.rows, |built.value.compacted|, built.value.tail);
      OwnSummary(summary, at);
      OwnRowsConcat([SummaryRow(summary, at)], built.value.tail);
    }
  }

  lemma OwnSummary(summary: string, at: int)
    ensures OwnRow(SummaryRow(summary, at))
  {
  }

  lemma StepKeepsOwn(s: HistoryState, step: Step, env: Env)
    requires OwnHistory(s) && OwnStep(step)
    ensures OwnHistory(Take(s, step, env))
  {
    match step
    case UserMessage(content, at, refs) =>
      OwnRowsConcat(s.rows, [UserRow(content, at, refs)]);
    case ToolTurn(text, at, calls) =>
      OwnToolTurn(s, text, at, calls);
      hide OwnHistory, AfterToolTurn;
    case Reply(text, at) =>
      OwnReply(s, text, at);
      hide OwnHistory, AfterAssistant;
    case Output(content, at, name, facts) =>
      OwnOutput(s, content, at, name, facts);
      hide OwnHistory, AfterOutput, OutputRows;
    case CancelPending(content, at) =>
      OwnCancel(s, content, at);
      hide OwnHistory, AfterCancel;
    case CountTokens(_) =>
    case CompactNow(allowMinimal, summary, at) =>
      OwnCompaction(s, env, allowMinimal, summary, at);
      hide OwnHistory, Take;
    case ClearAll =>
    case RecoverableError(id, content, at, name, facts) =>
      OwnStaged(s, id);
      OwnOutput(AfterStage(s, [id], false), content, at, name, facts);
      hide OwnHistory, AfterOutput, OutputRows, AfterStage;
  }

  lemma OwnStaged(s: HistoryState, id: string)
    requires OwnHistory(s) && GoodId(id)
    ensures OwnHistory(AfterStage(s, [id], false))
  {
    hide OwnRow, Trimmed, NonEmptyIds;
    HistoryRuns.NonEmptyIdsAreNonEmpty([id]);
    assert NonEmptyIds([id]) == [id];
  }

  lemma {:induction false} OwnInEveryRun(prompt: Option<string>, steps: seq<Step>, env: Env)
    requires forall n :: 0 <= n < |steps| ==> OwnStep(steps[n])
    ensures OwnHistory(TakeAll(Initial(prompt), steps, env))
  {
    hide Take, OwnStep;
    if steps != [] {
      OwnInEveryRun(prompt, steps[..|steps| - 1], env);
      hide OwnHistory;
      StepKeepsOwn(TakeAll(Initial(prompt), steps[..|steps| - 1], env), steps[|steps| - 1], env);
    }
  }

  /**
   * After a safe run the conversation can be resumed from its own rows exactly if nothing is staged and no output was
   * recorded without a call.
   */
  lemma ResumedIffClosed(prompt: Option<string>, steps: seq<Step>, env: Env)
    requires SafeRun(Initial(prompt), steps, env) && forall n :: 0 <= n < |steps| ==> OwnStep(steps[n])
    ensures var s := TakeAll(Initial(prompt), steps, env);
            var sent := R.Rows(Transcript(s.rows));
            && (s.pending == [] ==> (R.Accepted(sent) <==> NothingUnlinked(s.rows)))
            && (DistinctTurns(s.rows) ==> (R.Accepted(sent) <==> s.pending == [] && NothingUnlinked(s.rows)))
  {
    hide TakeAll, SafeRun, OwnStep, Good, Transcript, R.Rows, R.Accepted, NothingUnlinked, DistinctTurns, ReplayFrom;
    LinkedInEverySafeRun(prompt, steps, env);
    OwnInEveryRun(prompt, steps, env);
    LinkedIsAcceptedIff(TakeAll(Initial(prompt), steps, env).rows);
  }

  /** One call and two outputs for it: the second is recorded without a call. */
  function TwoOutputs(): seq<Step> {
    [ToolTurn("", 0, [ToolCall("a", "search", "", "")]), Output("first", 1, None, None), Output("second", 2, None, None)]
  }

  /** A safe run with nothing staged whose rows the replay turns away. */
  lemma SecondOutputIsTurnedAway(env: Env)
    ensures var s := TakeAll(Initial(None), TwoOutputs(), env);
            && SafeRun(Initial(None), TwoOutputs(), env) && s.pending == []
            && !R.Accepted(R.Rows(Transcript(s.rows)))
  {
    TwoOutputsRun(env);
    TwoOutputsAreOwn();
    var s := TakeAll(Initial(None), TwoOutputs(), env);
    hide TakeAll, SafeRun, OwnStep, Transcript, R.Rows, R.Accepted, DistinctTurns, TwoOutputs;
    assert Unlinked(s.rows[2]);
    ResumedIffClosed(None, TwoOutputs(), env);
  }

  lemma TwoOutputsAreOwn()
    ensures forall n :: 0 <= n < |TwoOutputs()| ==> OwnStep(TwoOutputs()[n])
  {
    assert CallIds([ToolCall("a", "search", "", "")]) == ["a"];
  }

  lemma TwoOutputsRun(env: Env)
    ensures SafeRun(Initial(None), TwoOutputs(), env)
    ensures var s := TakeAll(Initial(None), TwoOutputs(), env);
            s.pending == [] && |s.rows| == 3 && s.rows[2] == UnlinkedOutputRow("second", 2, None, None)
  {
    var all := TwoOutputs();
    assert all[..0] == [] && all[..3] == all;
    assert TakeAll(Initial(None), [], env) == Initial(None);
    hide TakeAll;
    FreshIds.OneMoreStep(Initial(None), all, env, 0);
    FreshIds.OneMoreStep(Initial(None), all, env, 1);
    FreshIds.OneMoreStep(Initial(None), all, env, 2);
    CallIsStaged(env);
    hide ToLlmAll, Blank;
  }

  lemma CallIsStaged(env: Env)
    ensures var s := Take(Initial(None), TwoOutputs()[0], env); s.pending == ["a"] && |s.rows| == 1
  {
    hide ToLlmAll, Blank;
    var ids := CallIds([ToolCall("a", "search", "", "")]);
    assert ids == ["a"];
    HistoryRuns.NonEmptyIdsAreNonEmpty(ids);
  }
}
