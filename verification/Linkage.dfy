/**
 * Tool calls and their outputs. Reading a history row by row as a queue of open calls gives back exactly the ids
 * that are staged, so whenever nothing is staged calls and role=tool rows are matched one to one.
 */
module Linkage {
  import opened Text
  import opened Messages
  import opened Tokens
  import opened History
  import opened HistoryRuns
  import opened Compaction

  // ---------- reading a history as a queue of open calls ----------

  /** The open calls after one more row; `None` once a row breaks the linkage. */
  function Next(open: Option<seq<string>>, m: StoredMessage): Option<seq<string>> {
    if open.None? then None
    else
      match m.role
      case Tool => if open.value != [] && m.toolCallId == Some(open.value[0]) then Some(open.value[1..]) else None
      case User => if open.value == [] then open else None
      case _ =>
        if Calls(m) == [] then open
        else if open.value == [] then Some(CallIds(Calls(m))) else None
  }

  function ReplayFrom(open: Option<seq<string>>, rows: seq<StoredMessage>): Option<seq<string>> {
    if rows == [] then open else Next(ReplayFrom(open, rows[..|rows| - 1]), rows[|rows| - 1])
  }

  function Replay(rows: seq<StoredMessage>): Option<seq<string>> {
    ReplayFrom(Some([]), rows)
  }

  /** What the rows leave open is what is staged. */
  predicate Linked(s: HistoryState) {
    Replay(s.rows) == Some(s.pending)
  }

  lemma {:induction false} ReplayConcat(open: Option<seq<string>>, a: seq<StoredMessage>, b: seq<StoredMessage>)
    ensures ReplayFrom(open, a + b) == ReplayFrom(ReplayFrom(open, a), b)
  {
    if b == [] {
      assert a + b == a;
    } else {
      assert (a + b)[..|a + b| - 1] == a + b[..|b| - 1];
      ReplayConcat(open, a, b[..|b| - 1]);
    }
  }

  lemma ReplayAppend(open: Option<seq<string>>, rows: seq<StoredMessage>, m: StoredMessage)
    ensures ReplayFrom(open, rows + [m]) == Next(ReplayFrom(open, rows), m)
  {
    assert (rows + [m])[..|rows + [m]| - 1] == rows;
  }

  /** A broken history stays broken whatever is appended. */
  lemma {:induction false} BrokenStaysBroken(rows: seq<StoredMessage>)
    ensures ReplayFrom(None, rows) == None
  {
    if rows != [] {
      BrokenStaysBroken(rows[..|rows| - 1]);
    }
  }

  lemma ReplayRow(rows: seq<StoredMessage>, n: nat)
    requires n < |rows|
    ensures Replay(rows[..n + 1]) == Next(Replay(rows[..n]), rows[n])
  {
    assert rows[..n + 1] == rows[..n] + [rows[n]];
    ReplayAppend(Some([]), rows[..n], rows[n]);
  }

  /** Outputs for the first ids of the queue close them in order. */
  lemma {:induction false} ResultsClose(ids: seq<string>, rest: seq<string>, content: string, at: int,
          name: Option<string>, facts: Option<map<string, string>>)
    ensures ReplayFrom(Some(ids + rest), ResultRows(ids, content, at, name, facts)) == Some(rest)
  {
    if ids == [] {
      assert ids + rest == rest;
    } else {
      var front, last := ids[..|ids| - 1], ids[|ids| - 1];
      assert ids + rest == front + ([last] + rest);
      ResultsClose(front, [last] + rest, content, at, name, facts);
      var rows := ResultRows(ids, content, at, name, facts);
      assert rows[..|rows| - 1] == ResultRows(front, content, at, name, facts);
    }
  }

  // ---------- steps of a conversation ----------

  datatype Env = Env(cfg: Config, tokenizer: Tokenizer)

  datatype Step =
    | UserMessage(content: string, at: int, imageRefs: Option<seq<string>>)
    | ToolTurn(text: string, at: int, calls: seq<ToolCall>)
    | Reply(text: string, at: int)
    | Output(content: string, at: int, name: Option<string>, facts: Option<map<string, string>>)
    | CancelPending(content: string, at: int)
    | CountTokens(model: string)
    | CompactNow(allowMinimal: bool, summary: string, at: int)
    | ClearAll
    | RecoverableError(id: string, content: string, at: int, name: Option<string>, facts: Option<map<string, string>>)

  /** Commits an assistant tool turn and stages its ids; a bundle is answered as a whole. */
  function AfterToolTurn(s: HistoryState, text: string, at: int, calls: seq<ToolCall>): HistoryState {
    AfterStage(AfterAssistant(s, AssistantRow(text, at, Some(calls))), CallIds(calls), |calls| > 1)
  }

  function Take(s: HistoryState, step: Step, env: Env): HistoryState {
    match step
    case UserMessage(content, at, refs) => AfterUser(s, UserRow(content, at, refs))
    case ToolTurn(text, at, calls) => AfterToolTurn(s, text, at, calls)
    case Reply(text, at) => AfterAssistant(s, AssistantRow(text, at, None))
    case Output(content, at, name, facts) => AfterOutput(s, OutputRows(s, content, at, name, facts))
    case CancelPending(content, at) => AfterCancel(s, content, at)
    case CountTokens(model) => AfterCount(s, model)
    case CompactNow(allowMinimal, summary, at) =>
      (match BuildInput(s.rows, env.cfg, allowMinimal, env.tokenizer)
       case None => s
       case Some(input) => AfterCommit(s, s.rows, SummaryRow(summary, at), input.tail))
    case ClearAll => AfterReplace(s, [])
    case RecoverableError(id, content, at, name, facts) =>
      var staged := AfterStage(s, [id], false);
      AfterOutput(staged, OutputRows(staged, content, at, name, facts))
  }

  function TakeAll(s: HistoryState, steps: seq<Step>, env: Env): HistoryState {
    if steps == [] then s else Take(TakeAll(s, steps[..|steps| - 1], env), steps[|steps| - 1], env)
  }

  /** Call ids are never empty once they have been through the bridge. */
  predicate WellFormed(step: Step) {
    && (step.ToolTurn? ==> forall k :: 0 <= k < |step.calls| ==> step.calls[k].id != "")
    && (step.RecoverableError? ==> step.id != "")
  }

  /** What a caller can check before a step to know that it keeps the linkage. */
  predicate Safe(s: HistoryState, step: Step, env: Env) {
    match step
    case UserMessage(_, _, _) => s.pending == []
    case ToolTurn(_, _, _) => s.pending == []
    case CompactNow(allowMinimal, _, _) =>
      var input := BuildInput(s.rows, env.cfg, allowMinimal, env.tokenizer);
      s.pending == [] || input.None? || input.value.tail == []
    case RecoverableError(id, _, _, _, _) => s.pending == [id]
    case _ => true
  }

  predicate Good(s: HistoryState) {
    Sound(s) && TypedRows(s.rows)
  }

  lemma ReplacedIsGood(s: HistoryState, row: StoredMessage, tail: seq<StoredMessage>)
    requires TypedRow(row) && TypedRows(tail)
    ensures Good(AfterCommit(s, s.rows, row, tail))
  {
    hide TypedRow;
    CommitOverSame(s, row, tail);
    TypedRowsConcat([row], tail);
  }

  lemma CompactionIsGood(s: HistoryState, env: Env, allowMinimal: bool, summary: string, at: int)
    requires Good(s)
    ensures Good(Take(s, CompactNow(allowMinimal, summary, at), env))
  {
    hide ToLlmAll, Replayable, AfterCommit;
    var built := BuildInput(s.rows, env.cfg, allowMinimal, env.tokenizer);
    if built.Some? {
      SplitConserves(s.rows, env.cfg, allowMinimal, env.tokenizer);
      hide BuildInput, SummaryRow, TypedRow;
      SummaryRowIsTyped(summary, at);
      TailIsTyped(s.rows, |built.value.compacted|, built.value.tail);
      ReplacedIsGood(s, SummaryRow(summary, at), built.value.tail);
    }
  }

  lemma TailIsTyped(rows: seq<StoredMessage>, n: nat, tail: seq<StoredMessage>)
    requires TypedRows(rows) && n <= |rows| && TailStandsFor(tail, rows[n..])
    requires tail != [] ==> tail[0].role == User
    ensures TypedRows(tail)
  {
    hide Replayable;
    var kept := rows[n..];
    forall k | 0 <= k < |tail|
      ensures TypedRow(tail[k])
    {
      assert TypedRow(rows[n + k]);
      assert kept[k] == rows[n + k];
    }
  }

  lemma CommitOverSame(s: HistoryState, row: StoredMessage, tail: seq<StoredMessage>)
    ensures AfterCommit(s, s.rows, row, tail) == AfterReplace(s, [row] + tail)
  {
    assert [row] + tail + s.rows[|s.rows|..] == [row] + tail;
  }

  lemma StepIsGood(s: HistoryState, step: Step, env: Env)
    requires Good(s)
    ensures Good(Take(s, step, env))
  {
    match step
    case UserMessage(content, at, refs) =>
      UserMessageIsGood(s, content, at, refs);
      hide Good, AfterUser;
    case ToolTurn(text, at, calls) =>
      ToolTurnIsGood(s, text, at, calls);
      hide Good, AfterToolTurn;
    case Reply(text, at) =>
      AssistantIsGood(s, text, at, None);
      hide Good, AfterAssistant;
    case Output(content, at, name, facts) =>
      OutputIsGood(s, content, at, name, facts);
      hide Good, AfterOutput, OutputRows;
    case CancelPending(content, at) =>
      CancelIsGood(s, content, at);
      hide Good, AfterCancel;
    case CountTokens(model) => ApplyIsSound(s, HistoryRuns.Count(model));
    case CompactNow(allowMinimal, summary, at) =>
      CompactionIsGood(s, env, allowMinimal, summary, at);
      hide Good, Take;
    case ClearAll =>
    case RecoverableError(id, content, at, name, facts) =>
      ApplyIsSound(s, Stage([id], false));
      OutputIsGood(AfterStage(s, [id], false), content, at, name, facts);
      hide Sound, AfterOutput, OutputRows;
  }

  lemma UserMessageIsGood(s: HistoryState, content: string, at: int, refs: Option<seq<string>>)
    requires Good(s)
    ensures Good(AfterUser(s, UserRow(content, at, refs)))
  {
    hide ToLlmAll, Replayable;
    ApplyIsSound(s, AddUser(content, at, refs));
    TypedRowsConcat(s.rows, [UserRow(content, at, refs)]);
  }

  lemma AssistantIsGood(s: HistoryState, text: string, at: int, calls: Option<seq<ToolCall>>)
    requires Good(s)
    ensures Good(AfterAssistant(s, AssistantRow(text, at, calls)))
  {
    hide ToLlmAll, Replayable;
    ApplyIsSound(s, AddAssistant(text, at, calls));
    if Replayable(text, calls) {
      TypedRowsConcat(s.rows, [AssistantRow(text, at, calls)]);
    }
  }

  lemma ToolTurnIsGood(s: HistoryState, text: string, at: int, calls: seq<ToolCall>)
    requires Good(s)
    ensures Good(AfterToolTurn(s, text, at, calls))
  {
    AssistantIsGood(s, text, at, Some(calls));
    hide ToLlmAll, TypedRows, AfterAssistant;
    ApplyIsSound(AfterAssistant(s, AssistantRow(text, at, Some(calls))), Stage(CallIds(calls), |calls| > 1));
  }

  lemma CancelIsGood(s: HistoryState, content: string, at: int)
    requires Good(s)
    ensures Good(AfterCancel(s, content, at))
  {
    hide ToLlmAll, Replayable;
    ApplyIsSound(s, HistoryRuns.Cancel(content, at));
    TypedRowsConcat(s.rows, ResultRows(s.pending, content, at, None, None));
  }

  lemma OutputIsGood(s: HistoryState, content: string, at: int, name: Option<string>,
          facts: Option<map<string, string>>)
    requires Good(s)
    ensures Good(AfterOutput(s, OutputRows(s, content, at, name, facts)))
  {
    hide ToLlmAll;
    ApplyIsSound(s, AddOutput(content, at, name, facts));
    TypedRowsConcat(s.rows, OutputRows(s, content, at, name, facts));
  }

  /** Adding one row and setting what is staged keeps the linkage when the row accounts for the change. */
  lemma RowAdded(s: HistoryState, t: HistoryState, row: StoredMessage)
    requires Linked(s) && t.rows == s.rows + [row]
    ensures Linked(t) <==> Next(Some(s.pending), row) == Some(t.pending)
  {
    ReplayAppend(Some([]), s.rows, row);
  }

  lemma OutputKeepsLinkage(s: HistoryState, content: string, at: int, name: Option<string>,
          facts: Option<map<string, string>>)
    requires Linked(s)
    ensures Linked(AfterOutput(s, OutputRows(s, content, at, name, facts)))
  {
    hide ToLlmAll;
    var rows := OutputRows(s, content, at, name, facts);
    ReplayConcat(Some([]), s.rows, rows);
    if s.pending == [] {
      SingleRow(Some([]), rows[0]);
    } else {
      var ids := NextIds(s.pending, s.consumeAll);
      assert s.pending == ids + s.pending[|ids|..];
      ResultsClose(ids, s.pending[|ids|..], content, at, name, facts);
    }
  }

  lemma ToolTurnEffect(s: HistoryState, text: string, at: int, calls: seq<ToolCall>)
    requires WellFormed(ToolTurn(text, at, calls))
    ensures var t := AfterToolTurn(s, text, at, calls);
            && t.pending == CallIds(calls)
            && (t.rows == s.rows + [AssistantRow(text, at, Some(calls))] || (t.rows == s.rows && calls == []))
  {
    hide ToLlmAll, Blank;
    NonEmptyIdsAreNonEmpty(CallIds(calls));
  }

  lemma ToolTurnLinkage(s: HistoryState, text: string, at: int, calls: seq<ToolCall>)
    requires Linked(s) && WellFormed(ToolTurn(text, at, calls))
    ensures Linked(AfterToolTurn(s, text, at, calls)) <==> s.pending == []
  {
    ToolTurnEffect(s, text, at, calls);
    var t := AfterToolTurn(s, text, at, calls);
    hide AfterToolTurn;
    if t.rows != s.rows {
      RowAdded(s, t, AssistantRow(text, at, Some(calls)));
    }
  }

  /** A turn can only start when nothing is open. */
  lemma UserRowNeedsClosed(open: Option<seq<string>>, rows: seq<StoredMessage>)
    requires rows != [] && rows[0].role == User && ReplayFrom(open, rows).Some?
    ensures open == Some([])
  {
    assert rows == [rows[0]] + rows[1..];
    ReplayConcat(open, [rows[0]], rows[1..]);
    SingleRow(open, rows[0]);
    BrokenStaysBroken(rows[1..]);
  }

  lemma SingleRow(open: Option<seq<string>>, m: StoredMessage)
    ensures ReplayFrom(open, [m]) == Next(open, m)
  {
    assert [m][..0] == [];
  }

  /** A tail that starts a turn leaves open what the whole history leaves open. */
  lemma TailReplays(rows: seq<StoredMessage>, n: nat, tail: seq<StoredMessage>)
    requires n <= |rows| && Replay(rows).Some? && TailStandsFor(tail, rows[n..])
    requires tail != [] && tail[0].role == User
    ensures Replay(tail) == Replay(rows)
  {
    KeptReplays(rows, n);
    if tail != rows[n..] {
      SingleRow(Some([]), tail[0]);
      SingleRow(Some([]), rows[n]);
      assert rows[n..] == [rows[n]] && tail == [tail[0]];
    }
  }

  lemma KeptReplays(rows: seq<StoredMessage>, n: nat)
    requires n < |rows| && Replay(rows).Some? && rows[n].role == User
    ensures Replay(rows[n..]) == Replay(rows)
  {
    ReplayConcat(Some([]), rows[..n], rows[n..]);
    assert rows == rows[..n] + rows[n..];
    UserRowNeedsClosed(Replay(rows[..n]), rows[n..]);
  }

  lemma SummaryFirst(row: StoredMessage, tail: seq<StoredMessage>)
    requires row.role == Assistant && Calls(row) == []
    ensures Replay([row] + tail) == Replay(tail)
  {
    ReplayConcat(Some([]), [row], tail);
    SingleRow(Some([]), row);
  }

  lemma CompactionLinkage(s: HistoryState, env: Env, allowMinimal: bool, summary: string, at: int)
    requires Good(s) && Linked(s)
    ensures Linked(Take(s, CompactNow(allowMinimal, summary, at), env)) <==> Safe(s, CompactNow(allowMinimal, summary, at), env)
  {
    hide ToLlmAll, Replayable;
    var built := BuildInput(s.rows, env.cfg, allowMinimal, env.tokenizer);
    if built.Some? {
      SplitConserves(s.rows, env.cfg, allowMinimal, env.tokenizer);
      SummaryRowIsTyped(summary, at);
      hide BuildInput;
      CommitOverSame(s, SummaryRow(summary, at), built.value.tail);
      SummaryFirst(SummaryRow(summary, at), built.value.tail);
      if built.value.tail != [] {
        TailReplays(s.rows, |built.value.compacted|, built.value.tail);
      }
    }
  }

  lemma RecoverableErrorEffect(s: HistoryState, id: string, content: string, at: int, name: Option<string>,
          facts: Option<map<string, string>>)
    requires id != ""
    ensures var staged := AfterStage(s, [id], false);
            var t := AfterOutput(staged, OutputRows(staged, content, at, name, facts));
            t.pending == [] && t.rows == s.rows + [ToolResultRow(content, at, id, name, facts)]
  {
    hide ToLlmAll, NonEmptyIds, RowByRow;
    NonEmptyIdsAreNonEmpty([id]);
    var staged := AfterStage(s, [id], false);
    assert staged.pending == [id] && [id][1..] == [];
    hide AfterStage;
    assert NextIds(staged.pending, staged.consumeAll) == [id];
    assert OutputRows(staged, content, at, name, facts) == [ToolResultRow(content, at, id, name, facts)];
  }

  lemma RecoverableErrorLinkage(s: HistoryState, id: string, content: string, at: int, name: Option<string>,
          facts: Option<map<string, string>>)
    requires Linked(s) && id != ""
    ensures var staged := AfterStage(s, [id], false);
            var t := AfterOutput(staged, OutputRows(staged, content, at, name, facts));
            && (Linked(t) <==> s.pending == [id])
            && (s.pending == [] ==> Replay(t.rows) == None)
  {
    RecoverableErrorEffect(s, id, content, at, name, facts);
    ReplayAppend(Some([]), s.rows, ToolResultRow(content, at, id, name, facts));
    hide AfterStage, AfterOutput, OutputRows, ReplayFrom;
    if s.pending != [] && s.pending[1..] == [] && s.pending[0] == id {
      assert s.pending == [id];
    }
  }

  lemma UserMessageLinkage(s: HistoryState, content: string, at: int, refs: Option<seq<string>>)
    requires Linked(s)
    ensures Linked(AfterUser(s, UserRow(content, at, refs))) <==> s.pending == []
  {
    RowAdded(s, AfterUser(s, UserRow(content, at, refs)), UserRow(content, at, refs));
  }

  lemma ReplyKeepsLinkage(s: HistoryState, text: string, at: int)
    requires Linked(s)
    ensures Linked(AfterAssistant(s, AssistantRow(text, at, None)))
  {
    if Replayable(text, None) {
      RowAdded(s, AfterAssistant(s, AssistantRow(text, at, None)), AssistantRow(text, at, None));
    }
  }

  /** Each step keeps the linkage exactly when it is safe, however it was reached. */
  lemma StepKeepsLinkageIffSafe(s: HistoryState, step: Step, env: Env)
    requires Good(s) && Linked(s) && WellFormed(step)
    ensures Linked(Take(s, step, env)) <==> Safe(s, step, env)
  {
    match step
    case UserMessage(content, at, refs) =>
      UserMessageLinkage(s, content, at, refs);
      hide Linked, Good;
    case ToolTurn(text, at, calls) =>
      ToolTurnLinkage(s, text, at, calls);
      hide Linked, Good, AfterToolTurn;
    case Reply(text, at) =>
      ReplyKeepsLinkage(s, text, at);
      hide Linked, Good;
    case Output(content, at, name, facts) =>
      OutputKeepsLinkage(s, content, at, name, facts);
      hide Linked, Good, OutputRows, AfterOutput;
    case CancelPending(content, at) =>
      CancelKeepsLinkage(s, content, at);
      hide Linked, Good;
    case CountTokens(_) => hide Good, ReplayFrom, FreshCount;
    case CompactNow(allowMinimal, summary, at) =>
      CompactionLinkage(s, env, allowMinimal, summary, at);
      hide Linked, Good, Take, Safe;
    case ClearAll => hide Good;
    case RecoverableError(id, content, at, name, facts) =>
      RecoverableErrorLinkage(s, id, content, at, name, facts);
      hide Linked, Good, OutputRows, AfterOutput, AfterStage;
  }

  lemma CancelKeepsLinkage(s: HistoryState, content: string, at: int)
    requires Linked(s)
    ensures Linked(AfterCancel(s, content, at))
  {
    hide ToLlmAll;
    ReplayConcat(Some([]), s.rows, ResultRows(s.pending, content, at, None, None));
    assert s.pending + [] == s.pending;
    ResultsClose(s.pending, [], content, at, None, None);
  }

  predicate SafeRun(s: HistoryState, steps: seq<Step>, env: Env) {
    forall n :: 0 <= n < |steps| ==> WellFormed(steps[n]) && Safe(TakeAll(s, steps[..n], env), steps[n], env)
  }

  /** Along every safe run from an empty history the rows and the staged ids agree, compactions included. */
  lemma {:induction false} LinkedInEverySafeRun(prompt: Option<string>, steps: seq<Step>, env: Env)
    requires SafeRun(Initial(prompt), steps, env)
    ensures var s := TakeAll(Initial(prompt), steps, env); Good(s) && Linked(s)
  {
    if steps != [] {
      var front, last := steps[..|steps| - 1], steps[|steps| - 1];
      forall n | 0 <= n < |front|
        ensures WellFormed(front[n]) && Safe(TakeAll(Initial(prompt), front[..n], env), front[n], env)
      {
        assert front[..n] == steps[..n];
      }
      LinkedInEverySafeRun(prompt, front, env);
      StepIsGood(TakeAll(Initial(prompt), front, env), last, env);
      StepKeepsLinkageIffSafe(TakeAll(Initial(prompt), front, env), last, env);
    }
  }

  /** The recoverable-error path leaves a role=tool row that answers no call. */
  lemma RecoverableErrorOrphans(s: HistoryState, step: Step, env: Env)
    requires Linked(s) && s.pending == [] && step.RecoverableError? && WellFormed(step)
    ensures Replay(Take(s, step, env).rows) == None
  {
    hide Linked, Replay, AfterStage, AfterOutput, OutputRows;
    RecoverableErrorLinkage(s, step.id, step.content, step.at, step.name, step.facts);
  }
}
