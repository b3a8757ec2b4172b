/** Whole runs of history operations: the mirror never diverges and the running token count drifts by a known amount. */
module HistoryRuns {
  import opened Text
  import opened Messages
  import opened Tokens
  import opened History

  datatype Op =
    | AddUser(content: string, at: int, imageRefs: Option<seq<string>>)
    | AddOutput(content: string, at: int, name: Option<string>, facts: Option<map<string, string>>)
    | AddAssistant(content: string, at: int, calls: Option<seq<ToolCall>>)
    | Stage(ids: seq<string>, consumeAll: bool)
    | Cancel(content: string, at: int)
    | Count(model: string)
    | Clear
    | Replace(rows: seq<StoredMessage>)
    | SetPrompt(prompt: Option<string>)

  function Apply(s: HistoryState, op: Op): HistoryState {
    match op
    case AddUser(content, at, refs) => AfterUser(s, UserRow(content, at, refs))
    case AddOutput(content, at, name, facts) => AfterOutput(s, OutputRows(s, content, at, name, facts))
    case AddAssistant(content, at, calls) => AfterAssistant(s, AssistantRow(content, at, calls))
    case Stage(ids, consumeAll) => AfterStage(s, ids, consumeAll)
    case Cancel(content, at) => AfterCancel(s, content, at)
    case Count(model) => AfterCount(s, model)
    case Clear => AfterReplace(s, [])
    case Replace(rows) => AfterReplace(s, rows)
    case SetPrompt(prompt) => s.(systemPrompt := prompt)
  }

  function Run(s: HistoryState, ops: seq<Op>): HistoryState {
    if ops == [] then s else Apply(Run(s, ops[..|ops| - 1]), ops[|ops| - 1])
  }

  /** What holds in every reachable state. */
  predicate Sound(s: HistoryState) {
    && s.llm == ToLlmAll(s.rows)
    && (s.consumeAll ==> s.pending != [])
    && (forall k :: 0 <= k < |s.pending| ==> s.pending[k] != "")
  }

  lemma ToLlmAllConcat(a: seq<StoredMessage>, b: seq<StoredMessage>)
    ensures ToLlmAll(a + b) == ToLlmAll(a) + ToLlmAll(b)
  {
  }

  lemma {:induction false} NonEmptyIdsAreNonEmpty(ids: seq<string>)
    ensures forall k :: 0 <= k < |NonEmptyIds(ids)| ==> NonEmptyIds(ids)[k] != ""
    ensures (forall k :: 0 <= k < |ids| ==> ids[k] != "") ==> NonEmptyIds(ids) == ids
  {
    if ids != [] {
      var front := ids[..|ids| - 1];
      NonEmptyIdsAreNonEmpty(front);
      assert ids == front + [ids[|ids| - 1]];
      if forall k :: 0 <= k < |ids| ==> ids[k] != "" {
        assert forall k :: 0 <= k < |front| ==> front[k] == ids[k];
        assert NonEmptyIds(front) == front;
      }
    }
  }

  lemma ApplyIsSound(s: HistoryState, op: Op)
    requires Sound(s)
    ensures Sound(Apply(s, op))
  {
    match op
    case AddOutput(content, at, name, facts) =>
      ToLlmAllConcat(s.rows, OutputRows(s, content, at, name, facts));
    case Cancel(content, at) =>
      ToLlmAllConcat(s.rows, ResultRows(s.pending, content, at, None, None));
    case Stage(ids, _) =>
      NonEmptyIdsAreNonEmpty(ids);
    case AddUser(content, at, refs) =>
      ToLlmAllConcat(s.rows, [UserRow(content, at, refs)]);
    case AddAssistant(content, at, calls) =>
      ToLlmAllConcat(s.rows, [AssistantRow(content, at, calls)]);
    case _ =>
  }

  /** The cached model-facing list is the stored list converted row by row, in every reachable state. */
  lemma {:induction false} MirrorInEveryRun(prompt: Option<string>, ops: seq<Op>)
    ensures Sound(Run(Initial(prompt), ops))
  {
    if ops != [] {
      MirrorInEveryRun(prompt, ops[..|ops| - 1]);
      ApplyIsSound(Run(Initial(prompt), ops[..|ops| - 1]), ops[|ops| - 1]);
    }
  }

  // ---------- the running token count ----------

  /** A cached count is at most `k` tokens below a fresh one and never above it. */
  predicate WithinDrift(s: HistoryState, k: nat) {
    s.tokens.Some? ==> FreshCount(s) - k <= s.tokens.value.count <= FreshCount(s)
  }

  /** Rows counted one by one since the last full count. */
  function NextDrift(s: HistoryState, op: Op, k: nat): nat {
    match op
    case AddOutput(content, at, name, facts) => k + |OutputRows(s, content, at, name, facts)|
    case Count(model) => if s.tokens.Some? && s.tokens.value.model == model then k else 0
    case Stage(_, _) => k
    case SetPrompt(_) => k
    case _ => if Apply(s, op).tokens.Some? then k else 0
  }

  function RunDrift(s: HistoryState, ops: seq<Op>, k: nat): nat {
    if ops == [] then k
    else NextDrift(Run(s, ops[..|ops| - 1]), ops[|ops| - 1], RunDrift(s, ops[..|ops| - 1], k))
  }

  lemma {:induction false} RowByRowLosesAtMostOnePerRow(rows: seq<StoredMessage>, before: nat)
    ensures (before + Chars(ToLlmAll(rows))) / 4 - |rows| <= before / 4 + RowByRow(rows) <= (before + Chars(ToLlmAll(rows))) / 4
  {
    if rows != [] {
      var front, last := rows[..|rows| - 1], [rows[|rows| - 1]];
      assert rows == front + last;
      ToLlmAllConcat(front, last);
      CharsConcat(ToLlmAll(front), ToLlmAll(last));
      RowByRowLosesAtMostOnePerRow(front, before);
    }
  }

  lemma PromptAfterOutput(s: HistoryState, rows: seq<StoredMessage>)
    ensures PromptMessages(AfterOutput(s, rows)) == PromptMessages(s) + ToLlmAll(rows)
  {
  }

  lemma OutputDrift(s: HistoryState, rows: seq<StoredMessage>, k: nat)
    requires Sound(s) && WithinDrift(s, k)
    ensures WithinDrift(AfterOutput(s, rows), k + |rows|)
  {
    if s.tokens.Some? {
      PromptAfterOutput(s, rows);
      hide PromptMessages, ToLlmAll, RowByRow;
      CharsConcat(PromptMessages(s), ToLlmAll(rows));
      RowByRowLosesAtMostOnePerRow(rows, Chars(PromptMessages(s)));
    }
  }

  lemma ApplyDrift(s: HistoryState, op: Op, k: nat)
    requires Sound(s) && WithinDrift(s, k) && !op.SetPrompt?
    ensures WithinDrift(Apply(s, op), NextDrift(s, op, k))
  {
    match op
    case AddOutput(content, at, name, facts) => OutputDrift(s, OutputRows(s, content, at, name, facts), k);
    case _ =>
  }

  /**
   * While the system prompt stays the same, the cached count after appending `k` rows one by one lies between
   * the fresh count minus `k` and the fresh count, along every run.
   */
  lemma {:induction false} DriftInEveryRun(s: HistoryState, ops: seq<Op>, k: nat)
    requires Sound(s) && WithinDrift(s, k)
    requires forall i :: 0 <= i < |ops| ==> !ops[i].SetPrompt?
    ensures Sound(Run(s, ops)) && WithinDrift(Run(s, ops), RunDrift(s, ops, k))
  {
    if ops != [] {
      var front := ops[..|ops| - 1];
      DriftInEveryRun(s, front, k);
      ApplyIsSound(Run(s, front), ops[|ops| - 1]);
      ApplyDrift(Run(s, front), ops[|ops| - 1], RunDrift(s, front, k));
    }
  }

  function PromptChars(s: HistoryState): nat {
    if s.systemPrompt.Some? then |s.systemPrompt.value| else 0
  }

  lemma PromptAndRows(s: HistoryState)
    ensures Chars(PromptMessages(s)) == PromptChars(s) + Chars(s.llm)
  {
    if NonEmpty(s.systemPrompt).Some? {
      var first := [Plain(System, s.systemPrompt.value)];
      CharsConcat(first, s.llm);
      assert first[..0] == [];
      assert Chars(first) == Chars(first[..0]) + |first[0].content|;
    } else {
      assert PromptMessages(s) == s.llm;
    }
  }

  /**
   * Assigning the system prompt keeps the cached count. A count that was exact is then still right exactly when
   * both prompts round to the same estimate.
   */
  lemma PromptChangeKeepsCount(s: HistoryState, prompt: Option<string>, model: string)
    requires s.tokens == Some(TokenCache(FreshCount(s), model))
    ensures var t := Apply(s, SetPrompt(prompt));
            Counted(t, model) == FreshCount(t)
            <==> (PromptChars(s) + Chars(s.llm)) / 4 == ((if prompt.Some? then |prompt.value| else 0) + Chars(s.llm)) / 4
  {
    PromptAndRows(s);
    PromptAndRows(Apply(s, SetPrompt(prompt)));
  }

  /** The cached count is at most `k` tokens below that of the rows under a prompt of `prompt` characters, never above. */
  predicate CountedUnder(s: HistoryState, prompt: nat, k: nat) {
    var full := (prompt + Chars(s.llm)) / 4;
    s.tokens.Some? ==> full - k <= s.tokens.value.count <= full
  }

  /** The length of the system prompt when the cached count was last computed in full. */
  function RunPrompt(s: HistoryState, ops: seq<Op>, prompt: nat): nat {
    if ops == [] then prompt
    else
      var before, last := Run(s, ops[..|ops| - 1]), ops[|ops| - 1];
      if last.Count? && (before.tokens.None? || before.tokens.value.model != last.model) then PromptChars(before)
      else RunPrompt(s, ops[..|ops| - 1], prompt)
  }

  lemma OutputUnder(s: HistoryState, rows: seq<StoredMessage>, prompt: nat, k: nat)
    requires CountedUnder(s, prompt, k)
    ensures CountedUnder(AfterOutput(s, rows), prompt, k + |rows|)
  {
    hide ToLlmAll, RowByRow;
    if s.tokens.Some? {
      CharsConcat(s.llm, ToLlmAll(rows));
      RowByRowLosesAtMostOnePerRow(rows, prompt + Chars(s.llm));
    }
  }

  lemma ApplyUnder(s: HistoryState, op: Op, prompt: nat, k: nat)
    requires CountedUnder(s, prompt, k)
    ensures var recounts := op.Count? && (s.tokens.None? || s.tokens.value.model != op.model);
            CountedUnder(Apply(s, op), if recounts then PromptChars(s) else prompt, NextDrift(s, op, k))
  {
    match op
    case AddOutput(content, at, name, facts) => OutputUnder(s, OutputRows(s, content, at, name, facts), prompt, k);
    case Count(_) => PromptAndRows(s);
    case _ =>
  }

  /** Along every run, prompt changes included, the count drifts from that of the prompt it was last computed with. */
  lemma {:induction false} DriftUnderPromptChanges(s: HistoryState, ops: seq<Op>, prompt: nat, k: nat)
    requires CountedUnder(s, prompt, k)
    ensures CountedUnder(Run(s, ops), RunPrompt(s, ops, prompt), RunDrift(s, ops, k))
  {
    hide Apply, NextDrift, CountedUnder;
    if ops != [] {
      var front := ops[..|ops| - 1];
      DriftUnderPromptChanges(s, front, prompt, k);
      ApplyUnder(Run(s, front), ops[|ops| - 1], RunPrompt(s, front, prompt), RunDrift(s, front, k));
    }
  }

  /**
   * So in every reachable state the cached count differs from a fresh one by a quarter of the change in the prompt's
   * length, rounded either way, and by at most one more token for each row counted on its own.
   */
  lemma StaleByPromptAndRows(prompt: Option<string>, ops: seq<Op>)
    ensures var s, k := Run(Initial(prompt), ops), RunDrift(Initial(prompt), ops, 0);
            var grown := PromptChars(s) - RunPrompt(Initial(prompt), ops, 0);
            s.tokens.Some? ==> FreshCount(s) - (grown + 3) / 4 - k <= s.tokens.value.count <= FreshCount(s) - grown / 4
  {
    DriftUnderPromptChanges(Initial(prompt), ops, 0, 0);
    var s := Run(Initial(prompt), ops);
    hide Run, RunDrift, RunPrompt, PromptMessages;
    PromptAndRows(s);
  }

  /** A count that goes stale: four characters of prompt are added after an empty history was counted. */
  lemma StaleCountExample()
    ensures var s := Run(Initial(None), [Count("m"), SetPrompt(Some("abcd"))]);
            Counted(s, "m") == 0 && FreshCount(s) == 1
  {
    var ops := [Count("m"), SetPrompt(Some("abcd"))];
    assert ops[..1] == [Count("m")] && ops[..1][..0] == [];
    var s1 := Run(Initial(None), ops[..1]);
    assert Run(Initial(None), []) == Initial(None);
    assert s1 == AfterCount(Initial(None), "m");
    assert PromptMessages(Initial(None)) == [];
    PromptAndRows(Run(Initial(None), ops));
  }

  // ---------- what is recorded ----------

  /** The rows are outputs for these calls, in order. */
  predicate OutputsFor(rows: seq<StoredMessage>, ids: seq<string>, content: string, at: int, name: Option<string>,
          facts: Option<map<string, string>>) {
    && |rows| == |ids|
    && forall k :: 0 <= k < |ids| ==> rows[k] == StoredMessage(Tool, content, ToolOutput, at, None, None, Some(ids[k]), name, facts)
  }

  /** The rows an operation adds, field by field. */
  predicate Records(s: HistoryState, op: Op, added: seq<StoredMessage>) {
    match op
    case AddUser(content, at, refs) => added == [StoredMessage(User, content, UserQuery, at, refs, None, None, None, None)]
    case AddOutput(content, at, name, facts) =>
      if s.pending == [] then added == [StoredMessage(User, content, ToolOutput, at, None, None, None, name, facts)]
      else OutputsFor(added, if s.consumeAll then s.pending else s.pending[..1], content, at, name, facts)
    case AddAssistant(content, at, calls) =>
      if AllSpace(content) && (calls.None? || calls.value == []) then added == []
      else added == [StoredMessage(Assistant, content, AssistantResponse, at, None, calls, None, None, None)]
    case Cancel(content, at) => OutputsFor(added, s.pending, content, at, None, None)
    case _ => added == []
  }

  /** The ids that are staged after an operation. */
  ghost predicate Stages(s: HistoryState, op: Op, pending: seq<string>) {
    match op
    case AddOutput(_, _, _, _) =>
      if s.consumeAll || s.pending == [] then pending == [] else pending == s.pending[1..]
    case Stage(ids, _) =>
      (forall id :: id in pending <==> id in ids && id != "") && ((forall k :: 0 <= k < |ids| ==> ids[k] != "") ==> pending == ids)
    case Cancel(_, _) => pending == []
    case Clear => pending == []
    case Replace(_) => pending == []
    case _ => pending == s.pending
  }

  /** Every operation records what it is given, and for whom, and touches nothing else of the rows. */
  lemma OperationRecords(s: HistoryState, op: Op)
    requires !op.Clear? && !op.Replace?
    ensures s.rows <= Apply(s, op).rows && Records(s, op, Apply(s, op).rows[|s.rows|..]) && Stages(s, op, Apply(s, op).pending)
  {
    hide ToLlmAll, RowByRow, Blank, AllSpace;
    match op
    case AddAssistant(content, _, _) => BlankIffSpace(content);
    case Stage(ids, _) =>
      NonEmptyIdsAreNonEmpty(ids);
      forall id
        ensures id in NonEmptyIds(ids) <==> id in ids && id != ""
      {
        NonEmptyIdsKeep(ids, id);
      }
    case _ =>
  }

  lemma {:induction false} NonEmptyIdsKeep(ids: seq<string>, id: string)
    ensures id in NonEmptyIds(ids) <==> id in ids && id != ""
  {
    if ids != [] {
      NonEmptyIdsKeep(ids[..|ids| - 1], id);
      assert ids == ids[..|ids| - 1] + [ids[|ids| - 1]];
    }
  }

  /** Replacing installs exactly the rows given, clearing leaves none. */
  lemma ReplacementRecords(s: HistoryState, op: Op)
    requires op.Clear? || op.Replace?
    ensures Apply(s, op).rows == (if op.Clear? then [] else op.rows) && Stages(s, op, Apply(s, op).pending)
    ensures Apply(s, op).systemPrompt == s.systemPrompt
  {
  }

  // ---------- appending only ----------

  predicate Appends(op: Op) {
    !op.Clear? && !op.Replace?
  }

  /** Operations that only append leave every earlier row where it was. */
  lemma {:induction false} AppendingKeepsPrefix(s: HistoryState, ops: seq<Op>)
    requires forall i :: 0 <= i < |ops| ==> Appends(ops[i])
    ensures s.rows <= Run(s, ops).rows
  {
    if ops != [] {
      AppendingKeepsPrefix(s, ops[..|ops| - 1]);
    }
  }

  lemma {:induction false} RunConcat(s: HistoryState, a: seq<Op>, b: seq<Op>)
    ensures Run(s, a + b) == Run(Run(s, a), b)
  {
    if b == [] {
      assert a + b == a;
    } else {
      assert (a + b)[..|a + b| - 1] == a + b[..|b| - 1];
      RunConcat(s, a, b[..|b| - 1]);
    }
  }

  lemma ApplyIsTyped(s: HistoryState, op: Op)
    requires TypedRows(s.rows) && (op.Replace? ==> TypedRows(op.rows))
    ensures TypedRows(Apply(s, op).rows)
  {
    hide ToLlmAll, Blank;
    match op
    case AddUser(content, at, refs) => TypedRowsConcat(s.rows, [UserRow(content, at, refs)]);
    case AddOutput(content, at, name, facts) => TypedRowsConcat(s.rows, OutputRows(s, content, at, name, facts));
    case AddAssistant(content, at, calls) =>
      if Replayable(content, calls) {
        TypedRowsConcat(s.rows, [AssistantRow(content, at, calls)]);
      }
    case Cancel(content, at) => TypedRowsConcat(s.rows, ResultRows(s.pending, content, at, None, None));
    case _ =>
  }

  /** Every row the history builds itself agrees in role and type. */
  lemma {:induction false} TypedInEveryRun(prompt: Option<string>, ops: seq<Op>)
    requires forall i :: 0 <= i < |ops| && ops[i].Replace? ==> TypedRows(ops[i].rows)
    ensures TypedRows(Run(Initial(prompt), ops).rows)
  {
    hide ToLlmAll, Blank;
    if ops != [] {
      TypedInEveryRun(prompt, ops[..|ops| - 1]);
      ApplyIsTyped(Run(Initial(prompt), ops[..|ops| - 1]), ops[|ops| - 1]);
    }
  }
}
