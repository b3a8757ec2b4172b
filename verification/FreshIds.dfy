/** When each tool-call id identifies one call: exactly when the ids of every turn are new and distinct. */
module FreshIds {
  import opened Text
  import opened Messages
  import opened History
  import opened Bridge
  import opened Compaction
  import opened Linkage
  import opened Matching

  /** No id was issued twice. */
  ghost predicate Unique(rows: seq<StoredMessage>) {
    forall id :: Issued(rows, |rows|, id) <= 1
  }

  predicate Distinct(ids: seq<string>) {
    forall i, j :: 0 <= i < j < |ids| ==> ids[i] != ids[j]
  }

  /** Ids that differ from each other and from all ids in the history. */
  predicate NewIds(rows: seq<StoredMessage>, ids: seq<string>) {
    Distinct(ids) && forall k :: 0 <= k < |ids| ==> Issued(rows, |rows|, ids[k]) == 0
  }

  // ---------- one turn ----------

  lemma {:induction false} IssuedConcat(a: seq<StoredMessage>, b: seq<StoredMessage>, n: nat, id: string)
    requires n <= |b|
    ensures Issued(a + b, |a| + n, id) == Issued(a, |a|, id) + Issued(b, n, id)
    decreases n
  {
    hide Calls, CallIds;
    if n == 0 {
      IssuedPrefix(a, b, |a|, id);
    } else {
      IssuedConcat(a, b, n - 1, id);
      assert (a + b)[|a| + n - 1] == b[n - 1];
    }
  }

  lemma {:induction false} IssuedPrefix(a: seq<StoredMessage>, b: seq<StoredMessage>, n: nat, id: string)
    requires n <= |a|
    ensures Issued(a + b, n, id) == Issued(a, n, id)
    decreases n
  {
    hide Calls, CallIds;
    if n > 0 {
      IssuedPrefix(a, b, n - 1, id);
      assert (a + b)[n - 1] == a[n - 1];
    }
  }

  lemma {:induction false} NoCallsNothingIssued(rows: seq<StoredMessage>, n: nat, id: string)
    requires n <= |rows| && forall k :: 0 <= k < n ==> Calls(rows[k]) == []
    ensures Issued(rows, n, id) == 0
  {
    if n > 0 {
      NoCallsNothingIssued(rows, n - 1, id);
    }
  }

  lemma SingleIssued(row: StoredMessage, id: string)
    ensures Issued([row], 1, id) == multiset(CallIds(Calls(row)))[id]
  {
    assert Issued([row], 0, id) == 0;
  }

  lemma OneRowIssues(rows: seq<StoredMessage>, row: StoredMessage, id: string)
    ensures Issued(rows + [row], |rows| + 1, id) == Issued(rows, |rows|, id) + multiset(CallIds(Calls(row)))[id]
  {
    hide CallIds, Calls;
    IssuedConcat(rows, [row], 1, id);
    SingleIssued(row, id);
  }

  lemma {:induction false} DistinctCounts(ids: seq<string>, id: string)
    requires Distinct(ids)
    ensures multiset(ids)[id] <= 1
  {
    if ids != [] {
      var front, last := ids[..|ids| - 1], ids[|ids| - 1];
      assert ids == front + [last];
      DistinctCounts(front, id);
      assert last !in front;
      assert multiset(front)[last] == 0 by { assert last !in multiset(front); }
    }
  }

  lemma RepeatCounts(ids: seq<string>, i: nat, j: nat)
    requires i < j < |ids| && ids[i] == ids[j]
    ensures multiset(ids)[ids[i]] >= 2
  {
    assert ids == ids[..j] + ids[j..];
    assert ids[..j][i] == ids[i] && ids[j..][0] == ids[j];
    assert ids[i] in multiset(ids[..j]) && ids[i] in multiset(ids[j..]);
  }

  /** A row of calls keeps ids unique exactly if its own are distinct and were never issued. */
  lemma RowKeepsUniqueIff(rows: seq<StoredMessage>, row: StoredMessage)
    requires Unique(rows)
    ensures Unique(rows + [row]) <==> NewIds(rows, CallIds(Calls(row)))
  {
    var ids := CallIds(Calls(row));
    var more := rows + [row];
    hide Issued, CallIds, Calls;
    if NewIds(rows, ids) {
      forall id
        ensures Issued(more, |more|, id) <= 1
      {
        OneRowIssues(rows, row, id);
        DistinctCounts(ids, id);
        assert Issued(rows, |rows|, id) <= 1;
        if multiset(ids)[id] > 0 {
          assert id in ids;
        }
      }
    }
    if Unique(more) {
      forall k | 0 <= k < |ids|
        ensures Issued(rows, |rows|, ids[k]) == 0
      {
        OneRowIssues(rows, row, ids[k]);
        assert ids[k] in multiset(ids);
        assert Issued(more, |more|, ids[k]) <= 1;
      }
      forall i, j | 0 <= i < j < |ids|
        ensures ids[i] != ids[j]
      {
        OneRowIssues(rows, row, ids[i]);
        assert Issued(more, |more|, ids[i]) <= 1;
        if ids[i] == ids[j] {
          RepeatCounts(ids, i, j);
        }
      }
    }
  }

  // ---------- steps and runs ----------

  /** What a caller can check before a step: a tool turn brings new ids. */
  predicate Fresh(s: HistoryState, step: Step) {
    step.ToolTurn? ==> NewIds(s.rows, CallIds(step.calls))
  }

  lemma {:induction false} SuffixIssues(rows: seq<StoredMessage>, n: nat, m: nat, id: string)
    requires n + m <= |rows|
    ensures Issued(rows, n, id) + Issued(rows[n..], m, id) == Issued(rows, n + m, id)
  {
    hide Calls, CallIds;
    if m > 0 {
      SuffixIssues(rows, n, m - 1, id);
      assert rows[n..][m - 1] == rows[n + m - 1];
    }
  }

  /** Rows with the same calls issue the same ids. */
  lemma {:induction false} SameCallsIssueSame(a: seq<StoredMessage>, b: seq<StoredMessage>, n: nat, id: string)
    requires n <= |a| && n <= |b| && forall k :: 0 <= k < n ==> Calls(a[k]) == Calls(b[k])
    ensures Issued(a, n, id) == Issued(b, n, id)
  {
    if n > 0 {
      SameCallsIssueSame(a, b, n - 1, id);
    }
  }

  lemma TailIssuesNoMore(rows: seq<StoredMessage>, n: nat, tail: seq<StoredMessage>, id: string)
    requires n <= |rows| && TailStandsFor(tail, rows[n..])
    ensures Issued(tail, |tail|, id) <= Issued(rows, |rows|, id)
  {
    hide Issued, CallIds;
    SuffixIssues(rows, n, |rows| - n, id);
    assert forall k :: 0 <= k < |tail| ==> Calls(tail[k]) == Calls(rows[n..][k]);
    hide Calls, TailStandsFor;
    SameCallsIssueSame(tail, rows[n..], |tail|, id);
  }

  lemma CompactedIssuesNoMore(rows: seq<StoredMessage>, row: StoredMessage, n: nat, tail: seq<StoredMessage>,
          id: string)
    requires n <= |rows| && Calls(row) == [] && TailStandsFor(tail, rows[n..])
    ensures Issued([row] + tail, 1 + |tail|, id) <= Issued(rows, |rows|, id)
  {
    TailIssuesNoMore(rows, n, tail, id);
    IssuedConcat([row], tail, |tail|, id);
    SingleIssued(row, id);
  }

  lemma AppendIssuesNothing(rows: seq<StoredMessage>, more: seq<StoredMessage>, id: string)
    requires forall k :: 0 <= k < |more| ==> Calls(more[k]) == []
    ensures Issued(rows + more, |rows + more|, id) == Issued(rows, |rows|, id)
  {
    IssuedConcat(rows, more, |more|, id);
    NoCallsNothingIssued(more, |more|, id);
  }

  /** Only tool turns issue ids. */
  lemma StepIssuesNoMore(s: HistoryState, step: Step, env: Env, id: string)
    requires !step.ToolTurn?
    ensures var rows := Take(s, step, env).rows; Issued(rows, |rows|, id) <= Issued(s.rows, |s.rows|, id)
  {
    hide ToLlmAll, Replayable, BuildInput, Issued;
    match step
    case UserMessage(content, at, refs) => AppendIssuesNothing(s.rows, [UserRow(content, at, refs)], id);
    case Reply(text, at) => AppendIssuesNothing(s.rows, [AssistantRow(text, at, None)], id);
    case Output(content, at, name, facts) => AppendIssuesNothing(s.rows, OutputRows(s, content, at, name, facts), id);
    case CancelPending(content, at) => AppendIssuesNothing(s.rows, ResultRows(s.pending, content, at, None, None), id);
    case CountTokens(_) =>
    case CompactNow(allowMinimal, summary, at) =>
      var built := BuildInput(s.rows, env.cfg, allowMinimal, env.tokenizer);
      if built.Some? {
        SplitConserves(s.rows, env.cfg, allowMinimal, env.tokenizer);
        SummaryRowIsTyped(summary, at);
        CommitOverSame(s, SummaryRow(summary, at), built.value.tail);
        CompactedIssuesNoMore(s.rows, SummaryRow(summary, at), |built.value.compacted|, built.value.tail, id);
      }
    case ClearAll => EmptyIssuesNothing(id);
    case RecoverableError(own, content, at, name, facts) =>
      var staged := AfterStage(s, [own], false);
      AppendIssuesNothing(s.rows, OutputRows(staged, content, at, name, facts), id);
  }

  lemma EmptyIssuesNothing(id: string)
    ensures Issued([], 0, id) == 0
  {
  }

  /** A step keeps ids unique exactly if it is fresh. */
  lemma StepKeepsUniqueIff(s: HistoryState, step: Step, env: Env)
    requires Unique(s.rows)
    ensures Unique(Take(s, step, env).rows) <==> Fresh(s, step)
  {
    hide Issued, CallIds, ToLlmAll, Blank;
    if step.ToolTurn? {
      RowKeepsUniqueIff(s.rows, AssistantRow(step.text, step.at, Some(step.calls)));
    } else {
      forall id
        ensures Issued(Take(s, step, env).rows, |Take(s, step, env).rows|, id) <= 1
      {
        StepIssuesNoMore(s, step, env, id);
        assert Issued(s.rows, |s.rows|, id) <= 1;
        hide Take;
      }
    }
  }

  predicate FreshRun(s: HistoryState, steps: seq<Step>, env: Env) {
    forall n :: 0 <= n < |steps| ==> Fresh(TakeAll(s, steps[..n], env), steps[n])
  }

  ghost predicate UniqueThroughout(s: HistoryState, steps: seq<Step>, env: Env) {
    forall n :: 0 <= n <= |steps| ==> Unique(TakeAll(s, steps[..n], env).rows)
  }

  lemma OneMoreStep(s: HistoryState, steps: seq<Step>, env: Env, n: nat)
    requires n < |steps|
    ensures TakeAll(s, steps[..n + 1], env) == Take(TakeAll(s, steps[..n], env), steps[n], env)
  {
    hide Take;
    assert steps[..n + 1][..n] == steps[..n];
  }

  lemma {:induction false} FreshSoFarIsUnique(s: HistoryState, steps: seq<Step>, env: Env, n: nat)
    requires Unique(s.rows) && FreshRun(s, steps, env) && n <= |steps|
    ensures Unique(TakeAll(s, steps[..n], env).rows)
    decreases n
  {
    hide Take, Unique, Fresh;
    if n == 0 {
      assert steps[..0] == [];
    } else {
      FreshSoFarIsUnique(s, steps, env, n - 1);
      OneMoreStep(s, steps, env, n - 1);
      StepKeepsUniqueIff(TakeAll(s, steps[..n - 1], env), steps[n - 1], env);
    }
  }

  /** Along a run ids stay unique, compactions included, exactly if every tool turn brings new ids. */
  lemma UniqueThroughoutIffFresh(prompt: Option<string>, steps: seq<Step>, env: Env)
    ensures UniqueThroughout(Initial(prompt), steps, env) <==> FreshRun(Initial(prompt), steps, env)
  {
    var s := Initial(prompt);
    assert Unique(s.rows);
    hide Take, Unique, Fresh;
    if FreshRun(s, steps, env) {
      forall n | 0 <= n <= |steps|
        ensures Unique(TakeAll(s, steps[..n], env).rows)
      {
        FreshSoFarIsUnique(s, steps, env, n);
      }
    }
    if UniqueThroughout(s, steps, env) {
      forall n | 0 <= n < |steps|
        ensures Fresh(TakeAll(s, steps[..n], env), steps[n])
      {
        assert Unique(TakeAll(s, steps[..n], env).rows) && Unique(TakeAll(s, steps[..n + 1], env).rows);
        OneMoreStep(s, steps, env, n);
        StepKeepsUniqueIff(TakeAll(s, steps[..n], env), steps[n], env);
      }
    }
  }

  ghost predicate AnsweredAtMostOnce(rows: seq<StoredMessage>) {
    forall id :: Answered(rows, |rows|, id) <= 1
  }

  lemma ClosedConserves(rows: seq<StoredMessage>, id: string)
    requires Replay(rows) == Some([])
    ensures Answered(rows, |rows|, id) == Issued(rows, |rows|, id)
  {
    OpenAtIsReplay(rows, |rows|);
    assert rows[..|rows|] == rows;
    IssuedIsAnsweredOrOpen(rows, |rows|, id);
  }

  lemma AnsweredOnceIffIssuedOnce(rows: seq<StoredMessage>)
    requires Replay(rows) == Some([])
    ensures AnsweredAtMostOnce(rows) <==> Unique(rows)
  {
    hide Issued, Answered, ReplayFrom;
    if AnsweredAtMostOnce(rows) {
      forall id
        ensures Issued(rows, |rows|, id) <= 1
      {
        ClosedConserves(rows, id);
        assert Answered(rows, |rows|, id) <= 1;
      }
    } else {
      var id :| Answered(rows, |rows|, id) > 1;
      ClosedConserves(rows, id);
      assert Issued(rows, |rows|, id) > 1;
    }
  }

  /**
   * With nothing staged every id has as many role=tool rows as calls, so each is answered at most once exactly if the
   * ids are unique.
   */
  lemma AnsweredOnceIffUnique(prompt: Option<string>, steps: seq<Step>, env: Env, id: string)
    requires SafeRun(Initial(prompt), steps, env) && TakeAll(Initial(prompt), steps, env).pending == []
    ensures var rows := TakeAll(Initial(prompt), steps, env).rows;
            Answered(rows, |rows|, id) == Issued(rows, |rows|, id) && (AnsweredAtMostOnce(rows) <==> Unique(rows))
  {
    hide TakeAll, SafeRun, Issued, Answered, ReplayFrom, Good, Unique, AnsweredAtMostOnce;
    LinkedInEverySafeRun(prompt, steps, env);
    var rows := TakeAll(Initial(prompt), steps, env).rows;
    ClosedConserves(rows, id);
    AnsweredOnceIffIssuedOnce(rows);
  }

  lemma UniqueInEveryFreshRun(prompt: Option<string>, steps: seq<Step>, env: Env)
    requires FreshRun(Initial(prompt), steps, env)
    ensures Unique(TakeAll(Initial(prompt), steps, env).rows)
  {
    hide Take, Unique, Fresh;
    UniqueThroughoutIffFresh(prompt, steps, env);
    assert steps[..|steps|] == steps;
  }

  /** Along a safe run with new ids every call that was made has, once nothing is staged, its one answer. */
  lemma EachIdAnsweredOnce(prompt: Option<string>, steps: seq<Step>, env: Env, id: string)
    requires SafeRun(Initial(prompt), steps, env) && FreshRun(Initial(prompt), steps, env)
    requires TakeAll(Initial(prompt), steps, env).pending == []
    ensures var rows := TakeAll(Initial(prompt), steps, env).rows;
            Answered(rows, |rows|, id) == Issued(rows, |rows|, id) <= 1
  {
    hide TakeAll, SafeRun, FreshRun, Issued, Answered;
    UniqueInEveryFreshRun(prompt, steps, env);
    AnsweredOnceIffUnique(prompt, steps, env, id);
  }

  // ---------- the provider's calls ----------

  /** The id under which call number `index` of a turn is stored. */
  function StoredId(call: NativeCall, index: nat): string {
    match NormalizeOptional(call.id) case Some(id) => id case None => "tool_call_" + Digits(index)
  }

  /** Two calls get the same id: given twice, missing at the same place, or given as the other's positional id. */
  predicate Collide(a: NativeCall, i: nat, b: NativeCall, j: nat) {
    var x, y := NormalizeOptional(a.id), NormalizeOptional(b.id);
    || (x.Some? && x == y)
    || (x.None? && y.None? && i == j)
    || (x.None? && y == Some("tool_call_" + Digits(i)))
    || (y.None? && x == Some("tool_call_" + Digits(j)))
  }

  lemma SameStoredIdIffCollide(a: NativeCall, i: nat, b: NativeCall, j: nat)
    ensures StoredId(a, i) == StoredId(b, j) <==> Collide(a, i, b, j)
  {
    hide Strip, Digits;
    var x, y := NormalizeOptional(a.id), NormalizeOptional(b.id);
    if x.None? && y.None? && StoredId(a, i) == StoredId(b, j) {
      var prefix := "tool_call_";
      assert (prefix + Digits(i))[|prefix|..] == Digits(i) && (prefix + Digits(j))[|prefix|..] == Digits(j);
      DigitsAreInjective(i, j);
    }
  }

  function StoredIds(calls: seq<NativeCall>): (ids: seq<string>)
    ensures |ids| == |calls| && forall k :: 0 <= k < |calls| ==> ids[k] == StoredId(calls[k], k)
  {
    seq(|calls|, k requires 0 <= k < |calls| => StoredId(calls[k], k))
  }

  function ParsedCalls(calls: seq<NativeCall>): seq<ParsedToolCall> {
    seq(|calls|, k requires 0 <= k < |calls| => ToParsedToolCall(calls[k]))
  }

  /** The assistant row of a turn with these calls. */
  function NativeRow(text: string, at: int, calls: seq<NativeCall>): StoredMessage {
    AssistantRow(text, at, Some(HistoryCalls(ParsedCalls(calls))))
  }

  lemma NativeRowIssues(text: string, at: int, calls: seq<NativeCall>)
    ensures CallIds(Calls(NativeRow(text, at, calls))) == StoredIds(calls)
  {
    var ids := CallIds(Calls(NativeRow(text, at, calls)));
    hide HistoryCall, ToParsedToolCall, StoredId;
    forall k | 0 <= k < |calls|
      ensures ids[k] == StoredIds(calls)[k]
    {
      StoredIdIsBridged(calls[k], k);
    }
  }

  lemma StoredIdIsBridged(call: NativeCall, index: nat)
    ensures HistoryCall(ToParsedToolCall(call), index).id == StoredId(call, index)
  {
    BridgeKeepsCall(call, index);
  }

  /** No two calls of the turn collide, and none is stored under an id the history has issued. */
  predicate FreshCalls(rows: seq<StoredMessage>, calls: seq<NativeCall>) {
    && (forall i, j :: 0 <= i < j < |calls| ==> !Collide(calls[i], i, calls[j], j))
    && (forall k :: 0 <= k < |calls| ==> Issued(rows, |rows|, StoredId(calls[k], k)) == 0)
  }

  /** A provider's tool turn keeps ids unique exactly if its calls are fresh. */
  lemma NativeTurnKeepsUniqueIff(rows: seq<StoredMessage>, text: string, at: int, calls: seq<NativeCall>)
    requires Unique(rows)
    ensures Unique(rows + [NativeRow(text, at, calls)]) <==> FreshCalls(rows, calls)
  {
    RowKeepsUniqueIff(rows, NativeRow(text, at, calls));
    NativeRowIssues(text, at, calls);
    hide Unique, NativeRow, StoredId, Collide, Issued, CallIds;
    forall i, j | 0 <= i < j < |calls|
      ensures StoredIds(calls)[i] == StoredIds(calls)[j] <==> Collide(calls[i], i, calls[j], j)
    {
      SameStoredIdIffCollide(calls[i], i, calls[j], j);
    }
  }

  // ---------- whole histories ----------

  /** Row `k` issues the ids of the calls `turns[k]`, none if there are none. */
  predicate MadeOf(rows: seq<StoredMessage>, turns: seq<seq<NativeCall>>) {
    |rows| == |turns| && forall k :: 0 <= k < |rows| ==> CallIds(Calls(rows[k])) == StoredIds(turns[k])
  }

  predicate CollideAcross(a: seq<NativeCall>, b: seq<NativeCall>) {
    exists i, j :: 0 <= i < |a| && 0 <= j < |b| && Collide(a[i], i, b[j], j)
  }

  predicate CollideWithin(a: seq<NativeCall>) {
    exists i, j :: 0 <= i < j < |a| && Collide(a[i], i, a[j], j)
  }

  /** No call of the first `n` turns collides with another one, in its own turn or an earlier one. */
  predicate NoCollisions(turns: seq<seq<NativeCall>>, n: nat)
    requires n <= |turns|
  {
    && (forall t :: 0 <= t < n ==> !CollideWithin(turns[t]))
    && (forall t, u :: 0 <= t < u < n ==> !CollideAcross(turns[t], turns[u]))
  }

  lemma {:induction false} NeverIssued(rows: seq<StoredMessage>, n: nat, id: string)
    requires n <= |rows|
    ensures Issued(rows, n, id) == 0 <==> forall k :: 0 <= k < n ==> id !in CallIds(Calls(rows[k]))
    decreases n
  {
    hide CallIds, Calls;
    if n > 0 {
      NeverIssued(rows, n - 1, id);
      var ids := CallIds(Calls(rows[n - 1]));
      assert id in ids <==> id in multiset(ids);
    }
  }

  lemma TurnIsNewIff(rows: seq<StoredMessage>, turns: seq<seq<NativeCall>>, n: nat)
    requires n < |turns| && MadeOf(rows, turns)
    ensures NewIds(rows[..n], StoredIds(turns[n])) <==>
      !CollideWithin(turns[n]) && forall t :: 0 <= t < n ==> !CollideAcross(turns[t], turns[n])
  {
    var ids := StoredIds(turns[n]);
    hide Collide, StoredId, Issued, CallIds, Calls;
    forall k | 0 <= k < |ids|
      ensures Issued(rows[..n], n, ids[k]) == 0 <==> forall t :: 0 <= t < n ==> ids[k] !in StoredIds(turns[t])
    {
      NeverIssued(rows[..n], n, ids[k]);
      assert forall t :: 0 <= t < n ==> rows[..n][t] == rows[t] && CallIds(Calls(rows[t])) == StoredIds(turns[t]);
    }
    forall i, j | 0 <= i < |ids| && 0 <= j < |ids|
      ensures ids[i] == ids[j] <==> Collide(turns[n][i], i, turns[n][j], j)
    {
      SameStoredIdIffCollide(turns[n][i], i, turns[n][j], j);
    }
    forall t | 0 <= t < n
      ensures CollideAcross(turns[t], turns[n]) <==> exists k :: 0 <= k < |ids| && ids[k] in StoredIds(turns[t])
    {
      AcrossIffShared(turns[t], turns[n]);
    }
  }

  lemma AcrossIffShared(a: seq<NativeCall>, b: seq<NativeCall>)
    ensures CollideAcross(a, b) <==> exists k :: 0 <= k < |b| && StoredIds(b)[k] in StoredIds(a)
  {
    hide Collide, StoredId;
    forall i, j | 0 <= i < |a| && 0 <= j < |b|
      ensures Collide(a[i], i, b[j], j) <==> StoredIds(a)[i] == StoredIds(b)[j]
    {
      SameStoredIdIffCollide(a[i], i, b[j], j);
    }
    if CollideAcross(a, b) {
      var i, j :| 0 <= i < |a| && 0 <= j < |b| && Collide(a[i], i, b[j], j);
      assert StoredIds(b)[j] == StoredIds(a)[i];
    }
    if exists k :: 0 <= k < |b| && StoredIds(b)[k] in StoredIds(a) {
      var k :| 0 <= k < |b| && StoredIds(b)[k] in StoredIds(a);
      var i :| 0 <= i < |a| && StoredIds(a)[i] == StoredIds(b)[k];
      assert Collide(a[i], i, b[k], k);
    }
  }

  lemma PrefixIsUnique(rows: seq<StoredMessage>, row: StoredMessage)
    requires Unique(rows + [row])
    ensures Unique(rows)
  {
    hide Issued, CallIds;
    forall id
      ensures Issued(rows, |rows|, id) <= 1
    {
      OneRowIssues(rows, row, id);
      assert Issued(rows + [row], |rows + [row]|, id) <= 1;
    }
  }

  lemma NoCollisionsStep(turns: seq<seq<NativeCall>>, n: nat)
    requires n < |turns|
    ensures NoCollisions(turns, n + 1) <==>
      NoCollisions(turns, n) && !CollideWithin(turns[n]) && forall t :: 0 <= t < n ==> !CollideAcross(turns[t], turns[n])
  {
    hide CollideWithin, CollideAcross;
  }

  lemma OneRowMore(rows: seq<StoredMessage>, row: StoredMessage)
    ensures Unique(rows + [row]) <==> Unique(rows) && NewIds(rows, CallIds(Calls(row)))
  {
    hide NewIds, CallIds, Calls, Issued;
    if Unique(rows) {
      RowKeepsUniqueIff(rows, row);
    } else if Unique(rows + [row]) {
      PrefixIsUnique(rows, row);
    }
  }

  lemma {:induction false} PrefixUniqueIff(rows: seq<StoredMessage>, turns: seq<seq<NativeCall>>, n: nat)
    requires MadeOf(rows, turns) && n <= |rows|
    ensures Unique(rows[..n]) <==> NoCollisions(turns, n)
    decreases n
  {
    hide Unique, NewIds, CollideWithin, CollideAcross, StoredIds, CallIds, Calls;
    if n == 0 {
      assert rows[..0] == [];
      EmptyIsUnique();
    } else {
      PrefixUniqueIff(rows, turns, n - 1);
      OneRowMore(rows[..n - 1], rows[n - 1]);
      assert rows[..n] == rows[..n - 1] + [rows[n - 1]];
      assert CallIds(Calls(rows[n - 1])) == StoredIds(turns[n - 1]);
      TurnIsNewIff(rows, turns, n - 1);
      NoCollisionsStep(turns, n - 1);
    }
  }

  lemma EmptyIsUnique()
    ensures Unique([])
  {
  }

  /** Ids in a history are unique exactly if no two of the provider's calls collide, within a turn or across turns. */
  lemma UniqueIffNoCollisions(rows: seq<StoredMessage>, turns: seq<seq<NativeCall>>)
    requires MadeOf(rows, turns)
    ensures Unique(rows) <==> NoCollisions(turns, |turns|)
  {
    PrefixUniqueIff(rows, turns, |rows|);
    assert rows[..|rows|] == rows;
  }

  /** An id that looks positional collides with a missing one of the same turn. */
  lemma SameTurnCollision(text: string, at: int)
    ensures var calls := [NativeCall("a", Some("tool_call_1"), "", ""), NativeCall("b", None, "", "")];
            StoredIds(calls) == ["tool_call_1", "tool_call_1"] && !Unique([NativeRow(text, at, calls)])
  {
    var calls := [NativeCall("a", Some("tool_call_1"), "", ""), NativeCall("b", None, "", "")];
    CollidingIds();
    hide StoredId, Unique, NativeRow, Digits, Strip;
    NativeRowIssues(text, at, calls);
    assert StoredIds(calls)[0] == StoredIds(calls)[1];
    OneRowMore([], NativeRow(text, at, calls));
    assert [] + [NativeRow(text, at, calls)] == [NativeRow(text, at, calls)];
  }

  lemma CollidingIds()
    ensures StoredId(NativeCall("a", Some("tool_call_1"), "", ""), 0) == "tool_call_1"
    ensures StoredId(NativeCall("b", None, "", ""), 1) == "tool_call_1"
  {
    TrimmedIsFixed("tool_call_1");
    assert Digits(1) == "1";
    hide Strip;
  }
}
