/** Rewriting a long history as a summary followed by a recent tail that fits a token budget. */
module Compaction {
  import opened Text
  import opened Messages
  import opened Tokens
  import opened History
  import opened HistoryRuns

  datatype Config = Config(keepRecentUsers: int, targetTokens: Option<int>, summaryMaxTokens: int)

  datatype CompactionInput = CompactionInput(compacted: seq<StoredMessage>, tail: seq<StoredMessage>)

  datatype SkipReason = Blocked | InsufficientHistory | HistoryChanged

  datatype Outcome = Installed(replacement: seq<StoredMessage>, removed: nat) | Skipped(reason: SkipReason)

  const SUMMARY_PREFIX := "[[CONTEXT COMPACTION SUMMARY]]"

  predicate IsQuery(m: StoredMessage) {
    m.messageType == UserQuery
  }

  function Queries(messages: seq<StoredMessage>): nat {
    if messages == [] then 0 else (if IsQuery(messages[0]) then 1 else 0) + Queries(messages[1..])
  }

  // ---------- where the recent tail starts ----------

  /** The start of the `keep`-th most recent user query. */
  function QueryStart(messages: seq<StoredMessage>, keep: nat): (r: nat)
    requires 1 <= keep <= Queries(messages)
    ensures r < |messages| && IsQuery(messages[r]) && Queries(messages[r..]) == keep
  {
    if IsQuery(messages[0]) && Queries(messages) == keep then 0 else 1 + QueryStart(messages[1..], keep)
  }

  function SplitIndex(messages: seq<StoredMessage>, keep: nat): nat
    requires keep >= 1
  {
    if keep <= Queries(messages) then QueryStart(messages, keep) else 0
  }

  lemma {:induction false} QueriesOfSuffix(messages: seq<StoredMessage>, i: nat)
    requires i <= |messages|
    ensures Queries(messages[i..]) <= Queries(messages)
    ensures i < |messages| && IsQuery(messages[i]) ==> Queries(messages[i + 1..]) < Queries(messages)
  {
    if i > 0 {
      assert messages[1..][i - 1..] == messages[i..];
      if i < |messages| {
        assert messages[1..][i - 1 + 1..] == messages[i + 1..];
      }
      QueriesOfSuffix(messages[1..], i - 1);
    } else {
      assert messages[0..] == messages;
    }
  }

  lemma {:induction false} QueryStartIsUnique(messages: seq<StoredMessage>, keep: nat, i: nat)
    requires keep >= 1 && i < |messages| && IsQuery(messages[i]) && Queries(messages[i..]) == keep
    ensures keep <= Queries(messages) && QueryStart(messages, keep) == i
  {
    QueriesOfSuffix(messages, i);
    if i > 0 {
      assert messages[1..][i - 1..] == messages[i..];
      QueryStartIsUnique(messages[1..], keep, i - 1);
    } else {
      assert messages[0..] == messages;
    }
  }

  /** Scans from the newest row back to the oldest query that is still kept. */
  method SplitIndexForRecentUserMessages(messages: seq<StoredMessage>, keepRecentUsers: nat) returns (r: nat)
    requires keepRecentUsers >= 1
    ensures r == SplitIndex(messages, keepRecentUsers)
  {
    var seen, index := 0, |messages|;
    while index > 0
      invariant 0 <= index <= |messages|
      invariant seen == Queries(messages[index..]) < keepRecentUsers
    {
      index := index - 1;
      assert messages[index..][1..] == messages[index + 1..];
      if IsQuery(messages[index]) {
        seen := seen + 1;
        if seen == keepRecentUsers {
          QueryStartIsUnique(messages, keepRecentUsers, index);
          return index;
        }
      }
    }
    assert messages[0..] == messages;
    r := 0;
  }

  // ---------- shrinking the tail ----------

  /** Rows up to the next user-role row, the first row always included. */
  function LeadingTurn(tail: seq<StoredMessage>): (n: nat)
    requires tail != []
    ensures 1 <= n <= |tail|
    ensures n < |tail| ==> tail[n].role == User
    ensures forall k :: 1 <= k < n ==> tail[k].role != User
  {
    if |tail| == 1 || tail[1].role == User then 1
    else
      var n := LeadingTurn(tail[1..]);
      assert forall k :: 1 < k < n + 1 ==> tail[1..][k - 1] == tail[k];
      n + 1
  }

  method CountLeadingTailTurnMessages(tail: seq<StoredMessage>) returns (n: nat)
    ensures n == if tail == [] then 0 else LeadingTurn(tail)
  {
    if tail == [] {
      return 0;
    }
    for index := 1 to |tail|
      invariant forall k :: 1 <= k < index ==> tail[k].role != User
    {
      if tail[index].role == User {
        return index;
      }
    }
    n := |tail|;
  }

  function TruncatedRow(m: StoredMessage, budget: int, tokenizer: Tokenizer): StoredMessage {
    var cut := tokenizer.truncate(m.content, if budget < 1 then 1 else budget);
    if !cut.1 then m
    else
      var facts := if m.compactionFacts.Some? then m.compactionFacts.value else map[];
      m.(content := cut.0, compactionFacts := Some(facts["context_compaction_truncated" := "true"]))
  }

  function TailBudget(target: int, cfg: Config): int {
    if target - cfg.summaryMaxTokens < 1 then 1 else target - cfg.summaryMaxTokens
  }

  predicate OverBudget(tail: seq<StoredMessage>, budget: int, tokenizer: Tokenizer) {
    tokenizer.count(tail) > budget
  }

  /** The tail can be cut before row `k`: at its start or before a user-role row. */
  predicate TurnStart(tail: seq<StoredMessage>, k: nat) {
    k == 0 || (k < |tail| && tail[k].role == User)
  }

  /** Cutting before row `k` leaves several rows that still cost too much. */
  predicate TooLongFrom(tail: seq<StoredMessage>, k: nat, budget: int, tokenizer: Tokenizer) {
    k + 1 < |tail| && OverBudget(tail[k..], budget, tokenizer)
  }

  /** The number of leading rows that go to the summary: whole turns, while the rest is long and too costly. */
  function Dropped(tail: seq<StoredMessage>, budget: int, tokenizer: Tokenizer): (d: nat)
    ensures d <= |tail|
  {
    if |tail| <= 1 || !OverBudget(tail, budget, tokenizer) then 0
    else LeadingTurn(tail) + Dropped(tail[LeadingTurn(tail)..], budget, tokenizer)
  }

  lemma SliceTwice<T>(s: seq<T>, a: nat, b: nat)
    requires a + b <= |s|
    ensures s[a..][b..] == s[a + b..]
    ensures s[..a] + s[a..][..b] == s[..a + b]
  {
  }

  lemma MoveFront<T>(front: seq<T>, s: seq<T>, a: nat, b: nat)
    requires a + b <= |s|
    ensures front + s[..a] + s[a..][..b] == front + s[..a + b]
    ensures s[a..][b..] == s[a + b..]
  {
  }

  lemma SameFromLater(tail: seq<StoredMessage>, n: nat, k: nat, budget: int, tokenizer: Tokenizer)
    requires n <= |tail|
    ensures TooLongFrom(tail[n..], k, budget, tokenizer) == TooLongFrom(tail, n + k, budget, tokenizer)
  {
    if n + k < |tail| {
      SliceTwice(tail, n, k);
    }
  }

  /** One round: a tail that is too long loses its leading turn. */
  lemma DroppedStep(tail: seq<StoredMessage>, budget: int, tokenizer: Tokenizer) returns (n: nat)
    ensures if TooLongFrom(tail, 0, budget, tokenizer) then
              0 < n <= |tail| && TurnEnds(tail, n) && Dropped(tail, budget, tokenizer) == n + Dropped(tail[n..], budget, tokenizer)
            else Dropped(tail, budget, tokenizer) == 0
  {
    assert tail[0..] == tail;
    n := if tail == [] then 0 else LeadingTurn(tail);
  }

  /** The leading turn ends before row `n`. */
  predicate TurnEnds(tail: seq<StoredMessage>, n: nat) {
    (n < |tail| ==> tail[n].role == User) && forall k :: 1 <= k < n && k < |tail| ==> tail[k].role != User
  }

  /** What is left starts a turn, and is short enough in rows or cost. */
  lemma {:induction false} DroppedLeavesATurn(tail: seq<StoredMessage>, budget: int, tokenizer: Tokenizer)
    ensures var d := Dropped(tail, budget, tokenizer);
            (d < |tail| ==> TurnStart(tail, d)) && !TooLongFrom(tail, d, budget, tokenizer)
  {
    hide Dropped, TooLongFrom;
    var n := DroppedStep(tail, budget, tokenizer);
    if TooLongFrom(tail, 0, budget, tokenizer) {
      DroppedLeavesATurn(tail[n..], budget, tokenizer);
      SameFromLater(tail, n, Dropped(tail[n..], budget, tokenizer), budget, tokenizer);
    }
  }

  /** Every longer remainder that starts a turn was too costly: the tail keeps as much as fits. */
  lemma {:induction false} DroppedIsLeast(tail: seq<StoredMessage>, budget: int, tokenizer: Tokenizer, k: nat)
    requires k < Dropped(tail, budget, tokenizer) && TurnStart(tail, k)
    ensures TooLongFrom(tail, k, budget, tokenizer)
  {
    hide Dropped, TooLongFrom;
    var n := DroppedStep(tail, budget, tokenizer);
    if k >= n {
      assert TurnStart(tail[n..], k - n);
      DroppedIsLeast(tail[n..], budget, tokenizer, k - n);
      SameFromLater(tail, n, k - n, budget, tokenizer);
    } else {
      assert k == 0;
    }
  }

  function FitTail(input: CompactionInput, cfg: Config, tokenizer: Tokenizer): CompactionInput {
    if cfg.targetTokens.None? || cfg.targetTokens.value <= 0 then input
    else
      var budget := TailBudget(cfg.targetTokens.value, cfg);
      var d := Dropped(input.tail, budget, tokenizer);
      var tail := input.tail[d..];
      CompactionInput(
        input.compacted + input.tail[..d],
        if tail != [] && OverBudget(tail, budget, tokenizer) then [TruncatedRow(tail[0], budget, tokenizer)] else tail)
  }

  /** Moves whole turns out of the tail until it fits or a single row is left. */
  method MoveLeadingTurns(input: CompactionInput, budget: int, tokenizer: Tokenizer)
    returns (compacted: seq<StoredMessage>, tail: seq<StoredMessage>)
    ensures compacted == input.compacted + input.tail[..Dropped(input.tail, budget, tokenizer)]
    ensures tail == input.tail[Dropped(input.tail, budget, tokenizer)..]
  {
    compacted, tail := input.compacted, input.tail;
    ghost var moved := 0;
    while |tail| > 1 && tokenizer.count(tail) > budget
      invariant 0 <= moved <= |input.tail|
      invariant compacted == input.compacted + input.tail[..moved]
      invariant tail == input.tail[moved..]
      invariant Dropped(input.tail, budget, tokenizer) == moved + Dropped(tail, budget, tokenizer)
      decreases |tail|
    {
      var dropCount := CountLeadingTailTurnMessages(tail);
      MoveFront(input.compacted, input.tail, moved, dropCount);
      compacted := compacted + tail[..dropCount];
      tail := tail[dropCount..];
      moved := moved + dropCount;
    }
  }

  /** Fits the tail and truncates a last single row that is still too costly. */
  method FitTailToTargetBudget(input: CompactionInput, cfg: Config, tokenizer: Tokenizer) returns (r: CompactionInput)
    ensures r == FitTail(input, cfg, tokenizer)
  {
    if cfg.targetTokens.None? || cfg.targetTokens.value <= 0 {
      return input;
    }
    var budget := TailBudget(cfg.targetTokens.value, cfg);
    var compacted, tail := MoveLeadingTurns(input, budget, tokenizer);
    if tail != [] && tokenizer.count(tail) > budget {
      tail := [TruncatedRow(tail[0], budget, tokenizer)];
    }
    r := CompactionInput(compacted, tail);
  }

  function BuildInput(messages: seq<StoredMessage>, cfg: Config, allowMinimal: bool,
          tokenizer: Tokenizer): Option<CompactionInput> {
    var keep := if cfg.keepRecentUsers < 1 then 1 else cfg.keepRecentUsers;
    var split := SplitIndex(messages, keep);
    if messages == [] || (split == 0 && !allowMinimal) then None
    else
      var at := if split == 0 then |messages| else split;
      Some(FitTail(CompactionInput(messages[..at], messages[at..]), cfg, tokenizer))
  }

  method BuildCompactionInput(messages: seq<StoredMessage>, cfg: Config, allowMinimal: bool, tokenizer: Tokenizer)
    returns (r: Option<CompactionInput>)
    ensures r == BuildInput(messages, cfg, allowMinimal, tokenizer)
  {
    if messages == [] {
      return None;
    }
    var keep := if cfg.keepRecentUsers < 1 then 1 else cfg.keepRecentUsers;
    var split := SplitIndexForRecentUserMessages(messages, keep);
    if split <= 0 {
      if !allowMinimal {
        return None;
      }
      split := |messages|;
    }
    var input := FitTailToTargetBudget(CompactionInput(messages[..split], messages[split..]), cfg, tokenizer);
    if input.compacted == [] {
      return None;
    }
    r := Some(input);
  }

  // ---------- what the split guarantees ----------

  /** The rows of `messages` that the tail stands for. */
  function Kept(messages: seq<StoredMessage>, input: CompactionInput): seq<StoredMessage>
    requires |input.compacted| <= |messages|
  {
    messages[|input.compacted|..]
  }

  /** The tail is the kept rows themselves, or the truncation of the only one. */
  predicate TailStandsFor(tail: seq<StoredMessage>, kept: seq<StoredMessage>) {
    || tail == kept
    || (|tail| == |kept| == 1 && tail[0] == kept[0].(content := tail[0].content, compactionFacts := tail[0].compactionFacts))
  }

  function InitialSplit(messages: seq<StoredMessage>, cfg: Config): (at: nat)
    ensures at <= |messages|
  {
    var split := SplitIndex(messages, if cfg.keepRecentUsers < 1 then 1 else cfg.keepRecentUsers);
    if split == 0 then |messages| else split
  }

  /** The index in the history where the kept rows begin. */
  function KeptFrom(messages: seq<StoredMessage>, cfg: Config, tokenizer: Tokenizer): (k: nat)
    ensures k <= |messages|
  {
    var at := InitialSplit(messages, cfg);
    if cfg.targetTokens.None? || cfg.targetTokens.value <= 0 then at
    else at + Dropped(messages[at..], TailBudget(cfg.targetTokens.value, cfg), tokenizer)
  }

  lemma TruncatedStandsFor(m: StoredMessage, budget: int, tokenizer: Tokenizer)
    ensures TailStandsFor([TruncatedRow(m, budget, tokenizer)], [m])
  {
  }

  lemma FitTailSplits(front: seq<StoredMessage>, rest: seq<StoredMessage>, cfg: Config, tokenizer: Tokenizer)
    ensures var input := FitTail(CompactionInput(front, rest), cfg, tokenizer);
            var d := if cfg.targetTokens.None? || cfg.targetTokens.value <= 0 then 0 else Dropped(rest, TailBudget(cfg.targetTokens.value, cfg), tokenizer);
            input.compacted == front + rest[..d] && TailStandsFor(input.tail, rest[d..])
  {
    if cfg.targetTokens.Some? && cfg.targetTokens.value > 0 {
      var budget := TailBudget(cfg.targetTokens.value, cfg);
      DroppedLeavesATurn(rest, budget, tokenizer);
      var d := Dropped(rest, budget, tokenizer);
      hide Dropped, TruncatedRow;
      var tail := rest[d..];
      if tail != [] && OverBudget(tail, budget, tokenizer) {
        assert tail == [tail[0]];
        TruncatedStandsFor(tail[0], budget, tokenizer);
      }
    }
  }

  lemma SplitAtKept(messages: seq<StoredMessage>, cfg: Config, allowMinimal: bool, tokenizer: Tokenizer)
    requires BuildInput(messages, cfg, allowMinimal, tokenizer).Some?
    ensures var input := BuildInput(messages, cfg, allowMinimal, tokenizer).value;
            var k := KeptFrom(messages, cfg, tokenizer);
            0 < k && input.compacted == messages[..k] && TailStandsFor(input.tail, messages[k..])
  {
    hide FitTail, Dropped, TailStandsFor, SplitIndex;
    var at := InitialSplit(messages, cfg);
    FitTailSplits(messages[..at], messages[at..], cfg, tokenizer);
    SliceTwice(messages, at, KeptFrom(messages, cfg, tokenizer) - at);
  }

  lemma KeptStartsATurn(messages: seq<StoredMessage>, cfg: Config, tokenizer: Tokenizer)
    requires TypedRows(messages) && KeptFrom(messages, cfg, tokenizer) < |messages|
    ensures messages[KeptFrom(messages, cfg, tokenizer)].role == User
  {
    var at := InitialSplit(messages, cfg);
    assert TypedRow(messages[at]);
    if cfg.targetTokens.Some? && cfg.targetTokens.value > 0 {
      DroppedLeavesATurn(messages[at..], TailBudget(cfg.targetTokens.value, cfg), tokenizer);
    }
  }

  /**
   * Nothing is lost: summary input followed by kept rows is the whole history, something is always summarised,
   * and on well-typed rows the tail starts with the user's side of a turn.
   */
  lemma SplitConserves(messages: seq<StoredMessage>, cfg: Config, allowMinimal: bool, tokenizer: Tokenizer)
    requires BuildInput(messages, cfg, allowMinimal, tokenizer).Some?
    ensures var input := BuildInput(messages, cfg, allowMinimal, tokenizer).value;
            && 0 < |input.compacted| <= |messages|
            && input.compacted + Kept(messages, input) == messages
            && TailStandsFor(input.tail, Kept(messages, input))
            && (TypedRows(messages) && input.tail != [] ==> input.tail[0].role == User)
  {
    hide BuildInput, KeptFrom;
    SplitAtKept(messages, cfg, allowMinimal, tokenizer);
    if TypedRows(messages) && KeptFrom(messages, cfg, tokenizer) < |messages| {
      KeptStartsATurn(messages, cfg, tokenizer);
    }
  }

  /** Compaction declines only an empty history, or one whose oldest kept query is its first row or missing. */
  lemma DeclinesExactly(messages: seq<StoredMessage>, cfg: Config, allowMinimal: bool, tokenizer: Tokenizer)
    ensures BuildInput(messages, cfg, allowMinimal, tokenizer).None?
            <==> messages == [] || (!allowMinimal && (Queries(messages[1..]) < (if cfg.keepRecentUsers < 1 then 1 else cfg.keepRecentUsers)))
  {
    var keep: nat := if cfg.keepRecentUsers < 1 then 1 else cfg.keepRecentUsers;
    if messages != [] {
      if keep <= Queries(messages) {
        var r := QueryStart(messages, keep);
        if r == 0 {
          assert messages[0..] == messages;
        } else {
          assert messages[1..][r - 1..] == messages[r..];
          QueriesOfSuffix(messages[1..], r - 1);
        }
      }
    }
  }

  /** The tail that a positive target leaves. */
  lemma TailOfInput(messages: seq<StoredMessage>, cfg: Config, allowMinimal: bool, tokenizer: Tokenizer)
    requires BuildInput(messages, cfg, allowMinimal, tokenizer).Some?
    requires cfg.targetTokens.Some? && cfg.targetTokens.value > 0
    ensures var budget := TailBudget(cfg.targetTokens.value, cfg);
            var rest := messages[InitialSplit(messages, cfg)..];
            var tail := rest[Dropped(rest, budget, tokenizer)..];
            BuildInput(messages, cfg, allowMinimal, tokenizer).value.tail
              == if tail != [] && OverBudget(tail, budget, tokenizer) then [TruncatedRow(tail[0], budget, tokenizer)] else tail
  {
    hide Dropped, OverBudget, TruncatedRow, SplitIndex;
  }

  lemma EmptyCostsNothing()
    ensures EstimateRows([]) == 0
  {
  }

  lemma FallbackBudget(tail: seq<StoredMessage>, budget: int)
    ensures OverBudget(tail, budget, Fallback()) <==> EstimateRows(tail) > budget
  {
    hide EstimateRows;
  }

  lemma TruncatedMeetsBudget(m: StoredMessage, budget: int)
    requires budget >= 1 && EstimateRows([m]) > budget
    ensures EstimateRows([TruncatedRow(m, budget, Fallback())]) == budget
  {
    hide EstimateRows, FallbackTruncate, TRUNCATION_MARKER;
    TruncationMeetsLimit(m, budget);
  }

  /** Under the four-characters estimate a positive target bounds the tail. */
  lemma TailMeetsBudget(messages: seq<StoredMessage>, cfg: Config, allowMinimal: bool)
    requires BuildInput(messages, cfg, allowMinimal, Fallback()).Some?
    requires cfg.targetTokens.Some? && cfg.targetTokens.value > 0
    ensures EstimateRows(BuildInput(messages, cfg, allowMinimal, Fallback()).value.tail) <= TailBudget(cfg.targetTokens.value, cfg)
  {
    EmptyCostsNothing();
    hide BuildInput, InitialSplit, Dropped, EstimateRows, TruncatedRow, OverBudget, Fallback;
    var budget := TailBudget(cfg.targetTokens.value, cfg);
    var rest := messages[InitialSplit(messages, cfg)..];
    var tail := rest[Dropped(rest, budget, Fallback())..];
    TailOfInput(messages, cfg, allowMinimal, Fallback());
    DroppedLeavesATurn(rest, budget, Fallback());
    FallbackBudget(tail, budget);
    if tail != [] && OverBudget(tail, budget, Fallback()) {
      assert tail == [tail[0]];
      TruncatedMeetsBudget(tail[0], budget);
    }
  }

  // ---------- which rows are kept ----------

  /** The newest `keep` queries begin at row `i`; if they begin at the first row or there are fewer, nothing is recent. */
  predicate RecentFrom(messages: seq<StoredMessage>, keep: int, i: nat)
    requires messages != []
  {
    var n := if keep < 1 then 1 else keep;
    if Queries(messages[1..]) < n then i == |messages|
    else 0 < i < |messages| && messages[i].messageType == UserQuery && Queries(messages[i..]) == n
  }

  predicate TooLong(kept: seq<StoredMessage>, room: int, tokenizer: Tokenizer) {
    |kept| > 1 && tokenizer.count(kept) > room
  }

  /** A row that does not fit alone is cut by the tokenizer. */
  predicate CutAlone(row: StoredMessage, tail: seq<StoredMessage>, room: int, tokenizer: Tokenizer)
    requires room >= 1
  {
    var (text, cut) := tokenizer.truncate(row.content, room);
    |tail| == 1 && tail[0].content == if cut then text else row.content
  }

  /** Of the rows from `recent` on, the longest stretch that starts a turn and fits, or the last single row. */
  predicate FitsFrom(messages: seq<StoredMessage>, room: int, tokenizer: Tokenizer, recent: nat, from: nat)
    requires recent <= from <= |messages|
  {
    && !TooLong(messages[from..], room, tokenizer)
    && forall k :: recent <= k < from && (k == recent || messages[k].role == User) ==> TooLong(messages[k..], room, tokenizer)
  }

  predicate TailOf(kept: seq<StoredMessage>, tail: seq<StoredMessage>, room: int, tokenizer: Tokenizer)
    requires room >= 1
  {
    if |kept| == 1 && tokenizer.count(kept) > room then CutAlone(kept[0], tail, room, tokenizer) else tail == kept
  }

  lemma InitialSplitIsRecent(messages: seq<StoredMessage>, cfg: Config)
    requires messages != []
    ensures RecentFrom(messages, cfg.keepRecentUsers, InitialSplit(messages, cfg))
  {
    var keep: nat := if cfg.keepRecentUsers < 1 then 1 else cfg.keepRecentUsers;
    if keep <= Queries(messages) {
      var r := QueryStart(messages, keep);
      if r == 0 {
        assert messages[0..] == messages;
      } else {
        assert messages[1..][r - 1..] == messages[r..];
        QueriesOfSuffix(messages[1..], r - 1);
      }
    }
  }

  lemma TooLongAgrees(messages: seq<StoredMessage>, recent: nat, k: nat, room: int, tokenizer: Tokenizer)
    requires recent + k <= |messages|
    ensures TooLongFrom(messages[recent..], k, room, tokenizer) == TooLong(messages[recent + k..], room, tokenizer)
  {
    assert messages[recent..][k..] == messages[recent + k..];
  }

  lemma DroppedFits(messages: seq<StoredMessage>, recent: nat, room: int, tokenizer: Tokenizer)
    requires recent <= |messages|
    ensures FitsFrom(messages, room, tokenizer, recent, recent + Dropped(messages[recent..], room, tokenizer))
  {
    var rest := messages[recent..];
    var d := Dropped(rest, room, tokenizer);
    DroppedLeavesATurn(rest, room, tokenizer);
    hide Dropped, TooLong, TooLongFrom;
    TooLongAgrees(messages, recent, d, room, tokenizer);
    forall k: nat | recent <= k < recent + d && (k == recent || messages[k].role == User)
      ensures TooLong(messages[k..], room, tokenizer)
    {
      EarlierIsTooLong(messages, recent, room, tokenizer, k);
    }
  }

  lemma EarlierIsTooLong(messages: seq<StoredMessage>, recent: nat, room: int, tokenizer: Tokenizer, k: nat)
    requires recent <= k <= |messages| && k < recent + Dropped(messages[recent..], room, tokenizer)
    requires k == recent || messages[k].role == User
    ensures TooLong(messages[k..], room, tokenizer)
  {
    hide Dropped, TooLong, TooLongFrom;
    assert TurnStart(messages[recent..], k - recent);
    DroppedIsLeast(messages[recent..], room, tokenizer, k - recent);
    TooLongAgrees(messages, recent, k - recent, room, tokenizer);
  }

  lemma FitsStops(messages: seq<StoredMessage>, room: int, tokenizer: Tokenizer, recent: nat, from: nat)
    requires recent <= from <= |messages| && FitsFrom(messages, room, tokenizer, recent, from)
    ensures !TooLong(messages[from..], room, tokenizer)
  {
  }

  lemma FittedTail(rest: seq<StoredMessage>, room: int, tokenizer: Tokenizer)
    requires room >= 1 && !TooLong(rest, room, tokenizer)
    ensures TailOf(rest, if rest != [] && OverBudget(rest, room, tokenizer) then [TruncatedRow(rest[0], room, tokenizer)] else rest,
                   room, tokenizer)
  {
  }

  function Room(cfg: Config): (room: int)
    requires cfg.targetTokens.Some?
    ensures room >= 1
  {
    if cfg.targetTokens.value - cfg.summaryMaxTokens < 1 then 1 else cfg.targetTokens.value - cfg.summaryMaxTokens
  }

  lemma TargetedKeepsMost(messages: seq<StoredMessage>, cfg: Config, allowMinimal: bool, tokenizer: Tokenizer)
    requires BuildInput(messages, cfg, allowMinimal, tokenizer).Some?
    requires cfg.targetTokens.Some? && cfg.targetTokens.value > 0
    ensures var from := KeptFrom(messages, cfg, tokenizer);
            && FitsFrom(messages, Room(cfg), tokenizer, InitialSplit(messages, cfg), from)
            && TailOf(messages[from..], BuildInput(messages, cfg, allowMinimal, tokenizer).value.tail, Room(cfg), tokenizer)
  {
    hide BuildInput, InitialSplit, Dropped, TruncatedRow, OverBudget, TailOf, FitsFrom, TooLong;
    var recent, room := InitialSplit(messages, cfg), Room(cfg);
    var d := Dropped(messages[recent..], room, tokenizer);
    TailOfInput(messages, cfg, allowMinimal, tokenizer);
    DroppedFits(messages, recent, room, tokenizer);
    SliceTwice(messages, recent, d);
    FitsStops(messages, room, tokenizer, recent, recent + d);
    FittedTail(messages[recent + d..], room, tokenizer);
  }

  lemma UntargetedKeepsAll(messages: seq<StoredMessage>, cfg: Config, allowMinimal: bool, tokenizer: Tokenizer)
    requires BuildInput(messages, cfg, allowMinimal, tokenizer).Some?
    requires cfg.targetTokens.None? || cfg.targetTokens.value <= 0
    ensures BuildInput(messages, cfg, allowMinimal, tokenizer).value.tail == messages[InitialSplit(messages, cfg)..]
  {
    hide SplitIndex, Dropped;
  }

  /** The kept rows are the longest stretch that fits, out of those from row `recent` on. */
  predicate KeepsMost(messages: seq<StoredMessage>, cfg: Config, tokenizer: Tokenizer, recent: nat, from: nat,
          tail: seq<StoredMessage>)
    requires from <= |messages|
  {
    if cfg.targetTokens.None? || cfg.targetTokens.value <= 0 then from == recent && tail == messages[from..]
    else
      && recent <= from && FitsFrom(messages, Room(cfg), tokenizer, recent, from)
      && TailOf(messages[from..], tail, Room(cfg), tokenizer)
  }

  /**
   * The tail begins with the newest queries and, under a positive target, drops whole turns as long as it must; its
   * rows are unchanged unless a single one is left that does not fit.
   */
  lemma KeptIsMost(messages: seq<StoredMessage>, cfg: Config, allowMinimal: bool, tokenizer: Tokenizer)
    returns (recent: nat)
    requires BuildInput(messages, cfg, allowMinimal, tokenizer).Some?
    ensures messages != [] && RecentFrom(messages, cfg.keepRecentUsers, recent)
    ensures var input := BuildInput(messages, cfg, allowMinimal, tokenizer).value;
            |input.compacted| <= |messages| && KeepsMost(messages, cfg, tokenizer, recent, |input.compacted|, input.tail)
  {
    recent := InitialSplit(messages, cfg);
    SplitAtKept(messages, cfg, allowMinimal, tokenizer);
    NeverOfNothing(messages, cfg, allowMinimal, tokenizer);
    hide BuildInput, InitialSplit, Dropped, FitsFrom, TailOf, TailStandsFor, RecentFrom, Room;
    InitialSplitIsRecent(messages, cfg);
    if cfg.targetTokens.None? || cfg.targetTokens.value <= 0 {
      UntargetedKeepsAll(messages, cfg, allowMinimal, tokenizer);
    } else {
      TargetedKeepsMost(messages, cfg, allowMinimal, tokenizer);
    }
  }

  lemma NeverOfNothing(messages: seq<StoredMessage>, cfg: Config, allowMinimal: bool, tokenizer: Tokenizer)
    requires BuildInput(messages, cfg, allowMinimal, tokenizer).Some?
    ensures messages != []
  {
  }

  // ---------- installing the summary ----------

  function SummaryRow(summary: string, at: int): StoredMessage {
    var clean := if Blank(summary) then "Summary unavailable." else Strip(summary);
    StoredMessage(Assistant, SUMMARY_PREFIX + "\n" + clean, ContextCompaction, at, None, None, None, None, None)
  }

  /** The row is a compaction row that ends with the summary, or says that there is none. */
  predicate CarriesSummary(row: StoredMessage, summary: string) {
    && row.role == Assistant && row.messageType == ContextCompaction && row.toolCalls == None && row.toolCallId == None
    && row.toolName == None && row.imageRefs == None && row.compactionFacts == None
    && row.content == "[[CONTEXT COMPACTION SUMMARY]]" + "\n" + if AllSpace(summary) then "Summary unavailable." else Strip(summary)
  }

  lemma SummaryIsCarried(summary: string, at: int)
    ensures CarriesSummary(SummaryRow(summary, at), summary)
  {
    BlankIffSpace(summary);
    hide Strip, Blank, AllSpace;
  }

  /** Different summaries make different rows. */
  lemma SummariesDiffer(a: string, b: string, at: int)
    requires !AllSpace(a) && !AllSpace(b) && Strip(a) != Strip(b)
    ensures SummaryRow(a, at).content != SummaryRow(b, at).content
  {
    SummaryIsCarried(a, at);
    SummaryIsCarried(b, at);
    var marker := "[[CONTEXT COMPACTION SUMMARY]]" + "\n";
    assert (marker + Strip(a))[|marker|..] == Strip(a) && (marker + Strip(b))[|marker|..] == Strip(b);
    hide Strip, AllSpace, SummaryRow;
  }

  lemma SummaryRowIsTyped(summary: string, at: int)
    ensures TypedRow(SummaryRow(summary, at)) && Calls(SummaryRow(summary, at)) == []
  {
    VisibleStartIsNotBlank(SummaryRow(summary, at).content);
  }

  /** Replacement rows, when the history seen before the summary is still a prefix of the current one. */
  function Replacement(snapshot: seq<StoredMessage>, current: seq<StoredMessage>, summary: StoredMessage,
          tail: seq<StoredMessage>):
    Option<seq<StoredMessage>>
  {
    if snapshot <= current then Some([summary] + tail + current[|snapshot|..]) else None
  }

  function AfterCommit(now: HistoryState, snapshot: seq<StoredMessage>, summary: StoredMessage,
          tail: seq<StoredMessage>): HistoryState {
    match Replacement(snapshot, now.rows, summary, tail)
    case None => now
    case Some(rows) => AfterReplace(now, rows)
  }

  /** One history operation, as any other task may perform it. */
  method Perform(history: ConversationHistory, op: Op)
    modifies history
    ensures history.State() == Apply(old(history.State()), op)
  {
    match op
    case AddUser(content, at, refs) => history.AddUserMessage(content, at, refs);
    case AddOutput(content, at, name, facts) => history.AddToolOutput(content, at, name, facts);
    case AddAssistant(content, at, calls) => history.AddAssistantMessage(content, at, calls);
    case Stage(ids, consumeAll) => history.StageToolCallIds(ids, consumeAll);
    case Cancel(content, at) => var _ := history.FinalizePendingToolCallsAsCancelled(content, at);
    case Count(model) => var _ := history.GetTokenCount(model);
    case Clear => history.Clear();
    case Replace(rows) => history.ReplaceWithStoredMessages(rows);
    case SetPrompt(prompt) => history.systemPrompt := prompt;
  }

  class CompactionEngine {
    const history: ConversationHistory
    const cfg: Config
    const tokenizer: Tokenizer
    var lastProviderPromptTokens: Option<int>

    constructor (history: ConversationHistory, cfg: Config, tokenizer: Tokenizer)
      ensures this.history == history && this.cfg == cfg && this.tokenizer == tokenizer
      ensures lastProviderPromptTokens == None
    {
      this.history, this.cfg, this.tokenizer := history, cfg, tokenizer;
      lastProviderPromptTokens := None;
    }

    /** Keeps the largest positive prompt size a provider has reported. */
    method RecordProviderPromptTokens(promptTokens: Option<int>)
      modifies this
      ensures promptTokens.None? || promptTokens.value <= 0 ==> lastProviderPromptTokens == old(lastProviderPromptTokens)
      ensures promptTokens.Some? && promptTokens.value > 0 ==>
                && lastProviderPromptTokens.Some?
                && lastProviderPromptTokens.value >= promptTokens.value
                && (old(lastProviderPromptTokens).Some? ==> lastProviderPromptTokens.value >= old(lastProviderPromptTokens).value)
                && lastProviderPromptTokens in {promptTokens, old(lastProviderPromptTokens)}
    {
      if promptTokens.None? || promptTokens.value <= 0 {
        return;
      }
      if lastProviderPromptTokens.None? || promptTokens.value > lastProviderPromptTokens.value {
        lastProviderPromptTokens := promptTokens;
      }
    }

    /**
     * One compaction. While the summary is being generated the other tasks perform `meanwhile` on the history;
     * the replacement is installed only over a history that still starts with the rows that were summarised.
     */
    method Compact(shouldCompact: bool, allowMinimal: bool, meanwhile: seq<Op>, summaryText: string, at: int)
      returns (outcome: Outcome)
      modifies this, history
      ensures var before := old(history.State());
              var input := BuildInput(before.rows, cfg, allowMinimal, tokenizer);
              if !shouldCompact || input.None? then
                && history.State() == before
                && outcome == Skipped(if shouldCompact then InsufficientHistory else Blocked)
              else
                var now := Run(before, meanwhile);
                && history.State() == AfterCommit(now, before.rows, SummaryRow(summaryText, at), input.value.tail)
                && (outcome.Installed? <==> before.rows <= now.rows)
                && (outcome.Installed? ==> outcome.replacement == history.State().rows)
                && (outcome.Installed? ==> outcome.removed == if |before.rows| < |outcome.replacement| then 0 else |before.rows| - |outcome.replacement|)
                && (outcome.Skipped? ==> outcome.reason == HistoryChanged)
      ensures outcome.Installed? ==> outcome.replacement != [] && CarriesSummary(outcome.replacement[0], summaryText)
      ensures lastProviderPromptTokens == if outcome.Installed? then None else old(lastProviderPromptTokens)
    {
      SummaryIsCarried(summaryText, at);
      hide Run, BuildInput, SummaryRow, ToLlmAll, CarriesSummary;
      if !shouldCompact {
        return Skipped(Blocked);
      }
      var snapshot := history.history;
      var input := BuildCompactionInput(snapshot, cfg, allowMinimal, tokenizer);
      if input.None? {
        return Skipped(InsufficientHistory);
      }
      PerformAll(history, meanwhile);
      outcome := Commit(snapshot, SummaryRow(summaryText, at), input.value.tail);
    }

    /** Installs the replacement if the history has only grown since the snapshot. */
    method Commit(snapshot: seq<StoredMessage>, summary: StoredMessage, tail: seq<StoredMessage>)
      returns (outcome: Outcome)
      modifies this, history
      ensures history.State() == AfterCommit(old(history.State()), snapshot, summary, tail)
      ensures outcome.Installed? <==> snapshot <= old(history.history)
      ensures outcome.Installed? ==> outcome.replacement == history.history
      ensures outcome.Installed? ==> outcome.removed == if |snapshot| < |outcome.replacement| then 0 else |snapshot| - |outcome.replacement|
      ensures outcome.Skipped? ==> outcome.reason == HistoryChanged
      ensures lastProviderPromptTokens == if outcome.Installed? then None else old(lastProviderPromptTokens)
    {
      hide ToLlmAll;
      var replacement := [summary] + tail;
      var current := history.history;
      if current != snapshot {
        if |snapshot| <= |current| && current[..|snapshot|] == snapshot {
          replacement := replacement + current[|snapshot|..];
        } else {
          return Skipped(HistoryChanged);
        }
      }
      assert snapshot <= current && replacement == [summary] + tail + current[|snapshot|..];
      history.ReplaceWithStoredMessages(replacement);
      lastProviderPromptTokens := None;
      outcome := Installed(replacement, if |snapshot| < |replacement| then 0 else |snapshot| - |replacement|);
    }
  }

  /** The other tasks' operations, one after the other. */
  method PerformAll(history: ConversationHistory, ops: seq<Op>)
    modifies history
    ensures history.State() == Run(old(history.State()), ops)
  {
    hide Apply;
    for k := 0 to |ops|
      invariant history.State() == Run(old(history.State()), ops[..k])
    {
      assert ops[..k + 1][..k] == ops[..k];
      Perform(history, ops[k]);
    }
    assert ops[..|ops|] == ops;
  }

  /**
   * Whatever the history has become when the summary is ready, committing either leaves it alone or turns it into
   * summary, kept tail and every row appended meanwhile, in order; and it does the latter exactly when the rows
   * that were summarised are still there.
   */
  lemma CommitIsAllOrNothing(before: HistoryState, now: HistoryState, cfg: Config, allowMinimal: bool,
          tokenizer: Tokenizer, summary: StoredMessage)
    requires BuildInput(before.rows, cfg, allowMinimal, tokenizer).Some?
    ensures var input := BuildInput(before.rows, cfg, allowMinimal, tokenizer).value;
            var after := AfterCommit(now, before.rows, summary, input.tail);
            if before.rows <= now.rows then
              var appended := now.rows[|before.rows|..];
              && now.rows == input.compacted + Kept(before.rows, input) + appended
              && after.rows == [summary] + input.tail + appended
              && TailStandsFor(input.tail, Kept(before.rows, input))
            else
              after == now
  {
    SplitConserves(before.rows, cfg, allowMinimal, tokenizer);
    if before.rows <= now.rows {
      PrefixAndRest(before.rows, now.rows);
    }
  }

  /** If the other tasks only appended, the summary is installed and keeps every row they appended. */
  lemma AppendingNeverBlocksCommit(before: HistoryState, meanwhile: seq<Op>, summary: StoredMessage,
          tail: seq<StoredMessage>)
    requires forall i :: 0 <= i < |meanwhile| ==> Appends(meanwhile[i])
    ensures var now := Run(before, meanwhile);
            && before.rows <= now.rows
            && AfterCommit(now, before.rows, summary, tail).rows == [summary] + tail + now.rows[|before.rows|..]
  {
    AppendingKeepsPrefix(before, meanwhile);
  }

  lemma PrefixAndRest<T>(a: seq<T>, b: seq<T>)
    requires a <= b
    ensures a + b[|a|..] == b
  {
  }
}
