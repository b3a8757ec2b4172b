/** The transcript shown to the model that summarises a conversation, cut down to a number of characters. */
module Transcript {
  import opened Messages
  import Picking

  datatype Block = Block(text: string, signal: bool, messageType: MessageType)

  const EARLIER := "[Earlier Context]\n"
  const MIDDLE := "[Sampled Middle Context]\n"
  const RECENT := "[Most Recent Context]\n"
  const NO_MESSAGES := "(no prior messages)"
  const CUT := "...\n"

  function Max(a: int, b: int): int {
    if a >= b then a else b
  }

  /** Characters of the first `n` blocks. */
  function Chars(blocks: seq<Block>, n: nat): nat
    requires n <= |blocks|
  {
    if n == 0 then 0 else Chars(blocks, n - 1) + |blocks[n - 1].text|
  }

  function Joined(blocks: seq<Block>, n: nat): (text: string)
    requires n <= |blocks|
    ensures |text| == Chars(blocks, n)
  {
    if n == 0 then "" else Joined(blocks, n - 1) + blocks[n - 1].text
  }

  function Text(blocks: seq<Block>): string {
    Joined(blocks, |blocks|)
  }

  function Length(blocks: seq<Block>): nat {
    Chars(blocks, |blocks|)
  }

  predicate NonEmptyTexts(blocks: seq<Block>) {
    forall k :: 0 <= k < |blocks| ==> blocks[k].text != ""
  }

  /** A block cut to the budget; next to nothing is not worth showing. */
  function Truncated(b: Block, budget: int): (r: Block)
    ensures |r.text| <= Max(budget, 0)
    ensures budget > 8 && b.text != "" ==> r.text != ""
  {
    if |b.text| <= budget then b
    else if budget <= 8 then b.(text := "")
    else b.(text := b.text[..budget - 4] + CUT)
  }

  function Shown(blocks: seq<Block>): (r: seq<Block>)
    ensures |r| <= |blocks|
  {
    if blocks == [] then []
    else Shown(blocks[..|blocks| - 1]) + if blocks[|blocks| - 1].text != "" then [blocks[|blocks| - 1]] else []
  }

  lemma {:induction false} ShownKeepsNonEmpty(blocks: seq<Block>)
    requires NonEmptyTexts(blocks)
    ensures Shown(blocks) == blocks
  {
    if blocks != [] {
      ShownKeepsNonEmpty(blocks[..|blocks| - 1]);
    }
  }

  // ---------- taking whole blocks ----------

  /** How many blocks fit, counting from `n` blocks that do. */
  function Fit(blocks: seq<Block>, budget: int, n: nat): (r: nat)
    requires n <= |blocks|
    ensures n <= r <= |blocks|
    decreases |blocks| - n
  {
    if n < |blocks| && Chars(blocks, n + 1) <= budget then Fit(blocks, budget, n + 1) else n
  }

  /** As many leading blocks as fit; a first block that is too long is cut instead. */
  function FromStart(blocks: seq<Block>, budget: int): (r: seq<Block>)
    ensures |r| <= |blocks|
  {
    if budget <= 0 || blocks == [] then []
    else if |blocks[0].text| > budget then Shown([Truncated(blocks[0], budget)])
    else Shown(blocks[..Fit(blocks, budget, 1)])
  }

  function Reversed(blocks: seq<Block>): (r: seq<Block>)
    ensures |r| == |blocks|
    ensures forall k :: 0 <= k < |blocks| ==> r[k] == blocks[|blocks| - 1 - k]
  {
    seq(|blocks|, k requires 0 <= k < |blocks| => blocks[|blocks| - 1 - k])
  }

  function FromEnd(blocks: seq<Block>, budget: int): (r: seq<Block>)
    ensures |r| <= |blocks|
  {
    Reversed(FromStart(Reversed(blocks), budget))
  }

  method TakeFromStart(blocks: seq<Block>, budget: int) returns (taken: seq<Block>)
    ensures taken == FromStart(blocks, budget)
  {
    if budget <= 0 {
      return [];
    }
    var selected: seq<Block> := [];
    var consumed := 0;
    var n := 0;
    while n < |blocks|
      invariant 0 <= n <= |blocks|
      invariant selected == blocks[..n] && consumed == Chars(blocks, n)
      invariant n == 0 || (|blocks[0].text| <= budget && Fit(blocks, budget, 1) == Fit(blocks, budget, n))
    {
      var length := |blocks[n].text|;
      if selected != [] && consumed + length > budget {
        break;
      }
      if selected == [] && length > budget {
        return Shown([Truncated(blocks[n], budget)]);
      }
      selected := selected + [blocks[n]];
      consumed := consumed + length;
      n := n + 1;
    }
    taken := Shown(selected);
    assert n == 0 ==> Shown([]) == [];
  }

  method TakeFromEnd(blocks: seq<Block>, budget: int) returns (taken: seq<Block>)
    ensures taken == FromEnd(blocks, budget)
  {
    var reversed := TakeFromStart(Reversed(blocks), budget);
    taken := Reversed(reversed);
  }

  // ---------- the three sections ----------

  /** The share of a budget as a product with a fraction, rounded down; the fraction itself is inexact. */
  predicate IsShare(share: nat, percent: nat, budget: nat) {
    percent * budget < 100 * share + 200 && 100 * share <= percent * budget + 100
  }

  datatype Budgets = Budgets(head: nat, middle: nat, tail: nat)

  function BudgetsFor(maxChars: int, headShare: nat, tailShare: nat): Budgets {
    var available := Available(maxChars);
    var head, tail := Max(256, headShare), Max(256, tailShare);
    Budgets(head, Max(0, available - head - tail), tail)
  }

  function Available(maxChars: int): nat {
    Max(256, maxChars - (|EARLIER| + |MIDDLE| + |RECENT|))
  }

  predicate IsCandidate(b: Block) {
    b.signal || b.messageType == UserQuery || b.messageType == ContextCompaction
  }

  function Candidates(blocks: seq<Block>): seq<Block> {
    if blocks == [] then []
    else Candidates(blocks[..|blocks| - 1]) + if IsCandidate(blocks[|blocks| - 1]) then [blocks[|blocks| - 1]] else []
  }

  datatype Sections = Sections(head: seq<Block>, middle: seq<Block>, tail: seq<Block>)

  function SectionsOf(blocks: seq<Block>, b: Budgets): Sections {
    var head := FromStart(blocks, b.head);
    var tail := FromEnd(blocks[|head|..], b.tail);
    var source := blocks[|head|..|blocks| - |tail|];
    var picks := Candidates(source);
    Sections(head, FromStart(if picks != [] then picks else source, b.middle), tail)
  }

  function Labelled(heading: string, blocks: seq<Block>): string {
    if blocks == [] then "" else heading + Text(blocks)
  }

  function Assembled(s: Sections): string {
    Labelled(EARLIER, s.head) + Labelled(MIDDLE, s.middle) + Labelled(RECENT, s.tail)
  }

  function CutTo(text: string, maxChars: int): string {
    if |text| <= maxChars then text else text[..Max(0, maxChars - 4)] + CUT
  }

  /** The transcript for the blocks of a conversation. */
  function Rendered(blocks: seq<Block>, maxChars: int, headShare: nat, tailShare: nat): string {
    if blocks == [] then NO_MESSAGES
    else if Length(blocks) <= maxChars then Text(blocks)
    else CutTo(Assembled(SectionsOf(blocks, BudgetsFor(maxChars, headShare, tailShare))), maxChars)
  }

  method AddSection(parts: string, heading: string, blocks: seq<Block>) returns (longer: string)
    ensures longer == parts + Labelled(heading, blocks)
  {
    longer := parts;
    if blocks != [] {
      longer := longer + heading;
      for k := 0 to |blocks|
        invariant longer == parts + (heading + Joined(blocks, k))
      {
        longer := longer + blocks[k].text;
      }
    } else {
      assert parts + "" == parts;
    }
  }

  method Assemble(s: Sections) returns (parts: string)
    ensures parts == Assembled(s)
  {
    hide Labelled;
    parts := AddSection("", EARLIER, s.head);
    parts := AddSection(parts, MIDDLE, s.middle);
    parts := AddSection(parts, RECENT, s.tail);
    assert "" + Labelled(EARLIER, s.head) == Labelled(EARLIER, s.head);
  }

  method RenderSegmentedHistory(blocks: seq<Block>, maxChars: int, headShare: nat, tailShare: nat)
    returns (rendered: string)
    ensures rendered == CutTo(Assembled(SectionsOf(blocks, BudgetsFor(maxChars, headShare, tailShare))), maxChars)
  {
    hide FromStart, FromEnd, Text, Shown, Assembled, BudgetsFor, CutTo;
    var b := BudgetsFor(maxChars, headShare, tailShare);
    var head := TakeFromStart(blocks, b.head);
    var headEnd := |head|;
    var tail := TakeFromEnd(blocks[headEnd..], b.tail);
    var tailStart := |blocks| - |tail|;
    var source := blocks[headEnd..tailStart];
    var candidates := Candidates(source);
    var middle := TakeFromStart(if candidates != [] then candidates else source, b.middle);
    var parts := Assemble(Sections(head, middle, tail));
    rendered := CutTo(parts, maxChars);
  }

  // ---------- what the cut guarantees ----------

  lemma {:induction false} CharsOfPrefix(blocks: seq<Block>, m: nat, n: nat)
    requires n <= m <= |blocks|
    ensures Chars(blocks[..m], n) == Chars(blocks, n)
  {
    if n > 0 {
      CharsOfPrefix(blocks, m, n - 1);
    }
  }

  lemma {:induction false} FitFits(blocks: seq<Block>, budget: int, n: nat)
    requires n <= |blocks| && Chars(blocks, n) <= budget
    ensures Chars(blocks, Fit(blocks, budget, n)) <= budget
    ensures Fit(blocks, budget, n) < |blocks| ==> Chars(blocks, Fit(blocks, budget, n) + 1) > budget
    decreases |blocks| - n
  {
    if n < |blocks| && Chars(blocks, n + 1) <= budget {
      FitFits(blocks, budget, n + 1);
    }
  }

  /** Whole leading blocks, as many as fit, or a single cut one. */
  predicate IsPrefixPick(blocks: seq<Block>, budget: int, taken: seq<Block>)
    requires 0 < |taken| <= |blocks|
  {
    || (taken == blocks[..|taken|] && (|taken| < |blocks| ==> Chars(blocks, |taken| + 1) > budget))
    || (|taken| == 1 && taken[0] == Truncated(blocks[0], budget))
  }

  lemma StartIsWithinBudget(blocks: seq<Block>, budget: int)
    requires NonEmptyTexts(blocks)
    ensures var taken := FromStart(blocks, budget);
            && Length(taken) <= Max(budget, 0) && NonEmptyTexts(taken)
            && |taken| <= |blocks| && (taken != [] ==> IsPrefixPick(blocks, budget, taken))
            && (budget > 8 && blocks != [] ==> taken != [])
  {
    if budget > 0 && blocks != [] {
      if |blocks[0].text| > budget {
        var cut := Truncated(blocks[0], budget);
        OneShown(cut);
        assert FromStart(blocks, budget) == Shown([cut]);
        hide FromStart, Chars, Shown;
      } else {
        var n := Fit(blocks, budget, 1);
        assert Chars(blocks, 0) == 0;
        FitFits(blocks, budget, 1);
        ShownKeepsNonEmpty(blocks[..n]);
        CharsOfPrefix(blocks, n, n);
      }
    } else {
      assert Length([]) == 0;
    }
  }

  lemma OneShown(b: Block)
    ensures Shown([b]) == if b.text != "" then [b] else []
    ensures Length([b]) == |b.text| && Length([]) == 0
  {
    assert [b][..0] == [] && Shown([]) == [];
    assert Chars([b], 0) == 0 && Chars([b], 1) == |b.text|;
  }

  lemma {:induction false} ReversedChars(blocks: seq<Block>, n: nat)
    requires n <= |blocks|
    ensures Chars(Reversed(blocks), n) == Chars(blocks, |blocks|) - Chars(blocks, |blocks| - n)
  {
    if n > 0 {
      ReversedChars(blocks, n - 1);
    }
  }

  lemma EndIsWithinBudget(blocks: seq<Block>, budget: int)
    requires NonEmptyTexts(blocks)
    ensures var taken := FromEnd(blocks, budget);
            Length(taken) <= Max(budget, 0) && NonEmptyTexts(taken)
  {
    var reversed := FromStart(Reversed(blocks), budget);
    StartIsWithinBudget(Reversed(blocks), budget);
    ReversedChars(reversed, |reversed|);
  }

  lemma {:induction false} CandidatesAreNonEmpty(blocks: seq<Block>)
    requires NonEmptyTexts(blocks)
    ensures NonEmptyTexts(Candidates(blocks))
  {
    if blocks != [] {
      CandidatesAreNonEmpty(blocks[..|blocks| - 1]);
    }
  }

  lemma SectionsAreWithinBudgets(blocks: seq<Block>, b: Budgets)
    requires NonEmptyTexts(blocks)
    ensures var s := SectionsOf(blocks, b);
            Length(s.head) <= b.head && Length(s.middle) <= b.middle && Length(s.tail) <= b.tail
  {
    hide FromStart, FromEnd, Chars;
    var head := FromStart(blocks, b.head);
    var tail := FromEnd(blocks[|head|..], b.tail);
    var source := blocks[|head|..|blocks| - |tail|];
    StartIsWithinBudget(blocks, b.head);
    EndIsWithinBudget(blocks[|head|..], b.tail);
    CandidatesAreNonEmpty(source);
    StartIsWithinBudget(source, b.middle);
    StartIsWithinBudget(Candidates(source), b.middle);
  }

  lemma AssembledLength(s: Sections)
    ensures |Assembled(s)| <= 65 + Length(s.head) + Length(s.middle) + Length(s.tail)
  {
    assert |EARLIER| == 18 && |MIDDLE| == 25 && |RECENT| == 22;
    hide Chars;
  }

  /** From 577 characters on the three budgets use exactly what the headings leave. */
  lemma BudgetsAddUp(maxChars: int, headShare: nat, tailShare: nat)
    requires maxChars >= 577 && IsShare(headShare, 28, Available(maxChars)) && IsShare(tailShare, 47, Available(maxChars))
    ensures var b := BudgetsFor(maxChars, headShare, tailShare);
            b.head + b.middle + b.tail == Available(maxChars) == maxChars - 65
  {
    assert |EARLIER| == 18 && |MIDDLE| == 25 && |RECENT| == 22;
  }

  /** With 577 characters or more the assembled sections are shown in full. */
  lemma FinalCutNeverFires(blocks: seq<Block>, maxChars: int, headShare: nat, tailShare: nat)
    requires NonEmptyTexts(blocks) && maxChars >= 577
    requires IsShare(headShare, 28, Available(maxChars)) && IsShare(tailShare, 47, Available(maxChars))
    ensures var text := Assembled(SectionsOf(blocks, BudgetsFor(maxChars, headShare, tailShare)));
            |text| <= maxChars && CutTo(text, maxChars) == text
  {
    var b := BudgetsFor(maxChars, headShare, tailShare);
    BudgetsAddUp(maxChars, headShare, tailShare);
    SectionsAreWithinBudgets(blocks, b);
    AssembledLength(SectionsOf(blocks, b));
    hide SectionsOf, Assembled, BudgetsFor, Available, Chars;
  }

  /** Below that the final cut may fire: here the two shares alone need 512 characters. */
  lemma BudgetsCollideBelow(maxChars: int, headShare: nat, tailShare: nat)
    requires maxChars < 577
    ensures var b := BudgetsFor(maxChars, headShare, tailShare);
            b.head + b.middle + b.tail >= 512 && b.head + b.middle + b.tail + 65 > maxChars
  {
    assert |EARLIER| == 18 && |MIDDLE| == 25 && |RECENT| == 22;
  }

  /** Whatever the blocks and the shares, the transcript of a conversation stays within its limit. */
  lemma TranscriptIsBounded(blocks: seq<Block>, maxChars: int, headShare: nat, tailShare: nat)
    requires blocks != []
    ensures |Rendered(blocks, maxChars, headShare, tailShare)| <= Max(maxChars, 4)
  {
    hide SectionsOf, Assembled, BudgetsFor;
  }

  // ---------- what is shown ----------

  /** The block itself, or its beginning with a mark where it was cut. */
  predicate Shows(shown: Block, original: Block) {
    || shown == original
    || (4 <= |shown.text| < |original.text| && shown == original.(text := original.text[..|shown.text| - 4] + CUT))
  }

  /** The shown blocks are taken from the places `at`, in rising order within the bounds. */
  predicate Picks(blocks: seq<Block>, shown: seq<Block>, at: seq<nat>, from: nat, to: nat) {
    && |at| == |shown|
    && (forall k :: 0 <= k < |at| ==> from <= at[k] < to <= |blocks| && Shows(shown[k], blocks[at[k]]))
    && (forall j, k :: 0 <= j < k < |at| ==> at[j] < at[k])
  }

  lemma TruncatedShows(b: Block, budget: int)
    requires Truncated(b, budget).text != ""
    ensures Shows(Truncated(b, budget), b)
  {
  }

  /** Positions of the blocks taken from the start: the first ones. */
  lemma StartPicks(blocks: seq<Block>, budget: int)
    requires NonEmptyTexts(blocks)
    ensures var taken := FromStart(blocks, budget);
            forall k :: 0 <= k < |taken| ==> Shows(taken[k], blocks[k])
  {
    StartIsWithinBudget(blocks, budget);
    var taken := FromStart(blocks, budget);
    if taken != [] && taken != blocks[..|taken|] {
      TruncatedShows(blocks[0], budget);
    }
  }

  function Range(from: nat, n: nat): (r: seq<nat>)
    ensures |r| == n && forall k :: 0 <= k < n ==> r[k] == from + k
  {
    seq(n, k requires 0 <= k < n => from + k)
  }

  lemma HeadPicks(blocks: seq<Block>, budget: int) returns (at: seq<nat>)
    requires NonEmptyTexts(blocks)
    ensures Picks(blocks, FromStart(blocks, budget), at, 0, |FromStart(blocks, budget)|)
  {
    hide Shows, FromStart;
    StartPicks(blocks, budget);
    at := Range(0, |FromStart(blocks, budget)|);
  }

  lemma TailPicks(blocks: seq<Block>, skip: nat, budget: int) returns (at: seq<nat>)
    requires NonEmptyTexts(blocks) && skip <= |blocks|
    ensures var taken := FromEnd(blocks[skip..], budget);
            Picks(blocks, taken, at, |blocks| - |taken|, |blocks|)
  {
    hide Shows, FromStart;
    var rest := blocks[skip..];
    StartPicks(Reversed(rest), budget);
    var taken := FromEnd(rest, budget);
    var reversed := FromStart(Reversed(rest), budget);
    at := Range(|blocks| - |taken|, |taken|);
    forall k | 0 <= k < |taken|
      ensures Shows(taken[k], blocks[at[k]])
    {
      var n := |taken| - 1 - k;
      assert taken[k] == reversed[n] && Reversed(rest)[n] == rest[|rest| - 1 - n] == blocks[at[k]];
    }
  }

  lemma {:induction false} CandidatePositions(blocks: seq<Block>) returns (at: seq<nat>)
    ensures |at| == |Candidates(blocks)|
    ensures forall k :: 0 <= k < |at| ==> at[k] < |blocks| && Candidates(blocks)[k] == blocks[at[k]]
    ensures forall j, k :: 0 <= j < k < |at| ==> at[j] < at[k]
  {
    at := [];
    if blocks != [] {
      var front := blocks[..|blocks| - 1];
      assert Candidates(blocks) == Candidates(front) + if IsCandidate(blocks[|blocks| - 1]) then [blocks[|blocks| - 1]] else [];
      hide IsCandidate, Candidates;
      at := CandidatePositions(front);
      assert forall k :: 0 <= k < |at| ==> front[at[k]] == blocks[at[k]];
      if IsCandidate(blocks[|blocks| - 1]) {
        at := at + [|blocks| - 1];
      }
    }
  }

  lemma MiddlePicks(blocks: seq<Block>, from: nat, to: nat, budget: int) returns (at: seq<nat>)
    requires NonEmptyTexts(blocks) && from <= to <= |blocks|
    ensures var source := blocks[from..to];
            var picks := if Candidates(source) != [] then Candidates(source) else source;
            Picks(blocks, FromStart(picks, budget), at, from, to)
  {
    hide Shows, FromStart, Candidates;
    var source := blocks[from..to];
    var places := CandidatePositions(source);
    if Candidates(source) == [] {
      places := Range(0, |source|);
    }
    var picks := if Candidates(source) != [] then Candidates(source) else source;
    CandidatesAreNonEmpty(source);
    StartPicks(picks, budget);
    at := Shifted(places, from, |FromStart(picks, budget)|);
    ShiftedPicks(blocks, from, to, picks, places, FromStart(picks, budget));
  }

  function Shifted(places: seq<nat>, offset: nat, n: nat): (r: seq<nat>)
    requires n <= |places|
    ensures |r| == n && forall k :: 0 <= k < n ==> r[k] == offset + places[k]
  {
    seq(n, k requires 0 <= k < n => offset + places[k])
  }

  lemma ShiftedPicks(blocks: seq<Block>, from: nat, to: nat, picks: seq<Block>, places: seq<nat>, taken: seq<Block>)
    requires from <= to <= |blocks| && |taken| <= |picks| == |places|
    requires forall k :: 0 <= k < |places| ==> places[k] < to - from && picks[k] == blocks[from..to][places[k]]
    requires forall j, k :: 0 <= j < k < |places| ==> places[j] < places[k]
    requires forall k :: 0 <= k < |taken| ==> Shows(taken[k], picks[k])
    ensures Picks(blocks, taken, Shifted(places, from, |taken|), from, to)
  {
    hide Shows;
    var at := Shifted(places, from, |taken|);
    forall k | 0 <= k < |taken|
      ensures from <= at[k] < to && Shows(taken[k], blocks[at[k]])
    {
      assert blocks[from..to][places[k]] == blocks[at[k]];
    }
  }

  /** Head, middle and tail are picked from three stretches of the conversation that follow each other. */
  lemma SectionsAreDisjointAndInOrder(blocks: seq<Block>, b: Budgets) returns (head: seq<nat>, middle: seq<nat>,
          tail: seq<nat>)
    requires NonEmptyTexts(blocks)
    ensures var s := SectionsOf(blocks, b);
            var from, to := |s.head|, |blocks| - |s.tail|;
            from <= to && Picks(blocks, s.head, head, 0, from) && Picks(blocks, s.middle, middle, from, to)
            && Picks(blocks, s.tail, tail, to, |blocks|)
  {
    hide FromStart, FromEnd, Picks;
    var first := FromStart(blocks, b.head);
    var last := FromEnd(blocks[|first|..], b.tail);
    head := HeadPicks(blocks, b.head);
    tail := TailPicks(blocks, |first|, b.tail);
    middle := MiddlePicks(blocks, |first|, |blocks| - |last|, b.middle);
  }

  // ---------- how much is shown ----------

  /** Joined text holds every block's text, one behind the other. */
  lemma {:induction false} EachBlockIsJoined(blocks: seq<Block>, n: nat, k: nat)
    requires k < n <= |blocks|
    ensures 0 <= Chars(blocks, k) <= Chars(blocks, k + 1) <= |Joined(blocks, n)|
    ensures Joined(blocks, n)[Chars(blocks, k)..Chars(blocks, k + 1)] == blocks[k].text
    decreases n
  {
    var front := Joined(blocks, n - 1);
    if k < n - 1 {
      EachBlockIsJoined(blocks, n - 1, k);
      assert Joined(blocks, n)[..|front|] == front;
      assert Joined(blocks, n)[Chars(blocks, k)..Chars(blocks, k + 1)] == front[Chars(blocks, k)..Chars(blocks, k + 1)];
    }
  }

  /** A conversation that is short enough is shown as it is. */
  lemma ShortConversationIsShown(blocks: seq<Block>, maxChars: int, headShare: nat, tailShare: nat, k: nat)
    requires k < |blocks| && Length(blocks) <= maxChars
    ensures var text := Rendered(blocks, maxChars, headShare, tailShare);
            && |text| == Length(blocks) && Chars(blocks, k) <= Chars(blocks, k + 1) <= |text|
            && text[Chars(blocks, k)..Chars(blocks, k + 1)] == blocks[k].text
  {
    EachBlockIsJoined(blocks, |blocks|, k);
    hide Joined;
  }

  /** A text that is too long becomes its beginning and the mark, of exactly the length asked for. */
  predicate CutText(text: string, length: int, cut: string) {
    4 <= length <= |text| && |cut| == length && cut[..length - 4] == text[..length - 4] && cut[length - 4..] == "...\n"
  }

  /** As many leading blocks as fit, or the beginning of the first. */
  predicate TakesMost(blocks: seq<Block>, budget: int, taken: seq<Block>) {
    if blocks == [] || budget <= 0 then taken == []
    else if |blocks[0].text| <= budget then
      && |taken| <= |blocks| && taken == blocks[..|taken|] && Length(taken) <= budget
      && (|taken| < |blocks| ==> Chars(blocks, |taken| + 1) > budget)
    else if budget <= 8 then taken == []
    else |taken| == 1 && taken[0] == blocks[0].(text := taken[0].text) && CutText(blocks[0].text, budget, taken[0].text)
  }

  lemma StartTakesMost(blocks: seq<Block>, budget: int)
    requires NonEmptyTexts(blocks)
    ensures TakesMost(blocks, budget, FromStart(blocks, budget))
  {
    if budget > 0 && blocks != [] {
      if |blocks[0].text| > budget {
        var cut := Truncated(blocks[0], budget);
        assert [cut][..0] == [] && Shown([]) == [];
        assert CUT == "...\n";
      } else {
        var n := Fit(blocks, budget, 1);
        assert Chars(blocks, 0) == 0;
        FitFits(blocks, budget, 1);
        ShownKeepsNonEmpty(blocks[..n]);
        CharsOfPrefix(blocks, n, n);
      }
    }
  }

  /** As many trailing blocks as fit, or the beginning of the last. */
  predicate TakesLast(blocks: seq<Block>, budget: int, taken: seq<Block>) {
    if blocks == [] || budget <= 0 then taken == []
    else
      var last := blocks[|blocks| - 1];
      if |last.text| <= budget then
        && |taken| <= |blocks| && taken == blocks[|blocks| - |taken|..] && Length(taken) <= budget
        && (|taken| < |blocks| ==> Length(blocks) - Chars(blocks, |blocks| - |taken| - 1) > budget)
      else if budget <= 8 then taken == []
      else |taken| == 1 && taken[0] == last.(text := taken[0].text) && CutText(last.text, budget, taken[0].text)
  }

  lemma EndTakesMost(blocks: seq<Block>, budget: int)
    requires NonEmptyTexts(blocks)
    ensures TakesLast(blocks, budget, FromEnd(blocks, budget))
  {
    var reversed := Reversed(blocks);
    assert NonEmptyTexts(reversed);
    hide FromStart, Chars, CutText, NonEmptyTexts;
    StartTakesMost(reversed, budget);
    EndIsWithinBudget(blocks, budget);
    var taken := FromStart(reversed, budget);
    if |taken| < |blocks| {
      ReversedChars(blocks, |taken| + 1);
    }
  }

  /** A block the middle prefers. */
  predicate Prefers(b: Block) {
    b.signal || b.messageType in {UserQuery, ContextCompaction}
  }

  function Preferences(blocks: seq<Block>): (marks: seq<bool>)
    ensures |marks| == |blocks| && forall k :: 0 <= k < |blocks| ==> marks[k] == Prefers(blocks[k])
  {
    seq(|blocks|, k requires 0 <= k < |blocks| => Prefers(blocks[k]))
  }

  lemma CandidatesStep(blocks: seq<Block>)
    requires blocks != []
    ensures var front, last := blocks[..|blocks| - 1], blocks[|blocks| - 1];
            Candidates(blocks) == if Prefers(last) then Candidates(front) + [last] else Candidates(front)
  {
    var front := blocks[..|blocks| - 1];
    assert Candidates(front) + [] == Candidates(front);
  }

  lemma {:induction false} CandidatesArePicked(blocks: seq<Block>)
    ensures Picking.Picks(blocks, Preferences(blocks), Candidates(blocks))
  {
    hide Picking.Picks, Prefers, IsCandidate;
    if blocks == [] {
      Picking.PickNothing<Block>();
      assert Preferences(blocks) == [];
    } else {
      var front, last := blocks[..|blocks| - 1], blocks[|blocks| - 1];
      CandidatesStep(blocks);
      hide Candidates;
      CandidatesArePicked(front);
      Picking.PickOneMore(front, Preferences(front), Candidates(front), last, Prefers(last));
      assert blocks == front + [last];
      assert Preferences(blocks) == Preferences(front) + [Prefers(last)];
    }
  }

  /**
   * The head is as much of the beginning as fits, the tail as much of the end of what follows, and the middle the
   * preferred blocks between them, if there are any, or else all of them, from the first on.
   */
  lemma SectionsTakeMost(blocks: seq<Block>, b: Budgets) returns (preferred: seq<Block>)
    requires NonEmptyTexts(blocks)
    ensures var s := SectionsOf(blocks, b);
            && TakesMost(blocks, b.head, s.head) && |s.head| + |s.tail| <= |blocks|
            && TakesLast(blocks[|s.head|..], b.tail, s.tail)
            && var between := blocks[|s.head|..|blocks| - |s.tail|];
               && Picking.Picks(between, Preferences(between), preferred)
               && TakesMost(if preferred != [] then preferred else between, b.middle, s.middle)
  {
    hide FromStart, FromEnd, Candidates, TakesMost, TakesLast, Picking.Picks;
    var head := FromStart(blocks, b.head);
    var tail := FromEnd(blocks[|head|..], b.tail);
    var source := blocks[|head|..|blocks| - |tail|];
    preferred := Candidates(source);
    CandidatesArePicked(source);
    CandidatesAreNonEmpty(source);
    StartTakesMost(blocks, b.head);
    EndTakesMost(blocks[|head|..], b.tail);
    StartTakesMost(if preferred != [] then preferred else source, b.middle);
  }

  /** Sections that are too long together are cut to exactly the limit; a limit below four characters leaves the mark. */
  lemma FinalCutIsExact(text: string, maxChars: int)
    ensures |text| <= maxChars ==> CutTo(text, maxChars) == text
    ensures |text| > maxChars >= 4 ==> CutText(text, maxChars, CutTo(text, maxChars))
    ensures |text| > maxChars && maxChars < 4 ==> CutTo(text, maxChars) == "...\n"
  {
    assert text[..0] + CUT == CUT;
  }

  /** Any longer conversation is its sections under the headings, cut to the limit. */
  lemma SectionsAreCut(blocks: seq<Block>, maxChars: int, headShare: nat, tailShare: nat) returns (text: string)
    requires blocks != [] && Length(blocks) > maxChars
    ensures var s := SectionsOf(blocks, BudgetsFor(maxChars, headShare, tailShare));
            text == Under("[Earlier" + " Context]\n", s.head) + Under("[Sampled" + " Middle Context]\n", s.middle)
                    + Under("[Most" + " Recent Context]\n", s.tail)
    ensures Rendered(blocks, maxChars, headShare, tailShare) == CutTo(text, maxChars)
  {
    hide SectionsOf, Text, BudgetsFor, Chars, CutTo;
    text := Assembled(SectionsOf(blocks, BudgetsFor(maxChars, headShare, tailShare)));
    HeadingsAre();
    hide EARLIER, MIDDLE, RECENT;
  }

  function Under(heading: string, blocks: seq<Block>): string {
    if blocks == [] then "" else heading + Text(blocks)
  }

  /** The headings leave 65 characters less; head and tail have their shares or 256 characters, the middle has the rest. */
  predicate Shares(b: Budgets, maxChars: int, headShare: nat, tailShare: nat) {
    && b.head == (if headShare > 256 then headShare else 256) && b.tail == (if tailShare > 256 then tailShare else 256)
    && b.head + b.middle + b.tail == maxChars - 65
  }

  /** With less room the budgets are those of 256 characters behind the headings, and the middle may have nothing. */
  lemma SmallBudgets(maxChars: int, headShare: nat, tailShare: nat)
    ensures var b := BudgetsFor(maxChars, headShare, tailShare);
            var room := if maxChars > 321 then maxChars - 65 else 256;
            && b.head == (if headShare > 256 then headShare else 256) && b.tail == (if tailShare > 256 then tailShare else 256)
            && b.middle == if room > b.head + b.tail then room - b.head - b.tail else 0
  {
    assert |EARLIER| == 18 && |MIDDLE| == 25 && |RECENT| == 22;
  }

  /** A longer conversation is shown in three sections, each under its heading, and nothing of them is cut off. */
  lemma LongConversationIsShown(blocks: seq<Block>, maxChars: int, headShare: nat, tailShare: nat) returns (b: Budgets)
    requires NonEmptyTexts(blocks) && maxChars >= 577 && Length(blocks) > maxChars
    requires IsShare(headShare, 28, maxChars - 65) && IsShare(tailShare, 47, maxChars - 65)
    ensures Shares(b, maxChars, headShare, tailShare)
    ensures var s := SectionsOf(blocks, b);
            Rendered(blocks, maxChars, headShare, tailShare)
            == Under("[Earlier" + " Context]\n", s.head) + Under("[Sampled" + " Middle Context]\n", s.middle)
               + Under("[Most" + " Recent Context]\n", s.tail)
  {
    b := BudgetsFor(maxChars, headShare, tailShare);
    assert Available(maxChars) == maxChars - 65;
    BudgetsAddUp(maxChars, headShare, tailShare);
    assert b.head == Max(256, headShare) && b.tail == Max(256, tailShare);
    hide SectionsOf, Text, IsShare, Available, BudgetsFor, Chars;
    FinalCutNeverFires(blocks, maxChars, headShare, tailShare);
    HeadingsAre();
    hide EARLIER, MIDDLE, RECENT;
  }

  lemma HeadingsAre()
    ensures EARLIER == "[Earlier" + " Context]\n"
    ensures MIDDLE == "[Sampled" + " Middle Context]\n"
    ensures RECENT == "[Most" + " Recent Context]\n"
  {
  }
}
