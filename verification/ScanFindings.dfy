/** What a scan of a response finds, and what it leaves, in terms of the decoder, the schema and the limits alone. */
module ScanFindings {
  import opened Text
  import opened Json
  import opened Picking
  import opened EmbeddedJson

  // ---------- calls and obstacles ----------

  /** An object at the brace, decoded within the scanned text. */
  predicate Reads(text: string, tools: Tools, limits: Limits, at: nat, json: Json, end: nat) {
    && at < |text| && text[at] == '{' && tools.decode(text, at) == Value(json, end)
    && at < end <= |text| && end <= limits.responseSize
  }

  /** The object there is small and shallow enough, looks like a call, and is accepted as one. */
  predicate CallsAt(text: string, tools: Tools, limits: Limits, at: nat, end: nat, call: Call) {
    var decoded := tools.decode(text, at);
    && decoded.Value? && Reads(text, tools, limits, at, decoded.json, end)
    && end - at <= limits.jsonSize && Depth(decoded.json) <= limits.depth
    && tools.extract(decoded.json).Yes? && tools.build(tools.extract(decoded.json).value) == Yes(call)
  }

  /** The object there ends the scan: it is too large for a call, nested too deeply, or firmly rejected. */
  predicate HaltsAt(text: string, tools: Tools, limits: Limits, at: nat, error: ParseError) {
    var decoded := tools.decode(text, at);
    && decoded.Value? && Reads(text, tools, limits, at, decoded.json, decoded.end)
    && match error
       case Timeout => false
       case TooLarge => decoded.end - at > limits.jsonSize && tools.extract(decoded.json).Yes?
       case TooDeep => decoded.end - at <= limits.jsonSize && Depth(decoded.json) > limits.depth
       case Rejected =>
         && decoded.end - at <= limits.jsonSize && Depth(decoded.json) <= limits.depth
         && (tools.extract(decoded.json).Hard?
             || (tools.extract(decoded.json).Yes? && tools.build(tools.extract(decoded.json).value).Hard?))
  }

  lemma OutcomeIs(text: string, tools: Tools, limits: Limits, at: nat)
    requires Sensible(tools) && at < ScanEnd(text, limits) && text[at] == '{'
    ensures forall end, call :: OutcomeAt(text, tools, limits, at) == Take(end, call) <==> CallsAt(text, tools, limits, at, end, call)
    ensures forall error :: OutcomeAt(text, tools, limits, at) == Stop(error) <==> HaltsAt(text, tools, limits, at, error)
  {
    hide Depth;
    var decoded := tools.decode(text, at);
    assert decoded.Value? ==> at < decoded.end <= |text|;
  }

  // ---------- what is found ----------

  /** The calls found are those at the intervals, one by one. */
  predicate Matches(text: string, tools: Tools, limits: Limits, taken: seq<Interval>, calls: seq<Call>) {
    && |taken| == |calls|
    && forall k :: 0 <= k < |taken| ==> taken[k].start >= 0 && taken[k].end >= 0
                                        && CallsAt(text, tools, limits, taken[k].start, taken[k].end, calls[k])
  }

  /** The intervals lie between the positions, in order and apart from each other. */
  predicate Between(from: int, taken: seq<Interval>, to: int) {
    && (forall k :: 0 <= k < |taken| ==> from <= taken[k].start <= taken[k].end <= to)
    && forall j, k :: 0 <= j < k < |taken| ==> taken[j].end <= taken[k].start
  }

  /** Between the positions, whatever would be a call or end the scan lies within an interval. */
  ghost predicate NothingMissed(text: string, tools: Tools, limits: Limits, from: nat, to: nat, taken: seq<Interval>) {
    forall p: nat :: from <= p < to && !Covered(taken, p) ==> Unremarkable(text, tools, limits, p)
  }

  ghost predicate Unremarkable(text: string, tools: Tools, limits: Limits, p: nat) {
    && (forall end, call :: !CallsAt(text, tools, limits, p, end, call))
    && forall error :: !HaltsAt(text, tools, limits, p, error)
  }

  ghost predicate FoundAll(text: string, tools: Tools, limits: Limits, from: nat, to: nat, taken: seq<Interval>, calls: seq<Call>) {
    && Matches(text, tools, limits, taken, calls) && Between(from, taken, to)
    && NothingMissed(text, tools, limits, from, to, taken)
  }

  lemma FoundNothing(text: string, tools: Tools, limits: Limits, at: nat)
    ensures FoundAll(text, tools, limits, at, at, [], [])
  {
    hide Unremarkable, CallsAt;
  }

  lemma NothingToFind(text: string, tools: Tools, limits: Limits, from: nat, to: nat)
    requires Sensible(tools) && ScanEnd(text, limits) <= from <= to
    ensures FoundAll(text, tools, limits, from, to, [], [])
  {
    forall p: nat | from <= p < to
      ensures Unremarkable(text, tools, limits, p)
    {
      hide Depth;
    }
    hide Unremarkable, CallsAt;
  }

  lemma FoundAfter(text: string, tools: Tools, limits: Limits, at: nat, to: nat, taken: seq<Interval>, calls: seq<Call>)
    requires FoundAll(text, tools, limits, at + 1, to, taken, calls) && Unremarkable(text, tools, limits, at)
    ensures FoundAll(text, tools, limits, at, to, taken, calls)
  {
    hide Unremarkable, CallsAt, Covered;
  }

  lemma CoveredByAny(first: Interval, rest: seq<Interval>, p: int)
    ensures Covered([first] + rest, p) <==> Covers(first, p) || Covered(rest, p)
  {
    var all := [first] + rest;
    assert Covers(all[0], p) <==> Covers(first, p);
    assert forall k :: 0 <= k < |rest| ==> all[k + 1] == rest[k];
    if Covered(all, p) {
      var k :| 0 <= k < |all| && Covers(all[k], p);
      assert k > 0 ==> Covers(rest[k - 1], p);
    }
    if Covered(rest, p) {
      var k :| 0 <= k < |rest| && Covers(rest[k], p);
      assert Covers(all[k + 1], p);
    }
  }

  lemma FoundFirst(text: string, tools: Tools, limits: Limits, at: nat, end: nat, to: nat, call: Call, taken: seq<Interval>,
          calls: seq<Call>)
    requires CallsAt(text, tools, limits, at, end, call) && end <= to && FoundAll(text, tools, limits, end, to, taken, calls)
    ensures FoundAll(text, tools, limits, at, to, [Interval(at, end)] + taken, [call] + calls)
  {
    assert at < end;
    hide Unremarkable, CallsAt, Covered;
    var all := [Interval(at, end)] + taken;
    forall p: nat | at <= p < to && !Covered(all, p)
      ensures Unremarkable(text, tools, limits, p)
    {
      CoveredByAny(Interval(at, end), taken, p);
    }
  }

  lemma Before(text: string, tools: Tools, limits: Limits, at: nat)
    requires Sensible(tools) && at < ScanEnd(text, limits)
    requires text[at] == '{' ==> OutcomeAt(text, tools, limits, at).Skip?
    ensures Unremarkable(text, tools, limits, at)
  {
    if text[at] == '{' {
      OutcomeIs(text, tools, limits, at);
    }
    hide Depth, OutcomeAt;
  }

  /** Where the scan comes to an end: behind the last call, or at the object that stops it. */
  function Reached(text: string, r: EmbeddedJson.Scan, stop: nat): nat {
    if r.Found? then |text| else stop
  }

  /**
   * The scan finds every call that does not lie in an earlier one, in order; it fails if and only if it meets an object
   * that ends it, and none such lies outside the calls before.
   */
  lemma {:induction false} ScanFindsAll(text: string, tools: Tools, limits: Limits, pos: nat)
    returns (stop: nat, taken: seq<Interval>, calls: seq<Call>)
    requires Sensible(tools) && pos <= |text|
    ensures var r := Greedy(text, tools, limits, pos);
            && (r.Found? ==> taken == r.taken && calls == r.calls)
            && (r.Stopped? ==> pos <= stop < |text| && HaltsAt(text, tools, limits, stop, r.error))
            && FoundAll(text, tools, limits, pos, Reached(text, r, stop), taken, calls)
    decreases |text| - pos
  {
    stop, taken, calls := pos, [], [];
    if pos >= ScanEnd(text, limits) {
      NothingToFind(text, tools, limits, pos, |text|);
    } else {
      var outcome := OutcomeAt(text, tools, limits, pos);
      if text[pos] != '{' || outcome.Skip? {
        Before(text, tools, limits, pos);
        hide FoundAll, Unremarkable, HaltsAt, OutcomeAt;
        stop, taken, calls := ScanFindsAll(text, tools, limits, pos + 1);
        FoundAfter(text, tools, limits, pos, Reached(text, Greedy(text, tools, limits, pos + 1), stop), taken, calls);
      } else {
        OutcomeIs(text, tools, limits, pos);
        if outcome.Stop? {
          FoundNothing(text, tools, limits, pos);
        } else {
          var end := outcome.end;
          assert tools.decode(text, pos).end == end;
          assert CallsAt(text, tools, limits, pos, end, outcome.call);
          hide FoundAll, CallsAt, HaltsAt, OutcomeAt;
          stop, taken, calls := ScanFindsAll(text, tools, limits, end);
          FoundFirst(text, tools, limits, pos, end, Reached(text, Greedy(text, tools, limits, end), stop), outcome.call, taken, calls);
          taken, calls := [Interval(pos, end)] + taken, [outcome.call] + calls;
        }
      }
    }
  }

  // ---------- what is left ----------

  /** A newline behind two others. */
  predicate ThirdNewline(s: string, k: nat)
    requires k < |s|
  {
    k >= 2 && s[k] == '\n' && s[k - 1] == '\n' && s[k - 2] == '\n'
  }

  function WithoutThirds(s: string, n: nat): (marks: seq<bool>)
    requires n <= |s|
    ensures |marks| == n && forall k :: 0 <= k < n ==> marks[k] == !ThirdNewline(s, k)
  {
    seq(n, k requires 0 <= k < n <= |s| => !ThirdNewline(s, k))
  }

  ghost function Outside(intervals: seq<Interval>, n: nat): (marks: seq<bool>)
    ensures |marks| == n && forall k :: 0 <= k < n ==> marks[k] == !Covered(intervals, k)
  {
    seq(n, k requires 0 <= k => !Covered(intervals, k))
  }

  lemma {:induction false} CollapsingPicks(s: string, n: nat)
    requires n <= |s|
    ensures Picks(s[..n], WithoutThirds(s, n), CollapseFirst(s, n))
    decreases n
  {
    hide Picks, ThirdNewline;
    if n == 0 {
      PickNothing<char>();
      assert s[..0] == "" && WithoutThirds(s, 0) == [];
    } else {
      CollapsingPicks(s, n - 1);
      PickOneMore(s[..n - 1], WithoutThirds(s, n - 1), CollapseFirst(s, n - 1), s[n - 1], !ThirdNewline(s, n - 1));
      assert s[..n] == s[..n - 1] + [s[n - 1]];
      assert WithoutThirds(s, n) == WithoutThirds(s, n - 1) + [!ThirdNewline(s, n - 1)];
      CollapseStep(s, n);
    }
  }

  lemma CollapseStep(s: string, n: nat)
    requires 0 < n <= |s|
    ensures CollapseFirst(s, n) == if ThirdNewline(s, n - 1) then CollapseFirst(s, n - 1) else CollapseFirst(s, n - 1) + [s[n - 1]]
  {
    assert CollapseFirst(s, n - 1) + "" == CollapseFirst(s, n - 1);
  }

  lemma {:induction false} UncoveredIsPicked(text: string, intervals: seq<Interval>, n: nat)
    requires n <= |text|
    ensures Picks(text[..n], Outside(intervals, n), Uncovered(text, intervals, n))
    decreases n
  {
    hide Picks, Covered;
    if n == 0 {
      PickNothing<char>();
      assert text[..0] == "" && Outside(intervals, 0) == [];
    } else {
      UncoveredIsPicked(text, intervals, n - 1);
      PickOneMore(text[..n - 1], Outside(intervals, n - 1), Uncovered(text, intervals, n - 1), text[n - 1], !Covered(intervals, n - 1));
      assert text[..n] == text[..n - 1] + [text[n - 1]];
      assert Outside(intervals, n) == Outside(intervals, n - 1) + [!Covered(intervals, n - 1)];
      assert Uncovered(text, intervals, n - 1) + "" == Uncovered(text, intervals, n - 1);
    }
  }

  /** The text, but for third newlines in a row and white space at its ends. */
  ghost predicate Tidied(text: string, tidy: string) {
    exists left, right, collapsed ::
      Picks(text, WithoutThirds(text, |text|), collapsed) && collapsed == left + tidy + right
      && AllSpace(left) && AllSpace(right) && Trimmed(tidy)
  }

  lemma NormalizingTidies(text: string)
    ensures Tidied(text, NormalizeWhitespace(text))
  {
    CollapsingPicks(text, |text|);
    assert text[..|text|] == text;
    var collapsed := CollapseFirst(text, |text|);
    hide Picks, CollapseFirst, Strip;
    var left, right := StripCutsSpace(collapsed);
    StripTrims(collapsed);
  }

  /** What is left of a response with calls: every character outside them, in order, tidied up. */
  lemma RestIsKept(text: string, tools: Tools, limits: Limits) returns (rest: string)
    requires Sensible(tools) && Greedy(text, tools, limits, 0).Found?
    ensures var taken := Greedy(text, tools, limits, 0).taken;
            && Picks(text, Outside(taken, |text|), rest)
            && if taken == [] then Removed(text, taken) == text else Tidied(rest, Removed(text, taken))
  {
    var taken := Greedy(text, tools, limits, 0).taken;
    rest := Uncovered(text, taken, |text|);
    UncoveredIsPicked(text, taken, |text|);
    assert text[..|text|] == text;
    hide Greedy, Removed, Picks, Tidied, NormalizeWhitespace;
    ScanLeavesTheRest(text, tools, limits);
    NormalizingTidies(rest);
  }
}
