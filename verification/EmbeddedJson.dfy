/** Tool calls embedded in a response: scanning for JSON objects, and deleting the text of the calls found. */
module EmbeddedJson {
  import opened Text
  import opened Json

  datatype Interval = Interval(start: int, end: int)

  datatype Call = Call(name: string, arguments: Json)

  /** What the schema or the validator makes of a value; a hard failure ends the scan. */
  datatype Verdict<T> = Yes(value: T) | No | Hard

  /** A decoder reads a value at an index and says where it ends, or fails. */
  datatype Decoded = Value(json: Json, end: nat) | Failure

  datatype Tools = Tools(decode: (string, nat) -> Decoded, extract: Json -> Verdict<Call>, build: Call -> Verdict<Call>)

  datatype Limits = Limits(responseSize: nat, jsonSize: nat, depth: nat)

  datatype ParseError = Timeout | TooLarge | TooDeep | Rejected

  datatype Result<T> = Ok(value: T) | Err(error: ParseError)

  datatype Outcome = Take(end: nat, call: Call) | Skip | Stop(error: ParseError)

  /** A decoded value takes up at least one character. */
  ghost predicate Sensible(tools: Tools) {
    forall text: string, at: nat :: tools.decode(text, at).Value? ==> at < tools.decode(text, at).end <= |text|
  }

  function ScanEnd(text: string, limits: Limits): nat {
    if |text| <= limits.responseSize then |text| else limits.responseSize
  }

  // ---------- one position ----------

  /** What becomes of the object that starts at `at`. */
  function OutcomeAt(text: string, tools: Tools, limits: Limits, at: nat): Outcome {
    var decoded := tools.decode(text, at);
    if decoded.Failure? || decoded.end > ScanEnd(text, limits) then Skip
    else if decoded.end - at > limits.jsonSize then (if tools.extract(decoded.json).Yes? then Stop(TooLarge) else Skip)
    else if Depth(decoded.json) > limits.depth then Stop(TooDeep)
    else
      match tools.extract(decoded.json)
      case Hard => Stop(Rejected)
      case No => Skip
      case Yes(candidate) =>
        match tools.build(candidate)
        case Hard => Stop(Rejected)
        case No => Skip
        case Yes(call) => Take(decoded.end, call)
  }

  method TryAt(text: string, tools: Tools, limits: Limits, at: nat) returns (outcome: Outcome)
    ensures outcome == OutcomeAt(text, tools, limits, at)
  {
    var decoded := tools.decode(text, at);
    if decoded.Failure? || decoded.end > ScanEnd(text, limits) {
      return Skip;
    }
    var verdict := tools.extract(decoded.json);
    if decoded.end - at > limits.jsonSize {
      return if verdict.Yes? then Stop(TooLarge) else Skip;
    }
    var shallow := ValidateDepth(decoded.json, limits.depth);
    if !shallow {
      return Stop(TooDeep);
    }
    match verdict
    case Hard => outcome := Stop(Rejected);
    case No => outcome := Skip;
    case Yes(candidate) =>
      var built := tools.build(candidate);
      outcome := match built case Hard => Stop(Rejected) case No => Skip case Yes(call) => Take(decoded.end, call);
  }

  // ---------- the scan ----------

  datatype Scan = Found(taken: seq<Interval>, calls: seq<Call>) | Stopped(error: ParseError)

  function Before(first: Interval, call: Call, rest: Scan): Scan {
    if rest.Stopped? then rest else Found([first] + rest.taken, [call] + rest.calls)
  }

  /** Leftmost first, and past each object that was taken. */
  ghost function Greedy(text: string, tools: Tools, limits: Limits, pos: nat): Scan
    requires Sensible(tools)
    decreases ScanEnd(text, limits) - pos
  {
    if pos >= ScanEnd(text, limits) then Found([], [])
    else if text[pos] != '{' then Greedy(text, tools, limits, pos + 1)
    else
      match OutcomeAt(text, tools, limits, pos)
      case Skip => Greedy(text, tools, limits, pos + 1)
      case Stop(error) => Stopped(error)
      case Take(end, call) =>
        assert tools.decode(text, pos).end == end;
        Before(Interval(pos, end), call, Greedy(text, tools, limits, end))
  }

  /** The next brace, or nothing before the scan ends. */
  method FindBrace(text: string, tools: Tools, limits: Limits, pos: nat) returns (at: Option<nat>)
    requires Sensible(tools) && pos <= ScanEnd(text, limits)
    ensures at.None? ==> Greedy(text, tools, limits, pos) == Found([], [])
    ensures at.Some? ==> pos <= at.value < ScanEnd(text, limits) && text[at.value] == '{'
    ensures at.Some? ==> Greedy(text, tools, limits, pos) == Greedy(text, tools, limits, at.value)
  {
    var k := pos;
    while k < ScanEnd(text, limits) && text[k] != '{'
      invariant pos <= k <= ScanEnd(text, limits)
      invariant Greedy(text, tools, limits, pos) == Greedy(text, tools, limits, k)
    {
      k := k + 1;
    }
    at := if k < ScanEnd(text, limits) then Some(k) else None;
  }

  function Append(taken: seq<Interval>, calls: seq<Call>, rest: Scan): Scan {
    if rest.Stopped? then rest else Found(taken + rest.taken, calls + rest.calls)
  }

  lemma AppendOne(taken: seq<Interval>, calls: seq<Call>, first: Interval, call: Call, rest: Scan)
    ensures Append(taken, calls, Before(first, call, rest)) == Append(taken + [first], calls + [call], rest)
  {
    if rest.Found? {
      assert taken + ([first] + rest.taken) == (taken + [first]) + rest.taken;
      assert calls + ([call] + rest.calls) == (calls + [call]) + rest.calls;
    }
  }

  /** `late` says at which iterations the time is up. */
  method ParseEmbeddedJson(text: string, tools: Tools, limits: Limits, late: nat -> bool)
    returns (r: Result<(seq<Call>, string)>)
    requires Sensible(tools)
    ensures r.Ok? ==> Greedy(text, tools, limits, 0).Found?
    ensures r.Ok? ==> r.value == (Greedy(text, tools, limits, 0).calls, Removed(text, Greedy(text, tools, limits, 0).taken))
    ensures r.Err? && r.error != Timeout ==> Greedy(text, tools, limits, 0) == Stopped(r.error)
    ensures r.Err? && r.error == Timeout ==> exists k :: late(k)
  {
    hide Removed, Depth;
    var calls: seq<Call>, taken: seq<Interval> := [], [];
    var pos, iteration := 0, 0;
    ghost var all := Greedy(text, tools, limits, 0);
    while pos < ScanEnd(text, limits)
      invariant pos <= ScanEnd(text, limits)
      invariant all == Append(taken, calls, Greedy(text, tools, limits, pos))
      decreases ScanEnd(text, limits) - pos
    {
      if late(iteration) {
        return Err(Timeout);
      }
      var brace := FindBrace(text, tools, limits, pos);
      if brace.None? {
        break;
      }
      var at := brace.value;
      var outcome := TryAt(text, tools, limits, at);
      match outcome
      case Stop(error) =>
        return Err(error);
      case Skip =>
        pos := at + 1;
      case Take(end, call) =>
        assert tools.decode(text, at).end == end;
        AppendOne(taken, calls, Interval(at, end), call, Greedy(text, tools, limits, end));
        calls, taken := calls + [call], taken + [Interval(at, end)];
        pos := end;
      iteration := iteration + 1;
    }
    assert taken + [] == taken && calls + [] == calls;
    var remaining := RemoveExtractedByPositions(text, taken);
    r := Ok((calls, remaining));
  }

  // ---------- what the scan finds ----------

  predicate Takes(text: string, tools: Tools, limits: Limits, at: nat) {
    at < ScanEnd(text, limits) && text[at] == '{' && OutcomeAt(text, tools, limits, at).Take?
  }

  predicate Covers(i: Interval, p: int) {
    i.start <= p < i.end
  }

  ghost predicate Covered(intervals: seq<Interval>, p: int) {
    exists k :: 0 <= k < |intervals| && Covers(intervals[k], p)
  }

  /** The interval is what a call at its start takes up. */
  predicate IsCall(text: string, tools: Tools, limits: Limits, i: Interval) {
    && 0 <= i.start < i.end <= ScanEnd(text, limits) && Takes(text, tools, limits, i.start)
    && OutcomeAt(text, tools, limits, i.start).end == i.end
  }

  predicate Ordered(taken: seq<Interval>) {
    forall j, k :: 0 <= j < k < |taken| ==> taken[j].end <= taken[k].start
  }

  /** Calls in order and apart from each other. */
  predicate Extracts(text: string, tools: Tools, limits: Limits, taken: seq<Interval>) {
    (forall k :: 0 <= k < |taken| ==> IsCall(text, tools, limits, taken[k])) && Ordered(taken)
  }

  /** No call is passed over: it is taken, or it lies in one that is. */
  ghost predicate Complete(text: string, tools: Tools, limits: Limits, from: int, taken: seq<Interval>) {
    forall p: nat :: p >= from && Takes(text, tools, limits, p) ==> Covered(taken, p)
  }

  lemma {:induction false} GreedyIsComplete(text: string, tools: Tools, limits: Limits, pos: nat)
    requires Sensible(tools) && Greedy(text, tools, limits, pos).Found?
    ensures var taken := Greedy(text, tools, limits, pos).taken;
            && Extracts(text, tools, limits, taken) && Complete(text, tools, limits, pos, taken)
            && (taken != [] ==> taken[0].start >= pos)
    decreases ScanEnd(text, limits) - pos
  {
    if pos < ScanEnd(text, limits) {
      var outcome := OutcomeAt(text, tools, limits, pos);
      if text[pos] != '{' || outcome.Skip? {
        GreedyIsComplete(text, tools, limits, pos + 1);
      } else {
        var end := outcome.end;
        assert tools.decode(text, pos).end == end;
        GreedyIsComplete(text, tools, limits, end);
        var rest := Greedy(text, tools, limits, end).taken;
        FirstTaken(text, tools, limits, Interval(pos, end), rest);
      }
    }
  }

  lemma FirstTaken(text: string, tools: Tools, limits: Limits, first: Interval, rest: seq<Interval>)
    requires IsCall(text, tools, limits, first)
    requires Extracts(text, tools, limits, rest) && Complete(text, tools, limits, first.end, rest)
    requires rest != [] ==> rest[0].start >= first.end
    ensures Extracts(text, tools, limits, [first] + rest) && Complete(text, tools, limits, first.start, [first] + rest)
  {
    hide Takes, OutcomeAt, Covered;
    OrderedWithFirst(first, rest);
    CompleteWithFirst(text, tools, limits, first, rest);
    hide IsCall, Complete, Ordered;
    var taken := [first] + rest;
    forall k | 0 <= k < |taken|
      ensures IsCall(text, tools, limits, taken[k])
    {
      if k > 0 {
        assert taken[k] == rest[k - 1];
      }
    }
  }

  lemma OrderedWithFirst(first: Interval, rest: seq<Interval>)
    requires Ordered(rest) && (rest != [] ==> rest[0].start >= first.end)
    requires forall k :: 0 <= k < |rest| ==> rest[k].start < rest[k].end
    ensures Ordered([first] + rest)
  {
    StartsAfter(first.end, rest);
    var taken := [first] + rest;
    forall j, k | 0 <= j < k < |taken|
      ensures taken[j].end <= taken[k].start
    {
      assert taken[k] == rest[k - 1];
      assert j > 0 ==> taken[j] == rest[j - 1];
    }
  }

  lemma CompleteWithFirst(text: string, tools: Tools, limits: Limits, first: Interval, rest: seq<Interval>)
    requires 0 <= first.start <= first.end && Complete(text, tools, limits, first.end, rest)
    ensures Complete(text, tools, limits, first.start, [first] + rest)
  {
    hide Takes;
    var taken := [first] + rest;
    forall p: nat | p >= first.start && Takes(text, tools, limits, p)
      ensures Covered(taken, p)
    {
      if p < first.end {
        assert Covers(taken[0], p);
      } else {
        var k :| 0 <= k < |rest| && Covers(rest[k], p);
        assert taken[k + 1] == rest[k];
      }
    }
  }

  lemma StartsAfter(end: int, rest: seq<Interval>)
    requires Ordered(rest) && (rest != [] ==> rest[0].start >= end)
    requires forall k :: 0 <= k < |rest| ==> rest[k].start < rest[k].end
    ensures forall k :: 0 <= k < |rest| ==> rest[k].start >= end
  {
  }

  /** Only one list of intervals extracts calls without missing any. */
  lemma {:induction false} ExtractionIsUnique(text: string, tools: Tools, limits: Limits, from: nat, a: seq<Interval>,
          b: seq<Interval>)
    requires Extracts(text, tools, limits, a) && Complete(text, tools, limits, from, a) && (a != [] ==> a[0].start >= from)
    requires Extracts(text, tools, limits, b) && Complete(text, tools, limits, from, b) && (b != [] ==> b[0].start >= from)
    ensures a == b
    decreases |a|
  {
    hide OutcomeAt;
    if a != [] || b != [] {
      if a != [] {
        FirstIsLeftmost(text, tools, limits, from, a, b);
      }
      if b != [] {
        FirstIsLeftmost(text, tools, limits, from, b, a);
      }
      assert a[0] == b[0];
      RestExtracts(text, tools, limits, from, a);
      RestExtracts(text, tools, limits, from, b);
      ExtractionIsUnique(text, tools, limits, a[0].end, a[1..], b[1..]);
      assert a == [a[0]] + a[1..] && b == [b[0]] + b[1..];
    }
  }

  lemma FirstIsLeftmost(text: string, tools: Tools, limits: Limits, from: nat, a: seq<Interval>, b: seq<Interval>)
    requires a != [] && Extracts(text, tools, limits, a) && a[0].start >= from
    requires Extracts(text, tools, limits, b) && Complete(text, tools, limits, from, b)
    ensures b != [] && b[0].start <= a[0].start
  {
    assert Takes(text, tools, limits, a[0].start);
    assert Covered(b, a[0].start);
    var k :| 0 <= k < |b| && Covers(b[k], a[0].start);
    assert k > 0 ==> b[0].end <= b[k].start;
  }

  lemma RestExtracts(text: string, tools: Tools, limits: Limits, from: nat, a: seq<Interval>)
    requires a != [] && Extracts(text, tools, limits, a) && Complete(text, tools, limits, from, a) && a[0].start >= from
    ensures a[0].end >= 0 && Extracts(text, tools, limits, a[1..]) && Complete(text, tools, limits, a[0].end, a[1..])
    ensures a[1..] != [] ==> a[1..][0].start >= a[0].end
  {
    assert IsCall(text, tools, limits, a[0]);
    RestIsComplete(text, tools, limits, from, a);
    hide IsCall, Complete;
    var rest := a[1..];
    assert forall k :: 0 <= k < |rest| ==> rest[k] == a[k + 1];
    forall k | 0 <= k < |rest|
      ensures IsCall(text, tools, limits, rest[k])
    {
      assert IsCall(text, tools, limits, a[k + 1]);
    }
  }

  lemma RestIsComplete(text: string, tools: Tools, limits: Limits, from: nat, a: seq<Interval>)
    requires a != [] && Complete(text, tools, limits, from, a) && a[0].end >= from
    ensures Complete(text, tools, limits, a[0].end, a[1..])
  {
    hide Takes;
    forall p: nat | p >= a[0].end && Takes(text, tools, limits, p)
      ensures Covered(a[1..], p)
    {
      var k :| 0 <= k < |a| && Covers(a[k], p);
      assert a[1..][k - 1] == a[k];
    }
  }

  /** The scan finds the only complete, ordered, disjoint set of calls. */
  lemma ScanIsGreedyLeftmost(text: string, tools: Tools, limits: Limits, taken: seq<Interval>)
    requires Sensible(tools) && Greedy(text, tools, limits, 0).Found?
    ensures Greedy(text, tools, limits, 0).taken == taken <==> Extracts(text, tools, limits, taken) && Complete(text, tools, limits, 0, taken)
  {
    GreedyIsComplete(text, tools, limits, 0);
    if Extracts(text, tools, limits, taken) && Complete(text, tools, limits, 0, taken) {
      ExtractionIsUnique(text, tools, limits, 0, Greedy(text, tools, limits, 0).taken, taken);
    }
  }

  // ---------- deleting intervals ----------

  function Inserted(sorted: seq<Interval>, i: Interval): seq<Interval> {
    if sorted == [] || sorted[|sorted| - 1].start <= i.start then sorted + [i]
    else Inserted(sorted[..|sorted| - 1], i) + [sorted[|sorted| - 1]]
  }

  /** Stable sorting by start. */
  function SortedByStart(positions: seq<Interval>): seq<Interval> {
    if positions == [] then [] else Inserted(SortedByStart(positions[..|positions| - 1]), positions[|positions| - 1])
  }

  function Join(last: Interval, next: Interval): Interval {
    Interval(last.start, if last.end >= next.end then last.end else next.end)
  }

  function MergeFirst(sorted: seq<Interval>, n: nat): (merged: seq<Interval>)
    requires n <= |sorted|
    ensures n > 0 ==> merged != []
  {
    if n == 0 then []
    else
      var m, next := MergeFirst(sorted, n - 1), sorted[n - 1];
      if m != [] && next.start <= m[|m| - 1].end then m[|m| - 1 := Join(m[|m| - 1], next)] else m + [next]
  }

  predicate ValidIn(text: string, i: Interval) {
    0 <= i.start < i.end <= |text|
  }

  /** The text kept while passing the first `n` intervals, and where the last of them ended. */
  function CutFirst(text: string, merged: seq<Interval>, n: nat): (r: (string, nat))
    requires n <= |merged|
    ensures r.1 <= |text|
  {
    if n == 0 then ("", 0)
    else
      var (kept, current) := CutFirst(text, merged, n - 1);
      var i := merged[n - 1];
      if !ValidIn(text, i) then (kept, current)
      else (kept + (if i.start > current then text[current..i.start] else ""), i.end)
  }

  function Cut(text: string, merged: seq<Interval>): string {
    var (kept, current) := CutFirst(text, merged, |merged|);
    kept + text[current..]
  }

  /** Runs of three or more newlines become two. */
  function CollapseFirst(text: string, n: nat): string
    requires n <= |text|
  {
    if n == 0 then ""
    else CollapseFirst(text, n - 1) + (if n > 2 && text[n - 1] == '\n' && text[n - 2] == '\n' && text[n - 3] == '\n' then "" else [text[n - 1]])
  }

  function NormalizeWhitespace(text: string): string {
    Strip(CollapseFirst(text, |text|))
  }

  function Removed(text: string, positions: seq<Interval>): string {
    if positions == [] then text
    else if |positions| == 1 then
      (if ValidIn(text, positions[0]) then NormalizeWhitespace(text[..positions[0].start] + text[positions[0].end..]) else text)
    else
      var sorted := SortedByStart(positions);
      NormalizeWhitespace(Cut(text, MergeFirst(sorted, |sorted|)))
  }

  method MergeSorted(sorted: seq<Interval>) returns (merged: seq<Interval>)
    ensures merged == MergeFirst(sorted, |sorted|)
  {
    merged := [];
    for n := 0 to |sorted|
      invariant merged == MergeFirst(sorted, n)
    {
      if merged == [] {
        merged := [sorted[n]];
        continue;
      }
      var last := merged[|merged| - 1];
      if sorted[n].start <= last.end {
        merged := merged[|merged| - 1 := Join(last, sorted[n])];
      } else {
        merged := merged + [sorted[n]];
      }
    }
  }

  method RemoveExtractedByPositions(text: string, positions: seq<Interval>) returns (left: string)
    ensures left == Removed(text, positions)
  {
    if positions == [] {
      return text;
    }
    if |positions| == 1 {
      if !ValidIn(text, positions[0]) {
        return text;
      }
      return NormalizeWhitespace(text[..positions[0].start] + text[positions[0].end..]);
    }
    var merged := MergeSorted(SortedByStart(positions));
    var parts, current := "", 0;
    for n := 0 to |merged|
      invariant (parts, current) == CutFirst(text, merged, n)
    {
      if !ValidIn(text, merged[n]) {
        continue;
      }
      if merged[n].start > current {
        parts := parts + text[current..merged[n].start];
      } else {
        assert parts + "" == parts;
      }
      current := merged[n].end;
    }
    if current < |text| {
      parts := parts + text[current..];
    } else {
      assert parts + text[current..] == parts;
    }
    left := NormalizeWhitespace(parts);
  }

  // ---------- what is left ----------

  ghost predicate CoveredFirst(intervals: seq<Interval>, n: nat, p: int) {
    exists k :: 0 <= k < n <= |intervals| && Covers(intervals[k], p)
  }

  /** The characters among the first `n` that lie in none of the intervals. */
  ghost function Uncovered(text: string, intervals: seq<Interval>, n: nat): string
    requires n <= |text|
  {
    if n == 0 then "" else Uncovered(text, intervals, n - 1) + if Covered(intervals, n - 1) then "" else [text[n - 1]]
  }

  predicate AllValid(text: string, intervals: seq<Interval>) {
    forall k :: 0 <= k < |intervals| ==> ValidIn(text, intervals[k])
  }

  predicate RisingStarts(intervals: seq<Interval>) {
    forall j, k :: 0 <= j < k < |intervals| ==> intervals[j].start <= intervals[k].start
  }

  lemma {:induction false} InsertedIsRising(sorted: seq<Interval>, i: Interval)
    requires RisingStarts(sorted)
    ensures RisingStarts(Inserted(sorted, i))
    ensures forall x :: x in Inserted(sorted, i) <==> x == i || x in sorted
  {
    if sorted != [] && sorted[|sorted| - 1].start > i.start {
      var front, last := sorted[..|sorted| - 1], sorted[|sorted| - 1];
      assert sorted == front + [last];
      InsertedIsRising(front, i);
      var r := Inserted(front, i);
      forall k | 0 <= k < |r|
        ensures r[k].start <= last.start
      {
        assert r[k] in r;
      }
    }
  }

  lemma {:induction false} SortIsRising(positions: seq<Interval>)
    ensures RisingStarts(SortedByStart(positions))
    ensures forall x :: x in SortedByStart(positions) <==> x in positions
  {
    if positions != [] {
      var front, last := positions[..|positions| - 1], positions[|positions| - 1];
      assert positions == front + [last];
      SortIsRising(front);
      InsertedIsRising(SortedByStart(front), last);
    }
  }

  /** Merged intervals do not touch. */
  predicate Apart(merged: seq<Interval>) {
    forall j, k :: 0 <= j < k < |merged| ==> merged[j].end < merged[k].start
  }

  lemma {:induction false} MergeKeepsShape(text: string, sorted: seq<Interval>, n: nat)
    requires n <= |sorted| && AllValid(text, sorted) && RisingStarts(sorted)
    ensures var m := MergeFirst(sorted, n);
            AllValid(text, m) && Apart(m) && (n > 0 ==> m[|m| - 1].start <= sorted[n - 1].start)
  {
    if n > 0 {
      MergeKeepsShape(text, sorted, n - 1);
      var m, next := MergeFirst(sorted, n - 1), sorted[n - 1];
      assert n > 1 ==> sorted[n - 2].start <= next.start;
      assert AllValid(text, sorted) ==> ValidIn(text, next);
    }
  }

  lemma JoinCovers(last: Interval, next: Interval, p: int)
    requires last.start <= next.start <= last.end
    ensures Covers(Join(last, next), p) <==> Covers(last, p) || Covers(next, p)
  {
  }

  lemma CoveredByLast(m: seq<Interval>, p: int)
    requires m != []
    ensures Covered(m, p) <==> CoveredFirst(m, |m| - 1, p) || Covers(m[|m| - 1], p)
  {
  }

  lemma MergeStepCovers(m: seq<Interval>, next: Interval, p: int)
    requires m != [] ==> m[|m| - 1].start <= next.start
    ensures var merged := if m != [] && next.start <= m[|m| - 1].end then m[|m| - 1 := Join(m[|m| - 1], next)] else m + [next];
            Covered(merged, p) <==> Covered(m, p) || Covers(next, p)
  {
    if m != [] && next.start <= m[|m| - 1].end {
      var merged := m[|m| - 1 := Join(m[|m| - 1], next)];
      JoinCovers(m[|m| - 1], next, p);
      CoveredByLast(m, p);
      CoveredByLast(merged, p);
      assert forall k :: 0 <= k < |m| - 1 ==> merged[k] == m[k];
      assert CoveredFirst(m, |m| - 1, p) <==> CoveredFirst(merged, |m| - 1, p);
    } else {
      var merged := m + [next];
      CoveredByLast(merged, p);
      assert forall k :: 0 <= k < |m| ==> merged[k] == m[k];
      assert CoveredFirst(merged, |m|, p) <==> Covered(m, p);
    }
  }

  lemma {:induction false} MergeKeepsCovered(text: string, sorted: seq<Interval>, n: nat, p: int)
    requires n <= |sorted| && AllValid(text, sorted) && RisingStarts(sorted)
    ensures Covered(MergeFirst(sorted, n), p) <==> CoveredFirst(sorted, n, p)
  {
    if n > 0 {
      MergeKeepsCovered(text, sorted, n - 1, p);
      MergeKeepsShape(text, sorted, n - 1);
      var m, next := MergeFirst(sorted, n - 1), sorted[n - 1];
      assert n > 1 ==> sorted[n - 2].start <= next.start;
      MergeStepCovers(m, next, p);
      assert CoveredFirst(sorted, n, p) <==> CoveredFirst(sorted, n - 1, p) || Covers(next, p);
    }
  }

  lemma {:induction false} UncoveredStretch(text: string, intervals: seq<Interval>, a: nat, b: nat, covered: bool)
    requires a <= b <= |text| && forall p :: a <= p < b ==> Covered(intervals, p) == covered
    ensures Uncovered(text, intervals, b) == Uncovered(text, intervals, a) + if covered then "" else text[a..b]
  {
    if a < b {
      UncoveredStretch(text, intervals, a, b - 1, covered);
      assert text[a..b] == text[a..b - 1] + [text[b - 1]];
      assert Covered(intervals, b - 1) == covered;
    }
  }

  /** Between two neighbouring intervals nothing is covered, within one everything is. */
  lemma Stretches(text: string, merged: seq<Interval>, n: nat)
    requires AllValid(text, merged) && Apart(merged) && n <= |merged|
    ensures var from := if n == 0 then 0 else merged[n - 1].end;
            var to := if n == |merged| then |text| else merged[n].start;
            from <= to && forall p :: from <= p < to ==> !Covered(merged, p)
    ensures n < |merged| ==> forall p :: merged[n].start <= p < merged[n].end ==> Covered(merged, p)
  {
    var from := if n == 0 then 0 else merged[n - 1].end;
    var to := if n == |merged| then |text| else merged[n].start;
    assert n > 0 ==> ValidIn(text, merged[n - 1]);
    assert n < |merged| ==> ValidIn(text, merged[n]);
    forall p | from <= p < to
      ensures !Covered(merged, p)
    {
      forall k | 0 <= k < |merged|
        ensures !Covers(merged[k], p)
      {
        assert k < n - 1 ==> merged[k].end < merged[n - 1].start;
        assert k > n ==> merged[n].end < merged[k].start;
      }
    }
  }

  lemma {:induction false} CutIsUncovered(text: string, merged: seq<Interval>, n: nat)
    requires AllValid(text, merged) && Apart(merged) && n <= |merged|
    ensures CutFirst(text, merged, n).1 == if n == 0 then 0 else merged[n - 1].end
    ensures CutFirst(text, merged, n).0 == Uncovered(text, merged, CutFirst(text, merged, n).1)
  {
    if n > 0 {
      CutIsUncovered(text, merged, n - 1);
      Stretches(text, merged, n - 1);
      var current := CutFirst(text, merged, n - 1).1;
      var i := merged[n - 1];
      assert ValidIn(text, i);
      UncoveredStretch(text, merged, current, i.start, false);
      UncoveredStretch(text, merged, i.start, i.end, true);
      assert i.start == current ==> text[current..i.start] == "";
    }
  }

  lemma {:induction false} SameCoverage(text: string, a: seq<Interval>, b: seq<Interval>, n: nat)
    requires n <= |text| && forall p :: 0 <= p < n ==> (Covered(a, p) <==> Covered(b, p))
    ensures Uncovered(text, a, n) == Uncovered(text, b, n)
  {
    if n > 0 {
      SameCoverage(text, a, b, n - 1);
      assert Covered(a, n - 1) <==> Covered(b, n - 1);
    }
  }

  lemma OneCut(text: string, i: Interval)
    requires ValidIn(text, i)
    ensures text[..i.start] + text[i.end..] == Uncovered(text, [i], |text|)
  {
    var one := [i];
    CutIsUncovered(text, one, 1);
    Stretches(text, one, 1);
    UncoveredStretch(text, one, i.end, |text|, false);
    assert CutFirst(text, one, 0) == ("", 0);
    assert CutFirst(text, one, 1).0 == text[..i.start];
    assert text[i.end..|text|] == text[i.end..];
  }

  lemma SortedCoverage(positions: seq<Interval>, p: int)
    ensures Covered(SortedByStart(positions), p) <==> Covered(positions, p)
  {
    SortIsRising(positions);
    var sorted := SortedByStart(positions);
    if Covered(positions, p) {
      var k :| 0 <= k < |positions| && Covers(positions[k], p);
      assert positions[k] in sorted;
    }
    if Covered(sorted, p) {
      var k :| 0 <= k < |sorted| && Covers(sorted[k], p);
      assert sorted[k] in positions;
    }
  }

  /** For valid intervals, in any order and overlapping or not, exactly the characters in none of them are left. */
  lemma RemovedIsUncovered(text: string, positions: seq<Interval>)
    requires AllValid(text, positions) && positions != []
    ensures Removed(text, positions) == NormalizeWhitespace(Uncovered(text, positions, |text|))
  {
    if |positions| == 1 {
      OneCut(text, positions[0]);
      assert positions == [positions[0]];
    } else {
      SortedIsValid(text, positions);
      var sorted := SortedByStart(positions);
      var merged := MergeFirst(sorted, |sorted|);
      forall p | 0 <= p < |text|
        ensures Covered(merged, p) <==> Covered(positions, p)
      {
        MergeKeepsCovered(text, sorted, |sorted|, p);
        SortedCoverage(positions, p);
      }
      MergeKeepsShape(text, sorted, |sorted|);
      hide MergeFirst, SortedByStart, Covered;
      SameCoverage(text, merged, positions, |text|);
      CutLeavesUncovered(text, merged);
    }
  }

  lemma SortedIsValid(text: string, positions: seq<Interval>)
    requires AllValid(text, positions)
    ensures AllValid(text, SortedByStart(positions)) && RisingStarts(SortedByStart(positions))
  {
    SortIsRising(positions);
    var sorted := SortedByStart(positions);
    forall k | 0 <= k < |sorted|
      ensures ValidIn(text, sorted[k])
    {
      assert sorted[k] in positions;
    }
  }

  lemma CutLeavesUncovered(text: string, merged: seq<Interval>)
    requires AllValid(text, merged) && Apart(merged)
    ensures Cut(text, merged) == Uncovered(text, merged, |text|)
  {
    CutIsUncovered(text, merged, |merged|);
    Stretches(text, merged, |merged|);
    var current := CutFirst(text, merged, |merged|).1;
    hide CutFirst, Covered;
    UncoveredStretch(text, merged, current, |text|, false);
    assert text[current..|text|] == text[current..];
  }

  /** What a scan leaves of the response. */
  lemma ScanLeavesTheRest(text: string, tools: Tools, limits: Limits)
    requires Sensible(tools) && Greedy(text, tools, limits, 0).Found?
    ensures var taken := Greedy(text, tools, limits, 0).taken;
            Removed(text, taken) == if taken == [] then text else NormalizeWhitespace(Uncovered(text, taken, |text|))
  {
    var taken := Greedy(text, tools, limits, 0).taken;
    GreedyIsComplete(text, tools, limits, 0);
    if taken != [] {
      hide Takes, OutcomeAt, Complete;
      forall k | 0 <= k < |taken|
        ensures ValidIn(text, taken[k])
      {
        assert IsCall(text, tools, limits, taken[k]);
      }
      RemovedIsUncovered(text, taken);
    }
  }

  /** Intervals are merged before they are checked, so an invalid one takes a valid one with it. */
  lemma InvalidSpoilsValid()
    ensures var text, positions := "abcde", [Interval(0, 2), Interval(1, 9)];
            ValidIn(text, positions[0]) && Removed(text, positions) == text
  {
    assert NoTripleNewline("abcde") && Trimmed("abcde");
    hide NoTripleNewline, Trimmed;
    InvalidSpoils("abcde", Interval(0, 2), Interval(1, 9));
    hide Removed;
  }

  lemma InvalidSpoils(text: string, a: Interval, b: Interval)
    requires 0 <= a.start <= b.start <= a.end <= |text| < b.end && NoTripleNewline(text) && Trimmed(text)
    ensures Removed(text, [a, b]) == text
  {
    var whole := Interval(a.start, b.end);
    hide SortedByStart, MergeFirst, Cut, NormalizeWhitespace;
    SortsToItself(a, b);
    MergesToOne(a, b, whole);
    NothingCut(text, whole);
    NormalKeeps(text);
  }

  lemma MergesToOne(a: Interval, b: Interval, whole: Interval)
    requires a.start <= b.start <= a.end < b.end && whole == Interval(a.start, b.end)
    ensures MergeFirst([a, b], 2) == [whole]
  {
    assert MergeFirst([a, b], 1) == [a];
  }

  lemma NothingCut(text: string, i: Interval)
    requires !ValidIn(text, i)
    ensures Cut(text, [i]) == text
  {
    assert CutFirst(text, [i], 0) == ("", 0);
  }

  lemma NormalKeeps(text: string)
    requires NoTripleNewline(text) && Trimmed(text)
    ensures NormalizeWhitespace(text) == text
  {
    CollapseKeeps(text, |text|);
    assert text[..|text|] == text;
    TrimmedIsFixed(text);
  }

  lemma SortsToItself(a: Interval, b: Interval)
    requires a.start <= b.start
    ensures SortedByStart([a, b]) == [a, b]
  {
    assert [a, b][..1] == [a] && [a][..0] == [];
    assert SortedByStart([a]) == [a];
  }

  // ---------- whitespace ----------

  predicate NoTripleNewline(s: string) {
    forall k :: 2 <= k < |s| ==> !(s[k] == '\n' && s[k - 1] == '\n' && s[k - 2] == '\n')
  }

  lemma {:induction false} CollapseKeeps(s: string, n: nat)
    requires n <= |s| && NoTripleNewline(s)
    ensures CollapseFirst(s, n) == s[..n]
  {
    if n > 0 {
      CollapseKeeps(s, n - 1);
      assert s[..n] == s[..n - 1] + [s[n - 1]];
    }
  }

  /** Newlines at the end of the first `n` characters. */
  function Newlines(s: string, n: nat): nat
    requires n <= |s|
  {
    if n == 0 || s[n - 1] != '\n' then 0 else 1 + Newlines(s, n - 1)
  }

  lemma {:induction false} CollapseLeavesPairs(s: string, n: nat)
    requires n <= |s|
    ensures var out := CollapseFirst(s, n);
            && NoTripleNewline(out)
            && Newlines(out, |out|) == if Newlines(s, n) > 2 then 2 else Newlines(s, n)
  {
    if n > 0 {
      CollapseLeavesPairs(s, n - 1);
      var before := CollapseFirst(s, n - 1);
      var out := before + [s[n - 1]];
      SameNewlines(before, out, |before|);
      LongRun(s, n);
      LongRun(out, |out|);
      assert Newlines(out, |out|) == if s[n - 1] != '\n' then 0 else 1 + Newlines(before, |before|);
      assert before + "" == before;
      assert CollapseFirst(s, n) == if Newlines(s, n) > 2 then before else out;
    }
  }

  lemma LongRun(s: string, n: nat)
    requires n <= |s|
    ensures Newlines(s, n) > 2 <==> n > 2 && s[n - 1] == '\n' && s[n - 2] == '\n' && s[n - 3] == '\n'
  {
    assert n > 0 ==> Newlines(s, n) == if s[n - 1] != '\n' then 0 else 1 + Newlines(s, n - 1);
    assert n > 1 ==> Newlines(s, n - 1) == if s[n - 2] != '\n' then 0 else 1 + Newlines(s, n - 2);
    assert n > 2 ==> Newlines(s, n - 2) == if s[n - 3] != '\n' then 0 else 1 + Newlines(s, n - 3);
  }

  lemma {:induction false} SameNewlines(a: string, b: string, n: nat)
    requires n <= |a| && n <= |b| && a[..n] == b[..n]
    ensures Newlines(a, n) == Newlines(b, n)
  {
    if n > 0 {
      assert a[n - 1] == a[..n][n - 1] == b[n - 1];
      assert a[..n - 1] == a[..n][..n - 1] == b[..n - 1];
      SameNewlines(a, b, n - 1);
    }
  }

  lemma {:induction false} StripLeftKeepsPairs(s: string)
    requires NoTripleNewline(s)
    ensures NoTripleNewline(StripLeft(s))
  {
    if s != "" && IsSpace(s[0]) {
      assert forall k :: 0 <= k < |s| - 1 ==> s[1..][k] == s[k + 1];
      StripLeftKeepsPairs(s[1..]);
    }
  }

  lemma {:induction false} StripRightKeepsPairs(s: string)
    requires NoTripleNewline(s)
    ensures NoTripleNewline(StripRight(s))
  {
    if s != "" && IsSpace(s[|s| - 1]) {
      StripRightKeepsPairs(s[..|s| - 1]);
    }
  }

  /** Normalised text has no three newlines in a row and no space at its ends, and is left alone from then on. */
  lemma NormalizedIsStable(text: string)
    ensures var t := NormalizeWhitespace(text);
            NoTripleNewline(t) && Trimmed(t) && NormalizeWhitespace(t) == t
  {
    CollapseLeavesPairs(text, |text|);
    var collapsed := CollapseFirst(text, |text|);
    StripLeftKeepsPairs(collapsed);
    StripRightKeepsPairs(StripLeft(collapsed));
    StripTrims(collapsed);
    NormalKeeps(NormalizeWhitespace(text));
  }
}
