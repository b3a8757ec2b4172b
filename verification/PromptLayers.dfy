/** Validation of the prompt layers a client sends: normalising, removing duplicates, sorting. */
module PromptLayers {
  import opened Text

  /** `int(value)` of what was sent, if that gives a number. */
  datatype RawPriority = NoNumber | Number(value: int)

  /** A field that is missing or not text is `None`. */
  datatype RawLayer =
    | NotAnObject
    | Object(id: Option<string>, kind: Option<string>, content: Option<string>, priority: RawPriority, revision: Option<string>,
             sourcePath: Option<string>)

  datatype Layer = Layer(id: string, kind: string, priority: int, content: string, revision: Option<string>, sourcePath: Option<string>)

  datatype Reason = NotObject | IdRequired | TypeRequired | ContentRequired | Duplicate

  datatype Rejection = Rejection(index: nat, reason: Reason)

  datatype Identity = Identity(id: string, revision: string)

  datatype Reading = Accept(layer: Layer) | Reject(reason: Reason)

  datatype Validation = Validation(accepted: seq<Layer>, rejected: seq<Rejection>, seen: set<Identity>)

  // ---------- one layer ----------

  function Normalize(value: Option<string>, maxLength: nat): Option<string> {
    var s := NormalizeOptional(value);
    if s.Some? && |s.value| > maxLength then None else s
  }

  function Priority(p: RawPriority): int {
    match p
    case NoNumber => 100
    case Number(n) => if n < 0 then 0 else if n > 1000 then 1000 else n
  }

  function Read(raw: RawLayer): Reading {
    match raw
    case NotAnObject => Reject(NotObject)
    case Object(id, kind, content, priority, revision, sourcePath) =>
      var ownId, ownKind, ownContent := Normalize(id, 128), Normalize(kind, 64), Normalize(content, 200000);
      if ownId.None? then Reject(IdRequired)
      else if ownKind.None? then Reject(TypeRequired)
      else if ownContent.None? then Reject(ContentRequired)
      else Accept(Layer(ownId.value, ownKind.value, Priority(priority), ownContent.value, Normalize(revision, 128), Normalize(sourcePath, 4096)))
  }

  function Revision(l: Layer): string {
    if l.revision.Some? then l.revision.value else ""
  }

  function IdentityOf(l: Layer): Identity {
    Identity(l.id, Revision(l))
  }

  function Admit(v: Validation, raw: RawLayer, index: nat): Validation {
    match Read(raw)
    case Reject(reason) => v.(rejected := v.rejected + [Rejection(index, reason)])
    case Accept(layer) =>
      if IdentityOf(layer) in v.seen then v.(rejected := v.rejected + [Rejection(index, Duplicate)])
      else v.(accepted := v.accepted + [layer], seen := v.seen + {IdentityOf(layer)})
  }

  function AdmitFirst(raw: seq<RawLayer>, n: nat): Validation
    requires n <= |raw|
  {
    if n == 0 then Validation([], [], {}) else Admit(AdmitFirst(raw, n - 1), raw[n - 1], n - 1)
  }

  // ---------- the order ----------

  /** Text compared character by character. */
  predicate TextLess(a: string, b: string) {
    b != "" && (a == "" || a[0] < b[0] || (a[0] == b[0] && TextLess(a[1..], b[1..])))
  }

  predicate Less(a: Layer, b: Layer) {
    || a.priority < b.priority
    || (a.priority == b.priority && (TextLess(a.id, b.id) || (a.id == b.id && TextLess(Revision(a), Revision(b)))))
  }

  function Inserted(sorted: seq<Layer>, l: Layer): seq<Layer> {
    if sorted == [] || !Less(l, sorted[|sorted| - 1]) then sorted + [l]
    else Inserted(sorted[..|sorted| - 1], l) + [sorted[|sorted| - 1]]
  }

  function Sorted(layers: seq<Layer>): seq<Layer> {
    if layers == [] then [] else Inserted(Sorted(layers[..|layers| - 1]), layers[|layers| - 1])
  }

  /** Accepted layers in order, and the reasons for the others. */
  function Validated(raw: seq<RawLayer>): (seq<Layer>, seq<Rejection>) {
    var v := AdmitFirst(raw, |raw|);
    (Sorted(v.accepted), v.rejected)
  }

  method ValidateClientPromptLayers(raw: seq<RawLayer>) returns (accepted: seq<Layer>, rejected: seq<Rejection>)
    ensures (accepted, rejected) == Validated(raw)
  {
    hide Normalize;
    accepted, rejected := [], [];
    var seen: set<Identity> := {};
    for index := 0 to |raw|
      invariant Validation(accepted, rejected, seen) == AdmitFirst(raw, index)
    {
      var reading := Read(raw[index]);
      if reading.Reject? {
        rejected := rejected + [Rejection(index, reading.reason)];
        continue;
      }
      var identity := IdentityOf(reading.layer);
      if identity in seen {
        rejected := rejected + [Rejection(index, Duplicate)];
        continue;
      }
      seen := seen + {identity};
      accepted := accepted + [reading.layer];
    }
    accepted := Sorted(accepted);
  }

  // ---------- the order is total ----------

  lemma {:induction false} TextTrichotomy(a: string, b: string)
    ensures TextLess(a, b) || a == b || TextLess(b, a)
    ensures TextLess(a, b) ==> a != b && !TextLess(b, a)
  {
    if a != "" && b != "" && a[0] == b[0] {
      TextTrichotomy(a[1..], b[1..]);
      assert a == [a[0]] + a[1..] && b == [b[0]] + b[1..];
    }
  }

  lemma {:induction false} TextTransitive(a: string, b: string, c: string)
    requires TextLess(a, b) && TextLess(b, c)
    ensures TextLess(a, c)
  {
    if a != "" && a[0] == b[0] && b[0] == c[0] {
      TextTransitive(a[1..], b[1..], c[1..]);
    }
  }

  lemma LessIsTotal(a: Layer, b: Layer)
    ensures Less(a, b) ==> !Less(b, a) && (IdentityOf(a) != IdentityOf(b) || a.priority != b.priority)
    ensures !Less(a, b) && IdentityOf(a) != IdentityOf(b) ==> Less(b, a)
  {
    TextTrichotomy(a.id, b.id);
    TextTrichotomy(Revision(a), Revision(b));
  }

  lemma LessIsTransitive(a: Layer, b: Layer, c: Layer)
    requires Less(a, b) && Less(b, c)
    ensures Less(a, c)
  {
    if TextLess(a.id, b.id) && TextLess(b.id, c.id) {
      TextTransitive(a.id, b.id, c.id);
    }
    if TextLess(Revision(a), Revision(b)) && TextLess(Revision(b), Revision(c)) {
      TextTransitive(Revision(a), Revision(b), Revision(c));
    }
  }

  predicate Increasing(layers: seq<Layer>) {
    forall j, k :: 0 <= j < k < |layers| ==> Less(layers[j], layers[k])
  }

  predicate DistinctIdentities(layers: seq<Layer>) {
    forall j, k :: 0 <= j < k < |layers| ==> IdentityOf(layers[j]) != IdentityOf(layers[k])
  }

  lemma IncreasingAppend(layers: seq<Layer>, l: Layer)
    requires Increasing(layers) && (layers != [] ==> Less(layers[|layers| - 1], l))
    ensures Increasing(layers + [l])
  {
    forall k | 0 <= k < |layers|
      ensures Less(layers[k], l)
    {
      if k < |layers| - 1 {
        LessIsTransitive(layers[k], layers[|layers| - 1], l);
      }
    }
  }

  lemma {:induction false} InsertedIsIncreasing(sorted: seq<Layer>, l: Layer)
    requires Increasing(sorted) && forall k :: 0 <= k < |sorted| ==> IdentityOf(sorted[k]) != IdentityOf(l)
    ensures Increasing(Inserted(sorted, l)) && |Inserted(sorted, l)| == |sorted| + 1
    ensures forall x :: x in Inserted(sorted, l) <==> x in sorted || x == l
  {
    hide Less;
    if sorted == [] || !Less(l, sorted[|sorted| - 1]) {
      if sorted != [] {
        LessIsTotal(l, sorted[|sorted| - 1]);
      }
      IncreasingAppend(sorted, l);
    } else {
      var front, last := sorted[..|sorted| - 1], sorted[|sorted| - 1];
      assert sorted == front + [last];
      InsertedIsIncreasing(front, l);
      var r := Inserted(front, l);
      var end := r[|r| - 1];
      assert end in r;
      assert end == l || end in front;
      IncreasingAppend(r, last);
    }
  }

  lemma {:induction false} SortedIsIncreasing(layers: seq<Layer>)
    requires DistinctIdentities(layers)
    ensures Increasing(Sorted(layers)) && |Sorted(layers)| == |layers|
    ensures forall x :: x in Sorted(layers) <==> x in layers
  {
    if layers != [] {
      var front, last := layers[..|layers| - 1], layers[|layers| - 1];
      assert layers == front + [last];
      SortedIsIncreasing(front);
      var sorted := Sorted(front);
      forall k | 0 <= k < |sorted|
        ensures IdentityOf(sorted[k]) != IdentityOf(last)
      {
        assert sorted[k] in sorted;
      }
      hide Less, Sorted, IdentityOf;
      InsertedIsIncreasing(sorted, last);
    }
  }

  lemma {:induction false} IncreasingIsSorted(layers: seq<Layer>)
    requires Increasing(layers)
    ensures Sorted(layers) == layers
  {
    if layers != [] {
      var front, last := layers[..|layers| - 1], layers[|layers| - 1];
      IncreasingIsSorted(front);
      if front != [] {
        LessIsTotal(front[|front| - 1], last);
      }
      assert layers == front + [last];
    }
  }

  // ---------- what is accepted ----------

  /** A layer that reading again would not change. */
  predicate Clean(l: Layer) {
    && Normalize(Some(l.id), 128) == Some(l.id) && Normalize(Some(l.kind), 64) == Some(l.kind)
    && Normalize(Some(l.content), 200000) == Some(l.content) && 0 <= l.priority <= 1000
    && Normalize(l.revision, 128) == l.revision && Normalize(l.sourcePath, 4096) == l.sourcePath
  }

  lemma NormalizeTwice(value: Option<string>, maxLength: nat)
    ensures Normalize(Normalize(value, maxLength), maxLength) == Normalize(value, maxLength)
  {
    NormalizeOptionalTwice(value);
  }

  lemma ReadIsClean(raw: RawLayer)
    requires Read(raw).Accept?
    ensures Clean(Read(raw).layer)
  {
    NormalizeTwice(raw.id, 128);
    NormalizeTwice(raw.kind, 64);
    NormalizeTwice(raw.content, 200000);
    NormalizeTwice(raw.revision, 128);
    NormalizeTwice(raw.sourcePath, 4096);
    hide Normalize;
  }

  /** Layer `k` is valid and the first with its identity. */
  predicate FirstOfItsKind(raw: seq<RawLayer>, k: nat) {
    && k < |raw| && Read(raw[k]).Accept?
    && forall j :: 0 <= j < k && Read(raw[j]).Accept? ==> IdentityOf(Read(raw[j]).layer) != IdentityOf(Read(raw[k]).layer)
  }

  predicate WellKept(v: Validation) {
    && (forall k :: 0 <= k < |v.accepted| ==> Clean(v.accepted[k]) && IdentityOf(v.accepted[k]) in v.seen)
    && DistinctIdentities(v.accepted)
  }

  lemma {:induction false} AdmittedIsWellKept(raw: seq<RawLayer>, n: nat)
    requires n <= |raw|
    ensures WellKept(AdmitFirst(raw, n)) && |AdmitFirst(raw, n).accepted| + |AdmitFirst(raw, n).rejected| == n
  {
    hide Read, Clean;
    if n > 0 {
      AdmittedIsWellKept(raw, n - 1);
      if Read(raw[n - 1]).Accept? {
        ReadIsClean(raw[n - 1]);
      }
    }
  }

  predicate ReadsAs(raw: RawLayer, identity: Identity) {
    Read(raw).Accept? && IdentityOf(Read(raw).layer) == identity
  }

  /** Identities seen are those of the valid layers so far. */
  lemma {:induction false} SeenIsRead(raw: seq<RawLayer>, n: nat, identity: Identity)
    requires n <= |raw|
    ensures identity in AdmitFirst(raw, n).seen <==> exists j :: 0 <= j < n && ReadsAs(raw[j], identity)
  {
    hide Read, IdentityOf;
    if n > 0 {
      SeenIsRead(raw, n - 1, identity);
    }
  }

  lemma FirstIffUnseen(raw: seq<RawLayer>, k: nat)
    requires k < |raw| && Read(raw[k]).Accept?
    ensures FirstOfItsKind(raw, k) <==> IdentityOf(Read(raw[k]).layer) !in AdmitFirst(raw, k).seen
  {
    hide Read, IdentityOf, AdmitFirst;
    SeenIsRead(raw, k, IdentityOf(Read(raw[k]).layer));
  }

  ghost predicate AcceptsBefore(raw: seq<RawLayer>, n: nat, l: Layer) {
    exists k :: 0 <= k < n <= |raw| && FirstOfItsKind(raw, k) && Read(raw[k]).layer == l
  }

  /** Exactly the first valid layer of each identity is accepted. */
  lemma {:induction false} AcceptedIsFirst(raw: seq<RawLayer>, n: nat, l: Layer)
    requires n <= |raw|
    ensures l in AdmitFirst(raw, n).accepted <==> AcceptsBefore(raw, n, l)
  {
    hide Read, IdentityOf;
    if n > 0 {
      AcceptedIsFirst(raw, n - 1, l);
      if Read(raw[n - 1]).Accept? {
        FirstIffUnseen(raw, n - 1);
      }
      OneMoreAccepted(raw, n, l);
      hide AcceptsBefore, FirstOfItsKind;
    }
  }

  lemma OneMoreAccepted(raw: seq<RawLayer>, n: nat, l: Layer)
    requires 0 < n <= |raw|
    ensures AcceptsBefore(raw, n, l) <==> AcceptsBefore(raw, n - 1, l) || (FirstOfItsKind(raw, n - 1) && Read(raw[n - 1]).layer == l)
  {
    hide Read;
  }

  /** Output in strictly rising order, priorities in range, every layer accounted for, and the first of each identity kept. */
  lemma ValidationIsOrdered(raw: seq<RawLayer>)
    ensures var (accepted, rejected) := Validated(raw);
            && Increasing(accepted) && |accepted| + |rejected| == |raw|
            && (forall k :: 0 <= k < |accepted| ==> 0 <= accepted[k].priority <= 1000)
            && forall l :: l in accepted <==> AcceptsBefore(raw, |raw|, l)
  {
    var v := AdmitFirst(raw, |raw|);
    AdmittedIsWellKept(raw, |raw|);
    SortedIsIncreasing(v.accepted);
    var accepted := Sorted(v.accepted);
    forall k | 0 <= k < |accepted|
      ensures 0 <= accepted[k].priority <= 1000
    {
      assert accepted[k] in accepted;
    }
    forall l
      ensures l in accepted <==> AcceptsBefore(raw, |raw|, l)
    {
      AcceptedIsFirst(raw, |raw|, l);
    }
  }

  // ---------- validating twice ----------

  function AsRaw(l: Layer): RawLayer {
    Object(Some(l.id), Some(l.kind), Some(l.content), Number(l.priority), l.revision, l.sourcePath)
  }

  function AllAsRaw(layers: seq<Layer>): (raw: seq<RawLayer>)
    ensures |raw| == |layers| && forall k :: 0 <= k < |layers| ==> raw[k] == AsRaw(layers[k])
  {
    seq(|layers|, k requires 0 <= k < |layers| => AsRaw(layers[k]))
  }

  ghost predicate SeenAre(seen: set<Identity>, layers: seq<Layer>, n: nat) {
    forall i :: i in seen <==> exists k :: 0 <= k < n <= |layers| && IdentityOf(layers[k]) == i
  }

  lemma ReadsBack(l: Layer)
    requires Clean(l)
    ensures Read(AsRaw(l)) == Accept(l)
  {
    hide Normalize;
  }

  lemma SeenOneMore(seen: set<Identity>, layers: seq<Layer>, n: nat)
    requires n < |layers| && SeenAre(seen, layers, n) && DistinctIdentities(layers)
    ensures IdentityOf(layers[n]) !in seen && SeenAre(seen + {IdentityOf(layers[n])}, layers, n + 1)
  {
    hide IdentityOf;
  }

  lemma {:induction false} AdmitsAll(layers: seq<Layer>, n: nat)
    requires n <= |layers| && DistinctIdentities(layers) && forall k :: 0 <= k < |layers| ==> Clean(layers[k])
    ensures var v := AdmitFirst(AllAsRaw(layers), n);
            v.accepted == layers[..n] && v.rejected == [] && SeenAre(v.seen, layers, n)
  {
    hide Read, Clean, DistinctIdentities, IdentityOf, AsRaw;
    if n > 0 {
      AdmitsAll(layers, n - 1);
      ReadsBack(layers[n - 1]);
      SeenOneMore(AdmitFirst(AllAsRaw(layers), n - 1).seen, layers, n - 1);
      hide SeenAre;
      assert layers[..n] == layers[..n - 1] + [layers[n - 1]];
    }
  }

  lemma SortedIsDistinct(layers: seq<Layer>)
    requires DistinctIdentities(layers)
    ensures DistinctIdentities(Sorted(layers))
  {
    SortedIsIncreasing(layers);
    var sorted := Sorted(layers);
    forall j, k | 0 <= j < k < |sorted|
      ensures IdentityOf(sorted[j]) != IdentityOf(sorted[k])
    {
      assert sorted[j] in sorted && sorted[k] in sorted;
      LessIsTotal(sorted[j], sorted[k]);
      hide Less, IdentityOf;
      var m :| 0 <= m < |layers| && layers[m] == sorted[j];
      var n :| 0 <= n < |layers| && layers[n] == sorted[k];
      assert m != n;
    }
  }

  /** A second validation rejects nothing and returns the same list. */
  lemma ValidatingTwice(raw: seq<RawLayer>)
    ensures var accepted := Validated(raw).0;
            Validated(AllAsRaw(accepted)) == (accepted, [])
  {
    var v := AdmitFirst(raw, |raw|);
    AdmittedIsWellKept(raw, |raw|);
    SortedIsIncreasing(v.accepted);
    var accepted := Sorted(v.accepted);
    forall k | 0 <= k < |accepted|
      ensures Clean(accepted[k])
    {
      assert accepted[k] in accepted;
    }
    SortedIsDistinct(v.accepted);
    AdmitsAll(accepted, |accepted|);
    assert accepted[..|accepted|] == accepted;
    IncreasingIsSorted(accepted);
  }

  // ---------- what is read, and what is turned away ----------

  /** Text that is not blank and, trimmed, not too long. */
  predicate Usable(value: Option<string>, maxLength: nat) {
    value.Some? && !AllSpace(value.value) && |Strip(value.value)| <= maxLength
  }

  lemma NormalizeIs(value: Option<string>, maxLength: nat)
    ensures Normalize(value, maxLength) == if Usable(value, maxLength) then Some(Strip(value.value)) else None
  {
    if value.Some? {
      BlankIffSpace(value.value);
    }
    hide AllSpace, Strip;
  }

  predicate UsableFields(raw: RawLayer) {
    raw.Object? && Usable(raw.id, 128) && Usable(raw.kind, 64) && Usable(raw.content, 200000)
  }

  /** The layer holds what was sent, trimmed; what may be missing and is unusable is left out, and the priority is in range. */
  predicate Holds(l: Layer, raw: RawLayer)
    requires UsableFields(raw)
  {
    && l.id == Strip(raw.id.value) && l.kind == Strip(raw.kind.value) && l.content == Strip(raw.content.value)
    && l.revision == (if Usable(raw.revision, 128) then Some(Strip(raw.revision.value)) else None)
    && l.sourcePath == (if Usable(raw.sourcePath, 4096) then Some(Strip(raw.sourcePath.value)) else None)
    && match raw.priority
       case NoNumber => l.priority == 100
       case Number(n) =>
         && (0 <= n <= 1000 ==> l.priority == n)
         && (n < 0 ==> l.priority == 0) && (n > 1000 ==> l.priority == 1000)
  }

  /** A layer is accepted exactly if its id, type and content are usable; otherwise the first that is not is the reason. */
  lemma ReadIs(raw: RawLayer)
    ensures UsableFields(raw) ==> Read(raw).Accept? && Holds(Read(raw).layer, raw)
    ensures !UsableFields(raw) ==>
              Read(raw) == Reject(if raw.NotAnObject? then NotObject
                                  else if !Usable(raw.id, 128) then IdRequired
                                  else if !Usable(raw.kind, 64) then TypeRequired
                                  else ContentRequired)
  {
    if raw.Object? {
      NormalizeIs(raw.id, 128);
      NormalizeIs(raw.kind, 64);
      NormalizeIs(raw.content, 200000);
      NormalizeIs(raw.revision, 128);
      NormalizeIs(raw.sourcePath, 4096);
    }
    hide Normalize, Usable, Strip;
  }

  /** A layer is turned away for what it lacks, or because an earlier valid one has its identity. */
  ghost predicate TurnedAway(raw: seq<RawLayer>, n: nat, r: Rejection) {
    && r.index < n <= |raw|
    && if Read(raw[r.index]).Reject? then Read(raw[r.index]).reason == r.reason
       else r.reason == Duplicate && exists j :: 0 <= j < r.index && SameIdentity(raw[j], raw[r.index])
  }

  predicate SameIdentity(a: RawLayer, b: RawLayer) {
    && Read(a).Accept? && Read(b).Accept? && Read(a).layer.id == Read(b).layer.id
    && (if Read(a).layer.revision.Some? then Read(a).layer.revision.value else "")
       == (if Read(b).layer.revision.Some? then Read(b).layer.revision.value else "")
  }

  lemma {:induction false} RejectionsAreExplained(raw: seq<RawLayer>, n: nat, r: Rejection)
    requires n <= |raw|
    ensures r in AdmitFirst(raw, n).rejected <==> TurnedAway(raw, n, r)
    decreases n
  {
    hide Read, IdentityOf;
    if n > 0 {
      RejectionsAreExplained(raw, n - 1, r);
      if Read(raw[n - 1]).Accept? {
        SeenIsRead(raw, n - 1, IdentityOf(Read(raw[n - 1]).layer));
        SeenMeansSame(raw, n - 1);
      }
      hide SameIdentity, ReadsAs;
    }
  }

  lemma SeenMeansSame(raw: seq<RawLayer>, n: nat)
    requires n < |raw| && Read(raw[n]).Accept?
    ensures (exists j :: 0 <= j < n && ReadsAs(raw[j], IdentityOf(Read(raw[n]).layer)))
            <==> exists j :: 0 <= j < n && SameIdentity(raw[j], raw[n])
  {
    hide Read;
    assert forall j :: 0 <= j < n ==> (ReadsAs(raw[j], IdentityOf(Read(raw[n]).layer)) <==> SameIdentity(raw[j], raw[n]));
  }

  /** The rejections of a validation, stated both ways. */
  lemma RejectedExactly(raw: seq<RawLayer>, r: Rejection)
    ensures r in Validated(raw).1 <==> TurnedAway(raw, |raw|, r)
  {
    RejectionsAreExplained(raw, |raw|, r);
  }

  // ---------- the order in its own terms ----------

  /** At the first place where the texts differ, `a` has ended or has the smaller character. */
  ghost predicate Precedes(a: string, b: string) {
    exists m: nat :: DiffersAt(a, b, m)
  }

  predicate DiffersAt(a: string, b: string, m: nat) {
    m <= |a| && m < |b| && a[..m] == b[..m] && (m == |a| || a[m] < b[m])
  }

  lemma {:induction false} TextLessIff(a: string, b: string)
    ensures TextLess(a, b) <==> Precedes(a, b)
    decreases |a|
  {
    if a == "" {
      assert b != "" ==> DiffersAt(a, b, 0);
    } else if b != "" {
      TextLessIff(a[1..], b[1..]);
      if a[0] < b[0] {
        assert DiffersAt(a, b, 0);
      }
      forall m: nat | a[0] == b[0]
        ensures DiffersAt(a[1..], b[1..], m) <==> DiffersAt(a, b, m + 1)
      {
        DiffersLater(a, b, m);
      }
      if a[0] == b[0] && Precedes(a[1..], b[1..]) {
        var m: nat :| DiffersAt(a[1..], b[1..], m);
        assert DiffersAt(a, b, m + 1);
      }
      if Precedes(a, b) && a[0] >= b[0] {
        FirstDifference(a, b);
      }
    }
  }

  lemma DiffersLater(a: string, b: string, m: nat)
    requires a != "" && b != "" && a[0] == b[0]
    ensures DiffersAt(a[1..], b[1..], m) <==> DiffersAt(a, b, m + 1)
  {
    if m < |a| && m + 1 < |b| {
      assert a[..m + 1] == [a[0]] + a[1..][..m] && b[..m + 1] == [b[0]] + b[1..][..m];
      assert a[1..][..m] == a[..m + 1][1..] && b[1..][..m] == b[..m + 1][1..];
    }
  }

  lemma FirstDifference(a: string, b: string)
    requires a != "" && b != "" && Precedes(a, b) && a[0] >= b[0]
    ensures a[0] == b[0] && Precedes(a[1..], b[1..])
  {
    var m: nat :| DiffersAt(a, b, m);
    assert m > 0;
    assert a[0] == a[..m][0] == b[..m][0] == b[0];
    DiffersLater(a, b, m - 1);
  }

  /** Lower priorities come first, then ids and then revisions in alphabetical order. */
  lemma AcceptedAreOrdered(raw: seq<RawLayer>, j: nat, k: nat)
    requires j < k < |Validated(raw).0|
    ensures var a, b := Validated(raw).0[j], Validated(raw).0[k];
            || a.priority < b.priority
            || (a.priority == b.priority && Precedes(a.id, b.id))
            || (a.priority == b.priority && a.id == b.id
                && Precedes(if a.revision.Some? then a.revision.value else "", if b.revision.Some? then b.revision.value else ""))
  {
    ValidationIsOrdered(raw);
    var a, b := Validated(raw).0[j], Validated(raw).0[k];
    hide Validated, Precedes, TextLess;
    assert Less(a, b);
    TextLessIff(a.id, b.id);
    TextLessIff(Revision(a), Revision(b));
  }
}
