/** Inlining local definitions of a JSON schema (JSON Schema Core 2020-12, sections 8.2.3.1 and 8.2.4). */
module LocalDefs {
  import opened SchemaValues
  import opened Text

  type Defs = map<string, Node>

  const PREFIX := "#/$defs/"

  /** The definition a value refers to, if it is the text of a local reference to an object. */
  function Target(defs: Defs, ref: Node): Option<string> {
    if ref.Str? && |PREFIX| <= |ref.text| && ref.text[..|PREFIX|] == PREFIX then
      var key := ref.text[|PREFIX|..];
      if key in defs && defs[key].Dict? then Some(key) else None
    else None
  }

  /** The definition an object stands for. */
  function Ref(defs: Defs, fields: map<string, Node>): Option<string> {
    if "$ref" in fields then Target(defs, fields["$ref"]) else None
  }

  predicate IsWrapper(fields: map<string, Node>) {
    "allOf" in fields && fields["allOf"].List? && |fields["allOf"].items| == 1
  }

  /** The members that are resolved in place. */
  function Visited(defs: Defs, fields: map<string, Node>): set<string> {
    fields.Keys - {if Ref(defs, fields).Some? then "$ref" else if IsWrapper(fields) then "allOf" else "$defs"}
  }

  // ---------- where resolving ends ----------

  /** Resolving ends, following at most `fuel` references one inside the other. */
  predicate Ends(defs: Defs, node: Node, fuel: nat)
    decreases fuel, node
  {
    match node
    case List(items) => forall k :: 0 <= k < |items| ==> Ends(defs, items[k], fuel)
    case Dict(fields) =>
      var ref := Ref(defs, fields);
      && (forall k :: k in fields && k in Visited(defs, fields) ==> Ends(defs, fields[k], fuel))
      && (ref.Some? ==> fuel > 0 && Ends(defs, defs[ref.value], fuel - 1))
      && (ref.None? && IsWrapper(fields) ==> Ends(defs, fields["allOf"].items[0], fuel))
    case _ => true
  }

  lemma {:induction false} MoreFuelEnds(defs: Defs, node: Node, fuel: nat, more: nat)
    requires Ends(defs, node, fuel) && fuel <= more
    ensures Ends(defs, node, more)
    decreases fuel, node
  {
    match node
    case List(items) =>
      forall k | 0 <= k < |items|
        ensures Ends(defs, items[k], more)
      {
        MoreFuelEnds(defs, items[k], fuel, more);
      }
    case Dict(fields) =>
      forall k | k in fields && k in Visited(defs, fields)
        ensures Ends(defs, fields[k], more)
      {
        MoreFuelEnds(defs, fields[k], fuel, more);
      }
      var ref := Ref(defs, fields);
      if ref.Some? {
        MoreFuelEnds(defs, defs[ref.value], fuel - 1, more - 1);
      } else if IsWrapper(fields) {
        MoreFuelEnds(defs, fields["allOf"].items[0], fuel, more);
      }
    case _ =>
  }

  // ---------- resolving ----------

  function Merged(base: Node, extras: map<string, Node>): Node {
    if base.Dict? then Dict(base.fields + extras) else if extras != map[] then Dict(extras) else base
  }

  /** Follows references as long as there is fuel, and otherwise goes down the tree. */
  function Resolve(defs: Defs, node: Node, ghost fuel: nat): Node
    requires Ends(defs, node, fuel)
    decreases fuel, node
  {
    match node
    case List(items) => List(seq(|items|, k requires 0 <= k < |items| => Resolve(defs, items[k], fuel)))
    case Dict(fields) =>
      var ref := Ref(defs, fields);
      var extras := map k | k in fields && k in Visited(defs, fields) :: Resolve(defs, fields[k], fuel);
      if ref.Some? then Merged(Resolve(defs, defs[ref.value], fuel - 1), extras)
      else if IsWrapper(fields) then Merged(Resolve(defs, fields["allOf"].items[0], fuel), extras)
      else Dict(extras)
    case _ => node
  }

  function ResolveLocalDefs(schema: map<string, Node>, ghost fuel: nat): Node
    requires "$defs" in schema && schema["$defs"].Dict? ==> Ends(schema["$defs"].fields, Dict(schema), fuel)
  {
    if "$defs" !in schema || !schema["$defs"].Dict? then Dict(schema)
    else Resolve(schema["$defs"].fields, Dict(schema), fuel)
  }

  /** The fuel only serves termination: more of it gives the same result. */
  lemma {:induction false} FuelDoesNotMatter(defs: Defs, node: Node, fuel: nat, more: nat)
    requires Ends(defs, node, fuel) && fuel <= more
    ensures Ends(defs, node, more) && Resolve(defs, node, more) == Resolve(defs, node, fuel)
    decreases fuel, node
  {
    MoreFuelEnds(defs, node, fuel, more);
    match node
    case List(items) =>
      forall k | 0 <= k < |items|
        ensures Resolve(defs, items[k], more) == Resolve(defs, items[k], fuel)
      {
        FuelDoesNotMatter(defs, items[k], fuel, more);
      }
    case Dict(fields) =>
      var ref := Ref(defs, fields);
      if ref.Some? {
        FuelDoesNotMatter(defs, defs[ref.value], fuel - 1, more - 1);
      } else if IsWrapper(fields) {
        FuelDoesNotMatter(defs, fields["allOf"].items[0], fuel, more);
      }
      forall k | k in fields && k in Visited(defs, fields)
        ensures Resolve(defs, fields[k], more) == Resolve(defs, fields[k], fuel)
      {
        FuelDoesNotMatter(defs, fields[k], fuel, more);
      }
      SameMembers(defs, fields, fuel, more);
    case _ =>
  }

  lemma SameMembers(defs: Defs, fields: map<string, Node>, fuel: nat, more: nat)
    requires Ends(defs, Dict(fields), fuel) && Ends(defs, Dict(fields), more)
    requires forall k :: k in fields && k in Visited(defs, fields) ==> Resolve(defs, fields[k], more) == Resolve(defs, fields[k], fuel)
    requires var ref := Ref(defs, fields);
             && (ref.Some? ==> Resolve(defs, defs[ref.value], more - 1) == Resolve(defs, defs[ref.value], fuel - 1))
             && (ref.None? && IsWrapper(fields) ==>
                   Resolve(defs, fields["allOf"].items[0], more) == Resolve(defs, fields["allOf"].items[0], fuel))
    ensures Resolve(defs, Dict(fields), more) == Resolve(defs, Dict(fields), fuel)
  {
    var extras := map k | k in fields && k in Visited(defs, fields) :: Resolve(defs, fields[k], fuel);
    var extras2 := map k | k in fields && k in Visited(defs, fields) :: Resolve(defs, fields[k], more);
    assert extras == extras2;
  }

  // ---------- nothing is lost and nothing is added ----------

  datatype PathStep = Key(name: string) | Index(at: nat)

  /** The text or literal at the end of a path. */
  function Leaf(node: Node, path: seq<PathStep>): Option<Node>
    decreases node
  {
    match node
    case List(items) =>
      if path != [] && path[0].Index? && path[0].at < |items| then Leaf(items[path[0].at], path[1..]) else None
    case Dict(fields) =>
      if path != [] && path[0].Key? && path[0].name in fields then Leaf(fields[path[0].name], path[1..]) else None
    case _ => if path == [] then Some(node) else None
  }

  /** What an object with a reference or a wrapper adds to its own members. */
  predicate LooksFurther(defs: Defs, fields: map<string, Node>, path: seq<PathStep>) {
    if path != [] && path[0].Key? then path[0].name !in Visited(defs, fields) else Visited(defs, fields) == {}
  }

  /** Reading the unresolved schema: own members first, then those behind the reference or the wrapper. */
  function LeafBehind(defs: Defs, node: Node, path: seq<PathStep>, ghost fuel: nat): Option<Node>
    requires Ends(defs, node, fuel)
    decreases fuel, node
  {
    match node
    case List(items) =>
      if path != [] && path[0].Index? && path[0].at < |items| then LeafBehind(defs, items[path[0].at], path[1..], fuel) else None
    case Dict(fields) =>
      var ref := Ref(defs, fields);
      if path != [] && path[0].Key? && path[0].name in Visited(defs, fields) then
        LeafBehind(defs, fields[path[0].name], path[1..], fuel)
      else if !LooksFurther(defs, fields, path) then None
      else if ref.Some? then LeafBehind(defs, defs[ref.value], path, fuel - 1)
      else if IsWrapper(fields) then LeafBehind(defs, fields["allOf"].items[0], path, fuel)
      else None
    case _ => if path == [] then Some(node) else None
  }

  lemma MergedLeaf(base: Node, extras: map<string, Node>, path: seq<PathStep>)
    ensures Leaf(Merged(base, extras), path) ==
      if path != [] && path[0].Key? && path[0].name in extras then Leaf(extras[path[0].name], path[1..])
      else if (path != [] && path[0].Key?) || extras == map[] then Leaf(base, path)
      else None
  {
  }

  /** Every path leads to the same text or literal before resolving and after. */
  lemma {:induction false} ResolvingKeepsEveryLeaf(defs: Defs, node: Node, path: seq<PathStep>, fuel: nat)
    requires Ends(defs, node, fuel)
    ensures Leaf(Resolve(defs, node, fuel), path) == LeafBehind(defs, node, path, fuel)
    decreases fuel, node
  {
    match node
    case List(items) =>
      if path != [] && path[0].Index? && path[0].at < |items| {
        ResolvingKeepsEveryLeaf(defs, items[path[0].at], path[1..], fuel);
      }
    case Dict(fields) =>
      var ref := Ref(defs, fields);
      var extras := map k | k in fields && k in Visited(defs, fields) :: Resolve(defs, fields[k], fuel);
      assert extras.Keys == Visited(defs, fields);
      assert extras == map[] <==> extras.Keys == {};
      if path != [] && path[0].Key? && path[0].name in extras {
        ResolvingKeepsEveryLeaf(defs, fields[path[0].name], path[1..], fuel);
      }
      if ref.Some? {
        ResolvingKeepsEveryLeaf(defs, defs[ref.value], path, fuel - 1);
        MergedLeaf(Resolve(defs, defs[ref.value], fuel - 1), extras, path);
      } else if IsWrapper(fields) {
        ResolvingKeepsEveryLeaf(defs, fields["allOf"].items[0], path, fuel);
        MergedLeaf(Resolve(defs, fields["allOf"].items[0], fuel), extras, path);
      }
    case _ =>
  }

  // ---------- no local reference is left ----------

  /** No object within refers to a definition that is an object. */
  predicate Clean(defs: Defs, node: Node)
    decreases node
  {
    match node
    case List(items) => forall k :: 0 <= k < |items| ==> Clean(defs, items[k])
    case Dict(fields) => Ref(defs, fields).None? && forall k :: k in fields ==> Clean(defs, fields[k])
    case _ => true
  }

  /** What is left of a value that resolves to something else than an object: wrappers without members of their own. */
  function Unwrapped(defs: Defs, node: Node, ghost fuel: nat): Option<Node>
    requires Ends(defs, node, fuel)
    decreases fuel, node
  {
    if !node.Dict? then Some(node)
    else
      var ref := Ref(defs, node.fields);
      if Visited(defs, node.fields) != {} then None
      else if ref.Some? then Unwrapped(defs, defs[ref.value], fuel - 1)
      else if IsWrapper(node.fields) then Unwrapped(defs, node.fields["allOf"].items[0], fuel)
      else None
  }

  /** The value ends up as the bare text of a local reference. */
  predicate BecomesReference(defs: Defs, node: Node, ghost fuel: nat)
    requires Ends(defs, node, fuel)
  {
    var left := Unwrapped(defs, node, fuel);
    left.Some? && Target(defs, left.value).Some?
  }

  /**
   * No `$ref` that is not overridden ends up as the text of a local reference. Members named in `hidden` are
   * overridden by those of an enclosing object.
   */
  predicate Tidy(defs: Defs, node: Node, ghost fuel: nat, hidden: set<string>)
    requires Ends(defs, node, fuel)
    decreases fuel, node
  {
    match node
    case List(items) => forall k :: 0 <= k < |items| ==> Tidy(defs, items[k], fuel, {})
    case Dict(fields) =>
      var ref := Ref(defs, fields);
      var own := Visited(defs, fields);
      && (forall k :: k in fields && k in own && k !in hidden ==> Tidy(defs, fields[k], fuel, {}))
      && ("$ref" in own && "$ref" !in hidden ==> !BecomesReference(defs, fields["$ref"], fuel))
      && (ref.Some? ==>
            if Unwrapped(defs, defs[ref.value], fuel - 1).None? then Tidy(defs, defs[ref.value], fuel - 1, hidden + own)
            else own == {} ==> Tidy(defs, defs[ref.value], fuel - 1, {}))
      && (ref.None? && IsWrapper(fields) ==>
            if Unwrapped(defs, fields["allOf"].items[0], fuel).None? then Tidy(defs, fields["allOf"].items[0], fuel, hidden + own)
            else own == {} ==> Tidy(defs, fields["allOf"].items[0], fuel, {}))
    case _ => true
  }

  /** Clean apart from the hidden members of an object. */
  predicate CleanExcept(defs: Defs, node: Node, hidden: set<string>) {
    if node.Dict? then
      && ("$ref" in node.fields && "$ref" !in hidden ==> Target(defs, node.fields["$ref"]).None?)
      && forall k :: k in node.fields && k !in hidden ==> Clean(defs, node.fields[k])
    else Clean(defs, node)
  }

  lemma {:induction false} ResolvesToObjectIffNotUnwrapped(defs: Defs, node: Node, fuel: nat)
    requires Ends(defs, node, fuel)
    ensures Resolve(defs, node, fuel).Dict? <==> Unwrapped(defs, node, fuel).None?
    ensures Target(defs, Resolve(defs, node, fuel)).Some? <==> BecomesReference(defs, node, fuel)
    decreases fuel, node
  {
    if node.Dict? {
      var fields := node.fields;
      var ref := Ref(defs, fields);
      var extras := map k | k in fields && k in Visited(defs, fields) :: Resolve(defs, fields[k], fuel);
      assert extras.Keys == Visited(defs, fields);
      assert extras == map[] <==> extras.Keys == {};
      if ref.Some? {
        ResolvesToObjectIffNotUnwrapped(defs, defs[ref.value], fuel - 1);
      } else if IsWrapper(fields) {
        ResolvesToObjectIffNotUnwrapped(defs, fields["allOf"].items[0], fuel);
      }
    }
  }

  lemma MergedIsCleanExcept(defs: Defs, base: Node, extras: map<string, Node>, hidden: set<string>)
    ensures CleanExcept(defs, Merged(base, extras), hidden) <==>
      && (forall k :: k in extras && k !in hidden ==> Clean(defs, extras[k]))
      && ("$ref" in extras && "$ref" !in hidden ==> Target(defs, extras["$ref"]).None?)
      && (if base.Dict? then CleanExcept(defs, base, hidden + extras.Keys) else extras.Keys == {} ==> CleanExcept(defs, base, {}))
  {
    hide Clean, Target;
    assert extras == map[] <==> extras.Keys == {};
    if base.Dict? {
      var all := base.fields + extras;
      assert forall k :: k in all <==> k in base.fields || k in extras;
      assert forall k :: k in all ==> all[k] == if k in extras then extras[k] else base.fields[k];
    }
  }

  /** Resolving leaves a reference to an object behind exactly if some `$ref` ends up as one and is not overridden. */
  lemma {:induction false} ResolvedIsCleanIffTidy(defs: Defs, node: Node, fuel: nat, hidden: set<string>)
    requires Ends(defs, node, fuel)
    ensures CleanExcept(defs, Resolve(defs, node, fuel), hidden) <==> Tidy(defs, node, fuel, hidden)
    decreases fuel, node
  {
    match node
    case List(items) =>
      forall k | 0 <= k < |items|
        ensures Clean(defs, Resolve(defs, items[k], fuel)) <==> Tidy(defs, items[k], fuel, {})
      {
        ResolvedIsCleanIffTidy(defs, items[k], fuel, {});
        NothingHidden(defs, Resolve(defs, items[k], fuel));
      }
      var resolved := Resolve(defs, node, fuel);
      assert resolved.List? && |resolved.items| == |items|;
      assert forall k :: 0 <= k < |items| ==> resolved.items[k] == Resolve(defs, items[k], fuel);
    case Dict(fields) =>
      var ref := Ref(defs, fields);
      var own := Visited(defs, fields);
      var extras := map k | k in fields && k in own :: Resolve(defs, fields[k], fuel);
      assert extras.Keys == own;
      forall k | k in extras
        ensures Clean(defs, extras[k]) <==> Tidy(defs, fields[k], fuel, {})
        ensures Target(defs, extras[k]).Some? <==> BecomesReference(defs, fields[k], fuel)
      {
        ResolvedIsCleanIffTidy(defs, fields[k], fuel, {});
        NothingHidden(defs, extras[k]);
        ResolvesToObjectIffNotUnwrapped(defs, fields[k], fuel);
      }
      if ref.Some? {
        BaseIsCleanIffTidy(defs, defs[ref.value], fuel - 1, hidden, extras);
        ResolvedIsCleanIffTidy(defs, defs[ref.value], fuel - 1, hidden + own);
        ResolvedIsCleanIffTidy(defs, defs[ref.value], fuel - 1, {});
      } else if IsWrapper(fields) {
        BaseIsCleanIffTidy(defs, fields["allOf"].items[0], fuel, hidden, extras);
        ResolvedIsCleanIffTidy(defs, fields["allOf"].items[0], fuel, hidden + own);
        ResolvedIsCleanIffTidy(defs, fields["allOf"].items[0], fuel, {});
      }
      hide Clean, Target, Ref, Visited, IsWrapper, Unwrapped, BecomesReference, Merged;
    case _ =>
  }

  lemma BaseIsCleanIffTidy(defs: Defs, base: Node, fuel: nat, hidden: set<string>, extras: map<string, Node>)
    requires Ends(defs, base, fuel)
    ensures CleanExcept(defs, Merged(Resolve(defs, base, fuel), extras), hidden) <==>
      && (forall k :: k in extras && k !in hidden ==> Clean(defs, extras[k]))
      && ("$ref" in extras && "$ref" !in hidden ==> Target(defs, extras["$ref"]).None?)
      && (if Unwrapped(defs, base, fuel).None? then CleanExcept(defs, Resolve(defs, base, fuel), hidden + extras.Keys)
          else extras.Keys == {} ==> CleanExcept(defs, Resolve(defs, base, fuel), {}))
  {
    MergedIsCleanExcept(defs, Resolve(defs, base, fuel), extras, hidden);
    ResolvesToObjectIffNotUnwrapped(defs, base, fuel);
    hide Clean, Target, Merged, Resolve, Unwrapped, CleanExcept;
  }

  lemma NothingHidden(defs: Defs, node: Node)
    ensures CleanExcept(defs, node, {}) <==> Clean(defs, node)
  {
  }

  /** A resolved schema carries no reference to an object among its definitions, exactly if it is tidy. */
  lemma ResolvedSchemaIsClean(schema: map<string, Node>, fuel: nat)
    requires "$defs" in schema && schema["$defs"].Dict? && Ends(schema["$defs"].fields, Dict(schema), fuel)
    ensures Clean(schema["$defs"].fields, ResolveLocalDefs(schema, fuel)) <==> Tidy(schema["$defs"].fields, Dict(schema), fuel, {})
  {
    ResolvedIsCleanIffTidy(schema["$defs"].fields, Dict(schema), fuel, {});
    NothingHidden(schema["$defs"].fields, ResolveLocalDefs(schema, fuel));
  }

  /** No one-element `allOf` wraps the bare text of a local reference; in a valid schema it holds an object or a boolean. */
  predicate WrapsSchemas(defs: Defs, node: Node, ghost fuel: nat)
    requires Ends(defs, node, fuel)
    decreases fuel, node
  {
    match node
    case List(items) => forall k :: 0 <= k < |items| ==> WrapsSchemas(defs, items[k], fuel)
    case Dict(fields) =>
      var ref := Ref(defs, fields);
      && (forall k :: k in fields && k in Visited(defs, fields) ==> WrapsSchemas(defs, fields[k], fuel))
      && (ref.Some? ==> WrapsSchemas(defs, defs[ref.value], fuel - 1))
      && (ref.None? && IsWrapper(fields) ==>
            Target(defs, fields["allOf"].items[0]).None? && WrapsSchemas(defs, fields["allOf"].items[0], fuel))
    case _ => true
  }

  lemma {:induction false} WrappedSchemasAreTidy(defs: Defs, node: Node, fuel: nat, hidden: set<string>)
    requires Ends(defs, node, fuel) && WrapsSchemas(defs, node, fuel)
    ensures Tidy(defs, node, fuel, hidden)
    ensures BecomesReference(defs, node, fuel) ==> Target(defs, node).Some?
    decreases fuel, node
  {
    match node
    case List(items) =>
      forall k | 0 <= k < |items|
        ensures Tidy(defs, items[k], fuel, {})
      {
        WrappedSchemasAreTidy(defs, items[k], fuel, {});
      }
    case Dict(fields) =>
      var ref := Ref(defs, fields);
      var own := Visited(defs, fields);
      forall k | k in fields && k in own
        ensures Tidy(defs, fields[k], fuel, {})
        ensures BecomesReference(defs, fields[k], fuel) ==> Target(defs, fields[k]).Some?
      {
        WrappedSchemasAreTidy(defs, fields[k], fuel, {});
      }
      if ref.Some? {
        WrappedSchemasAreTidy(defs, defs[ref.value], fuel - 1, hidden + own);
        WrappedSchemasAreTidy(defs, defs[ref.value], fuel - 1, {});
      } else if IsWrapper(fields) {
        WrappedSchemasAreTidy(defs, fields["allOf"].items[0], fuel, hidden + own);
        WrappedSchemasAreTidy(defs, fields["allOf"].items[0], fuel, {});
      }
    case _ =>
  }

  /** Text wrapped in an `allOf` under `$ref` unwraps to a reference that is no longer looked at. */
  lemma WrappedTextBecomesReference()
    ensures var defs: Defs := map["A" := Dict(map[])];
            var node := Dict(map["$ref" := Dict(map["allOf" := List([Str("#/$defs/A")])])]);
            && Ends(defs, node, 0)
            && Resolve(defs, node, 0) == Dict(map["$ref" := Str("#/$defs/A")])
            && !Clean(defs, Resolve(defs, node, 0))
  {
    var defs: Defs := map["A" := Dict(map[])];
    var text := Str("#/$defs/A");
    var inner := map["allOf" := List([text])];
    var fields := map["$ref" := Dict(inner)];
    assert text.text[|PREFIX|..] == "A" && text.text[..|PREFIX|] == PREFIX;
    assert Target(defs, text) == Some("A");
    assert Visited(defs, inner) == {};
    assert Resolve(defs, Dict(inner), 0) == text;
    assert Visited(defs, fields) == {"$ref"};
    assert Resolve(defs, Dict(fields), 0) == Dict(map["$ref" := text]);
  }

  // ---------- the members of a resolved object ----------

  /** The object refers to this definition, which is an object. */
  predicate PointsTo(defs: Defs, fields: map<string, Node>, key: string) {
    && "$ref" in fields && fields["$ref"].Str? && fields["$ref"].text == "#/$defs/" + key
    && key in defs && defs[key].Dict?
  }

  lemma PointsToIff(defs: Defs, fields: map<string, Node>, key: string)
    ensures PointsTo(defs, fields, key) <==> Ref(defs, fields) == Some(key)
  {
    assert PREFIX == "#/$defs/";
    if PointsTo(defs, fields, key) {
      var text := fields["$ref"].text;
      assert text[..|PREFIX|] == PREFIX && text[|PREFIX|..] == key;
    }
    if Ref(defs, fields) == Some(key) {
      var text := fields["$ref"].text;
      assert text == text[..|PREFIX|] + text[|PREFIX|..];
    }
  }

  function Member(node: Node, k: string): Option<Node> {
    if node.Dict? && k in node.fields then Some(node.fields[k]) else None
  }

  /** The members on top of those of `base`, or `base` itself if there are none to add. */
  ghost predicate Overlays(r: Node, base: Node, members: map<string, Node>) {
    if base.Dict? || members.Keys != {} then
      r.Dict? && forall k :: Member(r, k) == if k in members then Some(members[k]) else Member(base, k)
    else r == base
  }

  /** The members but one, each resolved. */
  ghost function Others(defs: Defs, fields: map<string, Node>, but: string, fuel: nat): (members: map<string, Node>)
    requires forall k :: k in fields && k != but ==> Ends(defs, fields[k], fuel)
    ensures forall k :: k in members <==> k in fields && k != but
    ensures forall k :: k in members ==> members[k] == Resolve(defs, fields[k], fuel)
  {
    map k | k in fields && k != but :: Resolve(defs, fields[k], fuel)
  }

  ghost predicate Extends(defs: Defs, r: Node, base: Node, fields: map<string, Node>, but: string, fuel: nat) {
    && (forall k :: k in fields && k != but ==> Ends(defs, fields[k], fuel))
    && Overlays(r, base, Others(defs, fields, but, fuel))
  }

  /** A reference becomes the definition, resolved, with the object's other members in place of the definition's own. */
  lemma ReferenceIsReplaced(defs: Defs, fields: map<string, Node>, key: string, fuel: nat)
    requires Ends(defs, Dict(fields), fuel) && PointsTo(defs, fields, key)
    ensures fuel > 0 && Ends(defs, defs[key], fuel - 1)
    ensures Extends(defs, Resolve(defs, Dict(fields), fuel), Resolve(defs, defs[key], fuel - 1), fields, "$ref", fuel)
  {
    PointsToIff(defs, fields, key);
    var extras := ResolvedObject(defs, fields, fuel);
    hide Resolve, Ends, Merged;
    MergedExtends(defs, fields, Resolve(defs, defs[key], fuel - 1), extras, "$ref", fuel);
  }

  /** An `allOf` of one schema becomes that schema, with the object's other members in place of its own. */
  lemma WrapperIsFlattened(defs: Defs, fields: map<string, Node>, fuel: nat)
    requires Ends(defs, Dict(fields), fuel) && forall key :: !PointsTo(defs, fields, key)
    requires "allOf" in fields && fields["allOf"].List? && |fields["allOf"].items| == 1
    ensures var inner := fields["allOf"].items[0];
            Ends(defs, inner, fuel) && Extends(defs, Resolve(defs, Dict(fields), fuel), Resolve(defs, inner, fuel), fields, "allOf", fuel)
  {
    NoReference(defs, fields);
    var extras := ResolvedObject(defs, fields, fuel);
    hide Resolve, Ends, Merged, Ref;
    MergedExtends(defs, fields, Resolve(defs, fields["allOf"].items[0], fuel), extras, "allOf", fuel);
  }

  lemma NoReference(defs: Defs, fields: map<string, Node>)
    requires forall key :: !PointsTo(defs, fields, key)
    ensures Ref(defs, fields).None?
  {
    if Ref(defs, fields).Some? {
      PointsToIff(defs, fields, Ref(defs, fields).value);
    }
  }

  /** Any other object keeps all members but its definitions. */
  lemma OthersKeepTheirMembers(defs: Defs, fields: map<string, Node>, fuel: nat)
    requires Ends(defs, Dict(fields), fuel) && forall key :: !PointsTo(defs, fields, key)
    requires !("allOf" in fields && fields["allOf"].List? && |fields["allOf"].items| == 1)
    ensures Extends(defs, Resolve(defs, Dict(fields), fuel), Dict(map[]), fields, "$defs", fuel)
  {
    NoReference(defs, fields);
    var extras := ResolvedObject(defs, fields, fuel);
    hide Resolve, Ends, Ref;
    assert Merged(Dict(map[]), extras) == Dict(extras) by {
      assert map[] + extras == extras;
    }
    MergedExtends(defs, fields, Dict(map[]), extras, "$defs", fuel);
  }

  lemma MergedOverlays(base: Node, members: map<string, Node>)
    ensures Overlays(Merged(base, members), base, members)
  {
    assert members == map[] <==> members.Keys == {};
  }

  lemma MergedExtends(defs: Defs, fields: map<string, Node>, base: Node, extras: map<string, Node>, but: string, fuel: nat)
    requires extras.Keys == fields.Keys - {but}
    requires forall k :: k in extras ==> Ends(defs, fields[k], fuel) && extras[k] == Resolve(defs, fields[k], fuel)
    ensures Extends(defs, Merged(base, extras), base, fields, but, fuel)
  {
    hide Resolve, Ends, Overlays, Merged;
    assert forall k :: k in fields && k != but <==> k in extras;
    assert extras == Others(defs, fields, but, fuel);
    MergedOverlays(base, extras);
  }

  /** Resolving an object, in terms of its resolved members. */
  lemma ResolvedObject(defs: Defs, fields: map<string, Node>, fuel: nat) returns (extras: map<string, Node>)
    requires Ends(defs, Dict(fields), fuel)
    ensures extras.Keys == Visited(defs, fields)
    ensures forall k :: k in extras ==> Ends(defs, fields[k], fuel) && extras[k] == Resolve(defs, fields[k], fuel)
    ensures var ref := Ref(defs, fields);
            && (ref.Some? ==> fuel > 0 && Ends(defs, defs[ref.value], fuel - 1)
                              && Resolve(defs, Dict(fields), fuel) == Merged(Resolve(defs, defs[ref.value], fuel - 1), extras))
            && (ref.None? && IsWrapper(fields) ==>
                  Ends(defs, fields["allOf"].items[0], fuel)
                  && Resolve(defs, Dict(fields), fuel) == Merged(Resolve(defs, fields["allOf"].items[0], fuel), extras))
            && (ref.None? && !IsWrapper(fields) ==> Resolve(defs, Dict(fields), fuel) == Dict(extras))
  {
    extras := map k | k in fields && k in Visited(defs, fields) :: Resolve(defs, fields[k], fuel);
    hide Ref, Visited, Merged, IsWrapper;
  }

  /** A list is resolved item by item, and a value that is no schema stays what it is. */
  lemma ItemsAreResolved(defs: Defs, node: Node, fuel: nat)
    requires Ends(defs, node, fuel) && !node.Dict?
    ensures var r := Resolve(defs, node, fuel);
            if node.List? then
              && r.List? && |r.items| == |node.items|
              && forall k :: 0 <= k < |node.items| ==> Ends(defs, node.items[k], fuel) && r.items[k] == Resolve(defs, node.items[k], fuel)
            else r == node
  {
  }

  /** A schema without definitions stays what it is; another keeps all members but its definitions. */
  lemma SchemaKeepsItsMembers(schema: map<string, Node>, fuel: nat)
    requires "$defs" in schema && schema["$defs"].Dict? ==> Ends(schema["$defs"].fields, Dict(schema), fuel)
    requires !("allOf" in schema && schema["allOf"].List? && |schema["allOf"].items| == 1)
    ensures var r := ResolveLocalDefs(schema, fuel);
            if "$defs" in schema && schema["$defs"].Dict? then
              (forall key :: !PointsTo(schema["$defs"].fields, schema, key)) ==>
                Extends(schema["$defs"].fields, r, Dict(map[]), schema, "$defs", fuel)
            else r == Dict(schema)
  {
    if "$defs" in schema && schema["$defs"].Dict? && forall key :: !PointsTo(schema["$defs"].fields, schema, key) {
      OthersKeepTheirMembers(schema["$defs"].fields, schema, fuel);
    }
    hide Resolve, Ends, Extends, PointsTo;
  }
}
