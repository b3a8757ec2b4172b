/** Where the resolver ends: exactly where no chain of references returns to a definition. */
module ReferenceCycles {
  import opened SchemaValues
  import opened Text
  import opened LocalDefs

  /** Some number of nested references is enough; the resolver itself has no bound. */
  ghost predicate Terminates(defs: Defs, node: Node) {
    exists fuel: nat :: Ends(defs, node, fuel)
  }

  predicate IsDefinition(defs: Defs, key: string) {
    key in defs && defs[key].Dict?
  }

  // ---------- ranks ----------

  /** Every reference met while resolving `node` leads to a definition ranked below `bound`. */
  predicate Below(defs: Defs, rank: map<string, nat>, node: Node, bound: nat)
    decreases node
  {
    match node
    case List(items) => forall k :: 0 <= k < |items| ==> Below(defs, rank, items[k], bound)
    case Dict(fields) =>
      var ref := Ref(defs, fields);
      && (forall k :: k in fields && k in Visited(defs, fields) ==> Below(defs, rank, fields[k], bound))
      && (ref.Some? ==> ref.value in rank && rank[ref.value] < bound)
      && (ref.None? && IsWrapper(fields) ==> Below(defs, rank, fields["allOf"].items[0], bound))
    case _ => true
  }

  /** Ranked definitions refer to lower ranks only. */
  predicate Ranking(defs: Defs, rank: map<string, nat>) {
    forall key :: key in rank ==> IsDefinition(defs, key) && Below(defs, rank, defs[key], rank[key])
  }

  lemma {:induction false} RankedEnds(defs: Defs, rank: map<string, nat>, node: Node, bound: nat)
    requires Ranking(defs, rank) && Below(defs, rank, node, bound)
    ensures Ends(defs, node, bound)
    decreases bound, node
  {
    match node
    case List(items) =>
      forall k | 0 <= k < |items|
        ensures Ends(defs, items[k], bound)
      {
        RankedEnds(defs, rank, items[k], bound);
      }
    case Dict(fields) =>
      forall k | k in fields && k in Visited(defs, fields)
        ensures Ends(defs, fields[k], bound)
      {
        RankedEnds(defs, rank, fields[k], bound);
      }
      var ref := Ref(defs, fields);
      if ref.Some? {
        RankedEnds(defs, rank, defs[ref.value], rank[ref.value]);
        MoreFuelEnds(defs, defs[ref.value], rank[ref.value], bound - 1);
      } else if IsWrapper(fields) {
        RankedEnds(defs, rank, fields["allOf"].items[0], bound);
      }
    case _ =>
  }

  ghost function Least(defs: Defs, node: Node, fuel: nat): (least: nat)
    requires Ends(defs, node, fuel)
    ensures least <= fuel && Ends(defs, node, least) && (least > 0 ==> !Ends(defs, node, least - 1))
  {
    if fuel == 0 || !Ends(defs, node, fuel - 1) then fuel else Least(defs, node, fuel - 1)
  }

  /** The deepest nesting of references below a node. */
  ghost function LeastFuel(defs: Defs, node: Node): (least: nat)
    requires Terminates(defs, node)
    ensures Ends(defs, node, least) && (least > 0 ==> !Ends(defs, node, least - 1))
  {
    var fuel: nat :| Ends(defs, node, fuel);
    Least(defs, node, fuel)
  }

  lemma LeastIsLeast(defs: Defs, node: Node, fuel: nat)
    requires Ends(defs, node, fuel)
    ensures LeastFuel(defs, node) <= fuel
  {
    var least := LeastFuel(defs, node);
    if fuel < least {
      MoreFuelEnds(defs, node, fuel, least - 1);
    }
  }

  ghost function LeastRanks(defs: Defs): map<string, nat> {
    map key | key in defs && IsDefinition(defs, key) && Terminates(defs, defs[key]) :: LeastFuel(defs, defs[key])
  }

  lemma {:induction false} EndsIsBelow(defs: Defs, node: Node, fuel: nat)
    requires Ends(defs, node, fuel)
    ensures Below(defs, LeastRanks(defs), node, fuel)
    decreases node
  {
    hide LeastFuel;
    match node
    case List(items) =>
      forall k | 0 <= k < |items|
        ensures Below(defs, LeastRanks(defs), items[k], fuel)
      {
        EndsIsBelow(defs, items[k], fuel);
      }
    case Dict(fields) =>
      forall k | k in fields && k in Visited(defs, fields)
        ensures Below(defs, LeastRanks(defs), fields[k], fuel)
      {
        EndsIsBelow(defs, fields[k], fuel);
      }
      var ref := Ref(defs, fields);
      if ref.Some? {
        assert Ends(defs, defs[ref.value], fuel - 1);
        LeastIsLeast(defs, defs[ref.value], fuel - 1);
      } else if IsWrapper(fields) {
        EndsIsBelow(defs, fields["allOf"].items[0], fuel);
      }
    case _ =>
  }

  lemma LeastRanksAreARanking(defs: Defs)
    ensures Ranking(defs, LeastRanks(defs))
  {
    forall key | key in LeastRanks(defs)
      ensures Below(defs, LeastRanks(defs), defs[key], LeastRanks(defs)[key])
    {
      EndsIsBelow(defs, defs[key], LeastFuel(defs, defs[key]));
    }
  }

  ghost predicate RankedBelow(defs: Defs, node: Node, rank: map<string, nat>, bound: nat) {
    Ranking(defs, rank) && Below(defs, rank, node, bound)
  }

  /** Resolving a node ends exactly if the definitions it reaches can be ranked. */
  lemma TerminatesIffRanked(defs: Defs, node: Node)
    ensures Terminates(defs, node) <==> exists rank, bound :: RankedBelow(defs, node, rank, bound)
  {
    if Terminates(defs, node) {
      var fuel := LeastFuel(defs, node);
      EndsIsBelow(defs, node, fuel);
      LeastRanksAreARanking(defs);
      assert RankedBelow(defs, node, LeastRanks(defs), fuel);
    }
    if exists rank, bound :: RankedBelow(defs, node, rank, bound) {
      var rank, bound :| RankedBelow(defs, node, rank, bound);
      RankedEnds(defs, rank, node, bound);
    }
  }

  ghost predicate RanksAll(defs: Defs, rank: map<string, nat>) {
    Ranking(defs, rank) && forall key :: IsDefinition(defs, key) ==> key in rank
  }

  /** All definitions can be ranked exactly if resolving each of them ends. */
  lemma AllTerminateIffRanked(defs: Defs)
    ensures (forall key :: IsDefinition(defs, key) ==> Terminates(defs, defs[key])) <==> exists rank :: RanksAll(defs, rank)
  {
    if forall key :: IsDefinition(defs, key) ==> Terminates(defs, defs[key]) {
      LeastRanksAreARanking(defs);
      assert RanksAll(defs, LeastRanks(defs));
    }
    if exists rank :: RanksAll(defs, rank) {
      var rank :| RanksAll(defs, rank);
      forall key | IsDefinition(defs, key)
        ensures Terminates(defs, defs[key])
      {
        RankedEnds(defs, rank, defs[key], rank[key]);
      }
    }
  }

  // ---------- chains of references ----------

  /** Resolving `node` itself meets a reference to the definition `key`, at any depth. */
  predicate Leads(defs: Defs, node: Node, key: string)
    decreases node
  {
    match node
    case List(items) => exists k :: 0 <= k < |items| && Leads(defs, items[k], key)
    case Dict(fields) =>
      var ref := Ref(defs, fields);
      || ref == Some(key)
      || (exists k :: k in fields && k in Visited(defs, fields) && Leads(defs, fields[k], key))
      || (ref.None? && IsWrapper(fields) && Leads(defs, fields["allOf"].items[0], key))
    case _ => false
  }

  /** The same in terms of the schema alone: a member beside `$ref` or `allOf` is looked into, `$defs` by itself is not. */
  predicate Refers(defs: Defs, node: Node, key: string)
    decreases node
  {
    match node
    case List(items) => exists k :: 0 <= k < |items| && Refers(defs, items[k], key)
    case Dict(fields) =>
      var wrapper := "allOf" in fields && fields["allOf"].List? && |fields["allOf"].items| == 1;
      if "$ref" in fields && fields["$ref"].Str? && Resolvable(defs, fields["$ref"].text) then
        || fields["$ref"].text == "#/$defs/" + key
        || exists k :: k in fields && k != "$ref" && Refers(defs, fields[k], key)
      else if wrapper then
        || Refers(defs, fields["allOf"].items[0], key)
        || exists k :: k in fields && k != "allOf" && Refers(defs, fields[k], key)
      else exists k :: k in fields && k != "$defs" && Refers(defs, fields[k], key)
    case _ => false
  }

  /** The text of a reference to a definition that is an object. */
  predicate Resolvable(defs: Defs, text: string) {
    exists key :: key in defs && text == "#/$defs/" + key && defs[key].Dict?
  }

  lemma ResolvableIff(defs: Defs, fields: map<string, Node>)
    ensures Ref(defs, fields).Some? <==> "$ref" in fields && fields["$ref"].Str? && Resolvable(defs, fields["$ref"].text)
    ensures forall key :: Ref(defs, fields) == Some(key) <==> Ref(defs, fields).Some? && fields["$ref"].text == "#/$defs/" + key
  {
    forall key
      ensures PointsTo(defs, fields, key) <==> Ref(defs, fields) == Some(key)
    {
      PointsToIff(defs, fields, key);
    }
    hide Ref;
    if Ref(defs, fields).Some? {
      assert PointsTo(defs, fields, Ref(defs, fields).value);
    }
    if "$ref" in fields && fields["$ref"].Str? && Resolvable(defs, fields["$ref"].text) {
      var key :| key in defs && fields["$ref"].text == "#/$defs/" + key && defs[key].Dict?;
      assert PointsTo(defs, fields, key);
    }
    forall key | Ref(defs, fields).Some? && fields["$ref"].text == "#/$defs/" + key
      ensures Ref(defs, fields) == Some(key)
    {
      var found := Ref(defs, fields).value;
      assert "#/$defs/" + found == "#/$defs/" + key;
      assert found == ("#/$defs/" + found)[8..] == ("#/$defs/" + key)[8..] == key;
    }
  }

  lemma {:induction false} LeadsIffRefers(defs: Defs, node: Node, key: string)
    ensures Leads(defs, node, key) <==> Refers(defs, node, key)
    decreases node
  {
    match node
    case List(items) =>
      forall k | 0 <= k < |items|
        ensures Leads(defs, items[k], key) <==> Refers(defs, items[k], key)
      {
        LeadsIffRefers(defs, items[k], key);
      }
    case Dict(fields) =>
      forall k | k in fields
        ensures Leads(defs, fields[k], key) <==> Refers(defs, fields[k], key)
      {
        LeadsIffRefers(defs, fields[k], key);
      }
      if IsWrapper(fields) {
        LeadsIffRefers(defs, fields["allOf"].items[0], key);
      }
      ResolvableIff(defs, fields);
      hide Ref, Resolvable;
      assert forall k :: k in Visited(defs, fields) <==>
        k in fields && k != if Ref(defs, fields).Some? then "$ref" else if IsWrapper(fields) then "allOf" else "$defs";
      hide Visited;
    case _ =>
  }

  /** Each definition is referred to by the one before it, the first by `node`. */
  predicate Chain(defs: Defs, node: Node, keys: seq<string>)
    decreases |keys|
  {
    keys != [] ==> IsDefinition(defs, keys[0]) && Leads(defs, node, keys[0]) && Chain(defs, defs[keys[0]], keys[1..])
  }

  predicate Repeats(keys: seq<string>) {
    exists i, j :: 0 <= i < j < |keys| && keys[i] == keys[j]
  }

  lemma {:induction false} ReferenceSpends(defs: Defs, node: Node, key: string, fuel: nat)
    requires Ends(defs, node, fuel) && Leads(defs, node, key)
    ensures IsDefinition(defs, key) && fuel > 0 && Ends(defs, defs[key], fuel - 1)
    decreases node
  {
    match node
    case List(items) =>
      var k :| 0 <= k < |items| && Leads(defs, items[k], key);
      ReferenceSpends(defs, items[k], key, fuel);
    case Dict(fields) =>
      var ref := Ref(defs, fields);
      if ref == Some(key) {
      } else if ref.None? && IsWrapper(fields) && Leads(defs, fields["allOf"].items[0], key) {
        ReferenceSpends(defs, fields["allOf"].items[0], key, fuel);
      } else {
        var k :| k in fields && k in Visited(defs, fields) && Leads(defs, fields[k], key);
        ReferenceSpends(defs, fields[k], key, fuel);
      }
  }

  /** A chain is no longer than the fuel, and spends one unit for each of its references. */
  lemma {:induction false} ChainSpends(defs: Defs, node: Node, keys: seq<string>, n: nat, fuel: nat)
    requires Ends(defs, node, fuel) && Chain(defs, node, keys) && n < |keys|
    ensures n < fuel && IsDefinition(defs, keys[n]) && Ends(defs, defs[keys[n]], fuel - n - 1)
    ensures Chain(defs, defs[keys[n]], keys[n + 1..])
    decreases n
  {
    ReferenceSpends(defs, node, keys[0], fuel);
    if n > 0 {
      ChainSpends(defs, defs[keys[0]], keys[1..], n - 1, fuel - 1);
      assert keys[1..][n - 1] == keys[n] && keys[1..][n..] == keys[n + 1..];
    }
  }

  /** A definition that a chain from itself returns to would need less fuel than its least. */
  lemma BackToItself(defs: Defs, key: string, keys: seq<string>, n: nat)
    requires IsDefinition(defs, key) && Chain(defs, defs[key], keys) && n < |keys| && keys[n] == key
    ensures !Terminates(defs, defs[key])
  {
    hide Chain, Ends;
    if Terminates(defs, defs[key]) {
      var least := LeastFuel(defs, defs[key]);
      ChainSpends(defs, defs[key], keys, n, least);
      LeastIsLeast(defs, defs[key], least - n - 1);
    }
  }

  /** A chain that returns to a definition, whatever its length and depth, keeps the resolver from ending. */
  lemma CycleNeverEnds(defs: Defs, node: Node, keys: seq<string>)
    requires Chain(defs, node, keys) && Repeats(keys)
    ensures !Terminates(defs, node)
  {
    hide Chain, Ends;
    if Terminates(defs, node) {
      var i, j :| 0 <= i < j < |keys| && keys[i] == keys[j];
      var fuel := LeastFuel(defs, node);
      ChainSpends(defs, node, keys, i, fuel);
      assert keys[i + 1..][j - i - 1] == keys[i];
      BackToItself(defs, keys[i], keys[i + 1..], j - i - 1);
    }
  }

  /** Without enough fuel there is a chain that used it up. */
  lemma {:induction false} LongChain(defs: Defs, node: Node, fuel: nat) returns (keys: seq<string>)
    requires !Ends(defs, node, fuel)
    ensures |keys| == fuel + 1 && Chain(defs, node, keys)
    decreases fuel, node
  {
    match node
    case List(items) =>
      var k :| 0 <= k < |items| && !Ends(defs, items[k], fuel);
      keys := LongChain(defs, items[k], fuel);
    case Dict(fields) =>
      var ref := Ref(defs, fields);
      if k :| k in fields && k in Visited(defs, fields) && !Ends(defs, fields[k], fuel) {
        keys := LongChain(defs, fields[k], fuel);
        assert Leads(defs, fields[k], keys[0]);
      } else if ref.None? {
        keys := LongChain(defs, fields["allOf"].items[0], fuel);
      } else if fuel == 0 {
        keys := [ref.value];
      } else {
        var rest := LongChain(defs, defs[ref.value], fuel - 1);
        keys := [ref.value] + rest;
        assert keys[1..] == rest;
      }
  }

  lemma {:induction false} ChainOfDefinitions(defs: Defs, node: Node, keys: seq<string>)
    requires Chain(defs, node, keys)
    ensures forall k :: 0 <= k < |keys| ==> keys[k] in defs.Keys
    decreases |keys|
  {
    if keys != [] {
      ChainOfDefinitions(defs, defs[keys[0]], keys[1..]);
      assert forall k :: 1 <= k < |keys| ==> keys[k] == keys[1..][k - 1];
    }
  }

  /** More keys than there are names: one occurs twice. */
  lemma {:induction false} TooManyRepeat(keys: seq<string>, names: set<string>)
    requires |keys| > |names| && forall k :: 0 <= k < |keys| ==> keys[k] in names
    ensures Repeats(keys)
    decreases |keys|
  {
    var last := keys[|keys| - 1];
    var front := keys[..|keys| - 1];
    if last in front {
      var i :| 0 <= i < |front| && front[i] == last;
      assert keys[i] == keys[|keys| - 1];
    } else {
      forall k | 0 <= k < |front|
        ensures front[k] in names - {last}
      {
        assert front[k] == keys[k] && front[k] in front;
      }
      TooManyRepeat(front, names - {last});
      var i, j :| 0 <= i < j < |front| && front[i] == front[j];
      assert keys[i] == keys[j];
    }
  }

  ghost predicate ReachesCycle(defs: Defs, node: Node) {
    exists keys :: Chain(defs, node, keys) && Repeats(keys)
  }

  /**
   * Resolving ends exactly if no chain of references meets a definition twice, and then it follows at most as many
   * references one inside the other as there are definitions.
   */
  lemma TerminatesIffNoCycle(defs: Defs, node: Node)
    ensures Terminates(defs, node) <==> !ReachesCycle(defs, node)
    ensures Terminates(defs, node) <==> Ends(defs, node, |defs|)
  {
    if !Ends(defs, node, |defs|) {
      var keys := LongChain(defs, node, |defs|);
      ChainOfDefinitions(defs, node, keys);
      TooManyRepeat(keys, defs.Keys);
      assert ReachesCycle(defs, node);
    }
    if ReachesCycle(defs, node) {
      var keys :| Chain(defs, node, keys) && Repeats(keys);
      CycleNeverEnds(defs, node, keys);
    }
  }

  /** The definition a recursive model produces: its reference to itself lies under `properties`. */
  lemma RecursiveModelNeverEnds()
    ensures var own := Dict(map["$ref" := Str("#/$defs/Tree")]);
            var tree := Dict(map["properties" := Dict(map["child" := own])]);
            !Terminates(map["Tree" := tree], tree)
  {
    var own := Dict(map["$ref" := Str("#/$defs/Tree")]);
    var children := Dict(map["child" := own]);
    var tree := Dict(map["properties" := children]);
    var defs: Defs := map["Tree" := tree];
    var text := "#/$defs/Tree";
    assert text[..|PREFIX|] == PREFIX && text[|PREFIX|..] == "Tree";
    assert Leads(defs, own, "Tree");
    assert "child" in Visited(defs, children.fields) && Leads(defs, children.fields["child"], "Tree");
    assert "properties" in Visited(defs, tree.fields) && Leads(defs, tree.fields["properties"], "Tree");
    var keys := ["Tree", "Tree"];
    assert keys[1..] == ["Tree"] && keys[1..][1..] == [];
    assert Chain(defs, tree, [keys[1]]);
    assert Chain(defs, tree, keys);
    assert keys[0] == keys[1];
    CycleNeverEnds(defs, tree, keys);
  }
}
