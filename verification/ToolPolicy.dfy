/** The policy in front of a tool selection: web search, disabled tools and the allowlist of the interaction mode. */
module ToolPolicy {
  import opened Picking
  import opened SchemaValues
  import opened Text
  import opened ToolSelection

  datatype Policy = Policy(exposeWebSearch: bool, disabled: set<string>, allowlist: Option<set<string>>, selection: Option<Selection>)

  const WEB_SEARCH := "web_search"

  function Where<T>(items: seq<T>, keep: T -> bool): seq<T> {
    if items == [] then []
    else Where(items[..|items| - 1], keep) + if keep(items[|items| - 1]) then [items[|items| - 1]] else []
  }

  /** Names that the policy itself lets through, one filter after the other. */
  function ListedNames(p: Policy, names: seq<string>): seq<string> {
    var searched := if p.exposeWebSearch then names else Where(names, n => n != WEB_SEARCH);
    var enabled := if p.disabled != {} then Where(searched, n => n !in p.disabled) else searched;
    if p.allowlist.Some? then Where(enabled, n => n in p.allowlist.value) else enabled
  }

  function FilterToolNames(p: Policy, names: seq<string>): seq<string> {
    var listed := ListedNames(p, names);
    if p.selection.Some? then NamesFirst(p.selection.value, listed, |listed|) else listed
  }

  function Searched(p: Policy, schemas: seq<Node>): seq<Node> {
    if p.exposeWebSearch then schemas else Where(schemas, s => NameOf(s) != Some(WEB_SEARCH))
  }

  function Enabled(p: Policy, schemas: seq<Node>): seq<Node> {
    if p.disabled != {} then Where(schemas, s => NameOf(s).None? || NameOf(s).value !in p.disabled) else schemas
  }

  function Allowlisted(p: Policy, schemas: seq<Node>): seq<Node> {
    if p.allowlist.Some? then Where(schemas, s => NameOf(s).Some? && NameOf(s).value in p.allowlist.value) else schemas
  }

  /** Entries without a tool name pass the first two filters, but not an allowlist. */
  function ListedSchemas(p: Policy, schemas: seq<Node>): seq<Node> {
    Allowlisted(p, Enabled(p, Searched(p, schemas)))
  }

  function FilterToolSchemas(p: Policy, schemas: seq<Node>): seq<Node> {
    var listed := ListedSchemas(p, schemas);
    if p.selection.Some? then SchemasFirst(p.selection.value, listed, |listed|) else listed
  }

  function Projected(s: Selection, schema: Node): seq<Node> {
    if !schema.Dict? then [] else if NameOf(schema).None? then [schema] else Listed(Filtered(s, schema))
  }

  function ProjectedFirst(s: Selection, schemas: seq<Node>, n: nat): seq<Node>
    requires n <= |schemas|
  {
    if n == 0 then [] else ProjectedFirst(s, schemas, n - 1) + Projected(s, schemas[n - 1])
  }

  /** Selection-only pruning of what a provider's projection has made of the tools. */
  method FilterProjectedToolSchemas(p: Policy, schemas: seq<Node>) returns (filtered: seq<Node>)
    ensures filtered == if p.selection.None? then schemas else ProjectedFirst(p.selection.value, schemas, |schemas|)
  {
    if p.selection.None? {
      return schemas;
    }
    var s := p.selection.value;
    filtered := [];
    for n := 0 to |schemas|
      invariant filtered == ProjectedFirst(s, schemas, n)
    {
      if !schemas[n].Dict? {
        continue;
      }
      if NameOf(schemas[n]).None? {
        filtered := filtered + [schemas[n]];
      } else {
        var candidates := ToolSelection.FilterToolSchemas(s, [schemas[n]]);
        OneSchema(s, schemas[n]);
        filtered := filtered + candidates;
      }
    }
  }

  lemma OneSchema(s: Selection, schema: Node)
    ensures SchemasFirst(s, [schema], 1) == Listed(Filtered(s, schema))
  {
    assert SchemasFirst(s, [schema], 0) == [];
  }

  // ---------- names and schemas agree ----------

  predicate AllSpecs(schemas: seq<Node>) {
    forall k :: 0 <= k < |schemas| ==> IsFunctionSpec(schemas[k])
  }

  function NamesOf(schemas: seq<Node>): seq<string>
    requires AllSpecs(schemas)
  {
    seq(|schemas|, k requires 0 <= k < |schemas| => NameOf(schemas[k]).value)
  }

  lemma {:induction false} WhereAgrees(schemas: seq<Node>, keep: Node -> bool, keepName: string -> bool)
    requires AllSpecs(schemas)
    requires forall s :: IsFunctionSpec(s) ==> keep(s) == keepName(NameOf(s).value)
    ensures AllSpecs(Where(schemas, keep)) && NamesOf(Where(schemas, keep)) == Where(NamesOf(schemas), keepName)
  {
    hide IsFunctionSpec;
    if schemas != [] {
      WhereAgrees(schemas[..|schemas| - 1], keep, keepName);
      assert NamesOf(schemas)[..|schemas| - 1] == NamesOf(schemas[..|schemas| - 1]);
    }
  }

  lemma FilteredAgrees(s: Selection, schema: Node)
    requires IsFunctionSpec(schema)
    ensures Filtered(s, schema).Some? <==> KeepsName(s, NameOf(schema).value)
    ensures Filtered(s, schema).Some? ==> IsFunctionSpec(Filtered(s, schema).value) && NameOf(Filtered(s, schema).value) == NameOf(schema)
  {
    UnusableIsGrounded(s, NameOf(schema).value);
    if Filtered(s, schema).Some? {
      FilteredTwice(s, schema);
    }
  }

  lemma NamesAppend(schemas: seq<Node>, schema: Node)
    requires AllSpecs(schemas) && IsFunctionSpec(schema)
    ensures AllSpecs(schemas + [schema]) && NamesOf(schemas + [schema]) == NamesOf(schemas) + [NameOf(schema).value]
  {
    hide IsFunctionSpec;
  }

  lemma OneMoreAgrees(s: Selection, kept: seq<Node>, schema: Node)
    requires AllSpecs(kept) && IsFunctionSpec(schema)
    ensures var more := kept + Listed(Filtered(s, schema));
            AllSpecs(more) && NamesOf(more) == NamesOf(kept) + if KeepsName(s, NameOf(schema).value) then [NameOf(schema).value] else []
  {
    FilteredAgrees(s, schema);
    var filtered := Filtered(s, schema);
    hide Filtered, KeepsName;
    if filtered.Some? {
      NamesAppend(kept, filtered.value);
      hide IsFunctionSpec, AllSpecs, NamesOf;
    } else {
      assert kept + [] == kept;
      hide IsFunctionSpec;
    }
  }

  lemma {:induction false} SelectionAgrees(s: Selection, schemas: seq<Node>, n: nat)
    requires n <= |schemas| && AllSpecs(schemas)
    ensures AllSpecs(SchemasFirst(s, schemas, n)) && NamesOf(SchemasFirst(s, schemas, n)) == NamesFirst(s, NamesOf(schemas), n)
  {
    hide Filtered, KeepsName, IsFunctionSpec;
    if n > 0 {
      SelectionAgrees(s, schemas, n - 1);
      OneMoreAgrees(s, SchemasFirst(s, schemas, n - 1), schemas[n - 1]);
      assert NamesOf(schemas)[n - 1] == NameOf(schemas[n - 1]).value;
      hide AllSpecs, NamesOf, Listed, NameOf;
    }
  }

  /** Filtering schemas and taking their names is filtering the names. */
  lemma NamesOfFilteredAreFilteredNames(p: Policy, schemas: seq<Node>)
    requires AllSpecs(schemas)
    ensures AllSpecs(FilterToolSchemas(p, schemas)) && NamesOf(FilterToolSchemas(p, schemas)) == FilterToolNames(p, NamesOf(schemas))
  {
    ListedAgrees(p, schemas);
    var listed := ListedSchemas(p, schemas);
    NamesHaveLength(listed);
    hide AllSpecs, NamesOf, ListedSchemas, ListedNames;
    if p.selection.Some? {
      SelectionAgrees(p.selection.value, listed, |listed|);
    }
  }

  lemma ListedAgrees(p: Policy, schemas: seq<Node>)
    requires AllSpecs(schemas)
    ensures AllSpecs(ListedSchemas(p, schemas)) && NamesOf(ListedSchemas(p, schemas)) == ListedNames(p, NamesOf(schemas))
  {
    hide AllSpecs, NamesOf, Where, IsFunctionSpec;
    WhereAgrees(schemas, s => NameOf(s) != Some(WEB_SEARCH), n => n != WEB_SEARCH);
    WhereAgrees(Searched(p, schemas), s => NameOf(s).None? || NameOf(s).value !in p.disabled, n => n !in p.disabled);
    if p.allowlist.Some? {
      WhereAgrees(Enabled(p, Searched(p, schemas)), s => NameOf(s).Some? && NameOf(s).value in p.allowlist.value, n => n in p.allowlist.value);
    }
  }

  lemma NamesHaveLength(schemas: seq<Node>)
    requires AllSpecs(schemas)
    ensures |NamesOf(schemas)| == |schemas|
  {
  }

  // ---------- filtering again ----------

  /** The policy keeps the entry as it is. */
  predicate Passes(p: Policy, schema: Node) {
    PassesNames(p, schema) && (p.selection.None? || Filtered(p.selection.value, schema) == Some(schema))
  }

  predicate AllPass(p: Policy, schemas: seq<Node>) {
    forall k :: 0 <= k < |schemas| ==> Passes(p, schemas[k])
  }

  lemma {:induction false} WhereKeeps<T>(items: seq<T>, keep: T -> bool)
    ensures forall x :: x in Where(items, keep) ==> x in items && keep(x)
    ensures (forall x :: x in items ==> keep(x)) ==> Where(items, keep) == items
  {
    if items != [] {
      WhereKeeps(items[..|items| - 1], keep);
      assert items == items[..|items| - 1] + [items[|items| - 1]];
    }
  }

  /** Each survivor comes from an entry of the list, keeps its name and would survive unchanged. */
  predicate AllDescend(s: Selection, schemas: seq<Node>, sources: seq<Node>, kept: seq<Node>) {
    |sources| == |kept| && forall k :: 0 <= k < |kept| ==> Descends(s, schemas, sources[k], kept[k])
  }

  lemma OneMoreDescends(s: Selection, schemas: seq<Node>, sources: seq<Node>, kept: seq<Node>, source: Node, one: Node)
    requires AllDescend(s, schemas, sources, kept) && Descends(s, schemas, source, one)
    ensures AllDescend(s, schemas, sources + [source], kept + [one])
  {
    hide Descends;
  }

  lemma {:induction false} SelectionSettles(s: Selection, schemas: seq<Node>, n: nat) returns (sources: seq<Node>)
    requires n <= |schemas|
    ensures AllDescend(s, schemas, sources, SchemasFirst(s, schemas, n))
  {
    hide Filtered, Descends;
    sources := [];
    if n > 0 {
      sources := SelectionSettles(s, schemas, n - 1);
      hide AllDescend;
      DescendsFromLast(s, schemas, n - 1);
      if Filtered(s, schemas[n - 1]).Some? {
        OneMoreDescends(s, schemas, sources, SchemasFirst(s, schemas, n - 1), schemas[n - 1], Filtered(s, schemas[n - 1]).value);
        sources := sources + [schemas[n - 1]];
      } else {
        assert SchemasFirst(s, schemas, n - 1) + [] == SchemasFirst(s, schemas, n - 1);
      }
    }
  }

  lemma DescendsFromLast(s: Selection, schemas: seq<Node>, k: nat)
    requires k < |schemas|
    ensures Filtered(s, schemas[k]).Some? ==> Descends(s, schemas, schemas[k], Filtered(s, schemas[k]).value)
  {
    if Filtered(s, schemas[k]).Some? {
      FilteredTwice(s, schemas[k]);
    }
  }

  predicate Descends(s: Selection, schemas: seq<Node>, source: Node, kept: Node) {
    source in schemas && NameOf(kept) == NameOf(source) && Filtered(s, kept) == Some(kept) && (source.Dict? ==> kept.Dict?)
  }

  predicate PassesNames(p: Policy, schema: Node) {
    var name := NameOf(schema);
    && (p.exposeWebSearch || name != Some(WEB_SEARCH))
    && (name.None? || name.value !in p.disabled)
    && (p.allowlist.None? || (name.Some? && name.value in p.allowlist.value))
  }

  lemma ListedPass(p: Policy, schemas: seq<Node>)
    ensures forall x :: x in ListedSchemas(p, schemas) ==> x in schemas && PassesNames(p, x)
    ensures (forall x :: x in schemas ==> PassesNames(p, x)) ==> ListedSchemas(p, schemas) == schemas
  {
    hide NameOf, Where;
    WhereKeeps(schemas, s => NameOf(s) != Some(WEB_SEARCH));
    WhereKeeps(Searched(p, schemas), s => NameOf(s).None? || NameOf(s).value !in p.disabled);
    if p.allowlist.Some? {
      WhereKeeps(Enabled(p, Searched(p, schemas)), s => NameOf(s).Some? && NameOf(s).value in p.allowlist.value);
    }
  }

  lemma {:induction false} UnchangedBySelection(s: Selection, schemas: seq<Node>, n: nat)
    requires n <= |schemas| && forall k :: 0 <= k < |schemas| ==> Filtered(s, schemas[k]) == Some(schemas[k])
    ensures SchemasFirst(s, schemas, n) == schemas[..n]
    ensures (forall k :: 0 <= k < n ==> schemas[k].Dict?) ==> ProjectedFirst(s, schemas, n) == schemas[..n]
  {
    hide Filtered, NameOf;
    if n > 0 {
      UnchangedBySelection(s, schemas, n - 1);
      assert schemas[..n] == schemas[..n - 1] + [schemas[n - 1]];
    }
  }

  predicate Objects(schemas: seq<Node>) {
    forall k :: 0 <= k < |schemas| ==> schemas[k].Dict?
  }

  lemma FilteredPass(p: Policy, schemas: seq<Node>)
    ensures AllPass(p, FilterToolSchemas(p, schemas))
    ensures Objects(schemas) ==> Objects(FilterToolSchemas(p, schemas))
  {
    hide NameOf, Filtered, ListedSchemas;
    ListedPass(p, schemas);
    var listed := ListedSchemas(p, schemas);
    if p.selection.Some? {
      var s := p.selection.value;
      var sources := SelectionSettles(s, listed, |listed|);
      var kept := SchemasFirst(s, listed, |listed|);
      hide SchemasFirst;
      forall k | 0 <= k < |kept|
        ensures Passes(p, kept[k]) && (Objects(schemas) ==> kept[k].Dict?)
      {
        assert Descends(s, listed, sources[k], kept[k]);
        assert PassesNames(p, sources[k]);
      }
    } else {
      forall k | 0 <= k < |listed|
        ensures Passes(p, listed[k]) && (Objects(schemas) ==> listed[k].Dict?)
      {
        assert listed[k] in listed && PassesNames(p, listed[k]);
      }
    }
  }

  /** What has been filtered stays as it is: filtering again, before or after projection, changes nothing. */
  lemma FilteringIsFinal(p: Policy, schemas: seq<Node>)
    ensures var once := FilterToolSchemas(p, schemas);
            && FilterToolSchemas(p, once) == once
            && (p.selection.Some? && Objects(schemas) ==> ProjectedFirst(p.selection.value, once, |once|) == once)
  {
    var once := FilterToolSchemas(p, schemas);
    FilteredPass(p, schemas);
    hide NameOf, Filtered;
    forall x | x in once
      ensures PassesNames(p, x)
    {
      var k :| 0 <= k < |once| && once[k] == x;
      assert Passes(p, once[k]);
    }
    hide PassesNames, ListedSchemas;
    ListedPass(p, once);
    assert once[..|once|] == once;
    if p.selection.Some? {
      UnchangedBySelection(p.selection.value, once, |once|);
    }
  }

  // ---------- what a policy lets through ----------

  function Marks<T>(items: seq<T>, keep: T -> bool): (marks: seq<bool>)
    ensures |marks| == |items| && forall k :: 0 <= k < |items| ==> marks[k] == keep(items[k])
  {
    seq(|items|, k requires 0 <= k < |items| => keep(items[k]))
  }

  lemma {:induction false} WherePicks<T>(items: seq<T>, keep: T -> bool)
    ensures Picks(items, Marks(items, keep), Where(items, keep))
  {
    hide Picks;
    if items == [] {
      PickNothing<T>();
      assert Marks(items, keep) == [];
    } else {
      var front, last := items[..|items| - 1], items[|items| - 1];
      WherePicks(front, keep);
      PickOneMore(front, Marks(front, keep), Where(front, keep), last, keep(last));
      assert items == front + [last] && Marks(items, keep) == Marks(front, keep) + [keep(last)];
      assert Where(front, keep) + [] == Where(front, keep);
    }
  }

  lemma {:induction false} WhereTwice<T>(items: seq<T>, first: T -> bool, second: T -> bool, both: T -> bool)
    requires forall x :: x in items ==> (both(x) <==> first(x) && second(x))
    ensures Where(Where(items, first), second) == Where(items, both)
  {
    if items != [] {
      var front, last := items[..|items| - 1], items[|items| - 1];
      assert last in items && forall x :: x in front ==> x in items;
      WhereTwice(front, first, second, both);
      var kept := Where(front, first);
      assert (kept + [last])[..|kept + [last]| - 1] == kept;
      assert kept + [] == kept;
    }
  }

  lemma WhereAll<T>(items: seq<T>, keep: T -> bool)
    requires forall x :: x in items ==> keep(x)
    ensures Where(items, keep) == items
  {
    WhereKeeps(items, keep);
  }

  /** The policy itself lets the tool through. */
  predicate Lists(p: Policy, name: string) {
    && (name == "web_search" ==> p.exposeWebSearch)
    && name !in p.disabled && (p.allowlist.Some? ==> name in p.allowlist.value)
  }

  /** The selection of the settings wants it too. */
  ghost predicate LetsThrough(p: Policy, name: string) {
    Lists(p, name) && (p.selection.Some? ==> Wants(p.selection.value, name))
  }

  lemma ListedNamesAre(p: Policy, names: seq<string>)
    ensures ListedNames(p, names) == Where(names, n => Lists(p, n))
  {
    assert WEB_SEARCH == "web_search";
    hide Where, WEB_SEARCH;
    var web, on: string -> bool, allowed: string -> bool :=
      (n: string) => n == "web_search" ==> p.exposeWebSearch, n => n !in p.disabled, n => p.allowlist.Some? ==> n in p.allowlist.value;
    var searched, enabled := Where(names, web), Where(Where(names, web), on);
    if p.exposeWebSearch {
      WhereAll(names, web);
    } else {
      WhereTwice(names, web, n => true, n => n != "web_search");
      WhereAll(searched, n => true);
    }
    if p.disabled == {} {
      WhereAll(searched, on);
    }
    if p.allowlist.None? {
      WhereAll(enabled, allowed);
    } else {
      WhereTwice(enabled, allowed, n => true, n => n in p.allowlist.value);
      WhereAll(Where(enabled, allowed), n => true);
    }
    WhereTwice(names, web, on, n => web(n) && on(n));
    WhereTwice(names, n => web(n) && on(n), allowed, n => Lists(p, n));
  }

  ghost function Through(p: Policy, names: seq<string>): (marks: seq<bool>)
    ensures |marks| == |names| && forall k :: 0 <= k < |names| ==> marks[k] == LetsThrough(p, names[k])
  {
    seq(|names|, k requires 0 <= k < |names| => LetsThrough(p, names[k]))
  }

  lemma {:induction false} SelectedNamesAre(s: Selection, names: seq<string>, n: nat)
    requires n <= |names|
    ensures NamesFirst(s, names, n) == Where(names[..n], m => KeepsName(s, m))
    decreases n
  {
    hide KeepsName;
    if n > 0 {
      SelectedNamesAre(s, names, n - 1);
      assert names[..n][..n - 1] == names[..n - 1];
    }
  }

  /** Exactly the names that policy and selection let through are kept, in order. */
  lemma NamesLetThrough(p: Policy, names: seq<string>)
    ensures Picks(names, Through(p, names), FilterToolNames(p, names))
  {
    hide Picks, Where, Wants, KeepsName, Lists;
    ListedNamesAre(p, names);
    var listed := ListedNames(p, names);
    var through: string -> bool := n => Lists(p, n) && (p.selection.Some? ==> KeepsName(p.selection.value, n));
    if p.selection.Some? {
      var s := p.selection.value;
      SelectedNamesAre(s, listed, |listed|);
      assert listed[..|listed|] == listed;
      WhereTwice(names, n => Lists(p, n), n => KeepsName(s, n), through);
    } else {
      WhereTwice(names, n => Lists(p, n), n => true, through);
      WhereAll(listed, n => true);
    }
    hide ListedNames;
    assert FilterToolNames(p, names) == Where(names, through);
    WherePicks(names, through);
    forall k | 0 <= k < |names|
      ensures through(names[k]) == LetsThrough(p, names[k])
    {
      if p.selection.Some? {
        NameIsKeptIffWanted(p.selection.value, names[k]);
      }
    }
    assert Marks(names, through) == Through(p, names);
  }

  /** The same for an entry: one without a name passes unless there is an allowlist. */
  predicate ListsSchema(p: Policy, schema: Node) {
    match NameOf(schema)
    case None => p.allowlist.None?
    case Some(name) => Lists(p, name)
  }

  lemma ListedSchemasAre(p: Policy, schemas: seq<Node>)
    ensures ListedSchemas(p, schemas) == Where(schemas, x => ListsSchema(p, x))
  {
    assert WEB_SEARCH == "web_search";
    hide Where, WEB_SEARCH, NameOf;
    var web: Node -> bool := x => NameOf(x) == Some("web_search") ==> p.exposeWebSearch;
    var on: Node -> bool := x => NameOf(x).None? || NameOf(x).value !in p.disabled;
    var allowed: Node -> bool := x => p.allowlist.Some? ==> NameOf(x).Some? && NameOf(x).value in p.allowlist.value;
    var searched, enabled := Where(schemas, web), Where(Where(schemas, web), on);
    if p.exposeWebSearch {
      WhereAll(schemas, web);
    } else {
      WhereTwice(schemas, web, x => true, x => NameOf(x) != Some("web_search"));
      WhereAll(searched, x => true);
    }
    if p.disabled == {} {
      WhereAll(searched, on);
    }
    if p.allowlist.None? {
      WhereAll(enabled, allowed);
    } else {
      WhereTwice(enabled, allowed, x => true, x => NameOf(x).Some? && NameOf(x).value in p.allowlist.value);
      WhereAll(Where(enabled, allowed), x => true);
    }
    WhereTwice(schemas, web, on, x => web(x) && on(x));
    WhereTwice(schemas, x => web(x) && on(x), allowed, x => ListsSchema(p, x));
  }

  /** What the selection makes of each entry that is kept. */
  predicate Pruned(p: Policy, source: Node, kept: Node) {
    if p.selection.Some? then Filtered(p.selection.value, source) == Some(kept) else kept == source
  }

  lemma {:induction false} SelectedSchemasAre(s: Selection, schemas: seq<Node>, n: nat)
    requires n <= |schemas|
    ensures var sources := Where(schemas[..n], x => Filtered(s, x).Some?);
            |SchemasFirst(s, schemas, n)| == |sources|
            && forall k :: 0 <= k < |sources| ==> Filtered(s, sources[k]) == Some(SchemasFirst(s, schemas, n)[k])
    decreases n
  {
    hide Filtered;
    if n > 0 {
      SelectedSchemasAre(s, schemas, n - 1);
      assert schemas[..n][..n - 1] == schemas[..n - 1];
    }
  }

  ghost function SchemasThrough(p: Policy, schemas: seq<Node>): (marks: seq<bool>)
    ensures |marks| == |schemas|
    ensures forall k :: 0 <= k < |schemas| ==>
              marks[k] == (ListsSchema(p, schemas[k]) && (p.selection.Some? ==> WantsSchema(p.selection.value, schemas[k])))
  {
    seq(|schemas|, k requires 0 <= k < |schemas| =>
      ListsSchema(p, schemas[k]) && (p.selection.Some? ==> WantsSchema(p.selection.value, schemas[k])))
  }

  /** Exactly the entries that policy and selection let through are kept, in order, each as the selection prunes it. */
  lemma SchemasLetThrough(p: Policy, schemas: seq<Node>) returns (sources: seq<Node>)
    ensures Picks(schemas, SchemasThrough(p, schemas), sources)
    ensures var kept := FilterToolSchemas(p, schemas);
            |kept| == |sources| && forall k :: 0 <= k < |kept| ==> Pruned(p, sources[k], kept[k])
  {
    hide Picks, Where, WantsSchema, Filtered, ListsSchema, NameOf;
    ListedSchemasAre(p, schemas);
    var listed := ListedSchemas(p, schemas);
    var through: Node -> bool := x => ListsSchema(p, x) && (p.selection.Some? ==> Filtered(p.selection.value, x).Some?);
    if p.selection.Some? {
      var s := p.selection.value;
      SelectedSchemasAre(s, listed, |listed|);
      assert listed[..|listed|] == listed;
      WhereTwice(schemas, x => ListsSchema(p, x), x => Filtered(s, x).Some?, through);
    } else {
      WhereTwice(schemas, x => ListsSchema(p, x), x => true, through);
      WhereAll(listed, x => true);
    }
    hide ListedSchemas;
    sources := Where(schemas, through);
    WherePicks(schemas, through);
    forall k | 0 <= k < |schemas|
      ensures through(schemas[k]) == SchemasThrough(p, schemas)[k]
    {
      if p.selection.Some? {
        SchemaIsKeptIffWanted(p.selection.value, schemas[k]);
      }
    }
    assert Marks(schemas, through) == SchemasThrough(p, schemas);
  }
}
