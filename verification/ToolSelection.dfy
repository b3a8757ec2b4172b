/** Which tools a model is shown, and what of their schemas. */
module ToolSelection {
  import opened Picking
  import opened SchemaValues
  import opened Text

  const METHODS: seq<string> := ["manual", "ocr", "prediction"]
  const MOUSE := "mouse_control"
  const SOURCE_GROUNDED: set<string> := {"mouse_control", "scroll_control", "grounded_mouse_action", "grounded_scroll_action"}
  const DRAG_GROUNDED: set<string> := {"mouse_control", "grounded_mouse_action"}
  const NON_MANUAL_GROUNDED: set<string> := {"grounded_mouse_action", "grounded_scroll_action"}

  datatype Mode = Allowlist | Denylist

  datatype Selection = Selection(enabled: bool, mode: Mode, tools: set<string>, methods: Option<set<string>>)

  // ---------- names ----------

  function Parent(name: string): string {
    if name == "grounded_mouse_action" then "mouse_control" else if name == "grounded_scroll_action" then "scroll_control" else name
  }

  predicate IsEnabled(s: Selection, name: string) {
    !s.enabled || (if s.mode == Allowlist then Parent(name) in s.tools else Parent(name) !in s.tools)
  }

  function Allowed(s: Selection): set<string> {
    if !IsEnabled(s, MOUSE) then {} else if s.methods.None? then set m | m in METHODS else s.methods.value
  }

  predicate HasNonManual(allowed: set<string>) {
    "ocr" in allowed || "prediction" in allowed
  }

  /** A tool for which no coordinate method is left. */
  predicate Unusable(s: Selection, name: string) {
    (name == MOUSE && Allowed(s) == {}) || (name in NON_MANUAL_GROUNDED && !HasNonManual(Allowed(s)))
  }

  predicate KeepsName(s: Selection, name: string) {
    !s.enabled || (IsEnabled(s, name) && !Unusable(s, name))
  }

  function NamesFirst(s: Selection, names: seq<string>, n: nat): seq<string>
    requires n <= |names|
  {
    if n == 0 then [] else NamesFirst(s, names, n - 1) + if KeepsName(s, names[n - 1]) then [names[n - 1]] else []
  }

  method FilterToolNames(s: Selection, names: seq<string>) returns (filtered: seq<string>)
    ensures filtered == NamesFirst(s, names, |names|)
  {
    filtered := [];
    for n := 0 to |names|
      invariant filtered == NamesFirst(s, names, n)
    {
      if s.enabled && (!IsEnabled(s, names[n]) || Unusable(s, names[n])) {
        continue;
      }
      filtered := filtered + [names[n]];
    }
  }

  // ---------- schemas ----------

  predicate IsText(v: Node) {
    v.Str? && !Blank(v.text)
  }

  predicate IsNull(v: Node) {
    v == Other("null")
  }

  /** A canonical flat function tool. */
  predicate IsFunctionSpec(schema: Node) {
    && schema.Dict?
    && var f := schema.fields;
       && "type" in f && f["type"] == Str("function")
       && "name" in f && IsText(f["name"])
       && "parameters" in f && f["parameters"].Dict?
       && ("description" in f ==> f["description"].Str? || IsNull(f["description"]))
       && ("strict" in f ==> f["strict"] in {Other("true"), Other("false"), Other("null")})
  }

  function NameOf(schema: Node): Option<string> {
    if IsFunctionSpec(schema) then Some(schema.fields["name"].text) else None
  }

  /** Allowed methods in their fixed order. */
  function Ordered(allowed: set<string>): seq<string> {
    (if "manual" in allowed then ["manual"] else []) + (if "ocr" in allowed then ["ocr"] else []) + (if "prediction" in allowed then ["prediction"] else [])
  }

  function Texts(values: seq<string>): seq<Node> {
    seq(|values|, k requires 0 <= k < |values| => Str(values[k]))
  }

  /** The choice of a method is narrowed to the allowed ones, and so is its default. */
  function Rewritten(choice: Node, allowed: set<string>): Node {
    if !choice.Dict? then choice
    else
      var ordered := Texts(Ordered(allowed));
      var f := choice.fields["type" := Str("string")]["enum" := List(ordered)];
      if "default" in f && f["default"] in ordered then Dict(f)
      else if ordered != [] then Dict(f["default" := ordered[0]])
      else Dict(f - {"default"})
  }

  /** The fields of one place on the screen, by method. */
  datatype Place = Place(choice: string, manual: set<string>, ocr: set<string>, prediction: set<string>)

  const SOURCE := Place("find_coordinates_by", {"x", "y"}, {"ocr_text", "candidate_id"}, {"source_description", "model_name"})
  const DRAG := Place("drag_to_find_coordinates_by", {"drag_to_x", "drag_to_y"}, {"drag_to_ocr_text", "drag_to_candidate_id"},
                      {"destination_description", "drag_to_model_name"})

  function Forbidden(p: Place, allowed: set<string>): set<string> {
    (if "manual" in allowed then {} else p.manual) + (if "ocr" in allowed then {} else p.ocr)
    + (if "prediction" in allowed then {} else p.prediction)
  }

  function PrunedProperties(props: map<string, Node>, p: Place, allowed: set<string>): map<string, Node> {
    (if p.choice in props then props[p.choice := Rewritten(props[p.choice], allowed)] else props) - Forbidden(p, allowed)
  }

  /** The method a condition asks for, in the node itself or the first combination below that names one. */
  function RuleMethod(node: Node, field: string): Option<string>
    decreases node, 0
  {
    if !node.Dict? then None
    else
      var f := node.fields;
      if "properties" in f && f["properties"].Dict? && field in f["properties"].fields && f["properties"].fields[field].Dict?
         && "const" in f["properties"].fields[field].fields && f["properties"].fields[field].fields["const"].Str? then
        Some(f["properties"].fields[field].fields["const"].text)
      else
        var all := if "allOf" in f then FirstRuleMethod(f["allOf"], 0, field) else None;
        if all.Some? then all
        else
          var some := if "anyOf" in f then FirstRuleMethod(f["anyOf"], 0, field) else None;
          if some.Some? then some else if "oneOf" in f then FirstRuleMethod(f["oneOf"], 0, field) else None
  }

  function FirstRuleMethod(children: Node, k: nat, field: string): Option<string>
    decreases children, if children.List? && k < |children.items| then |children.items| - k else 0
  {
    if !children.List? || k >= |children.items| then None
    else
      var found := RuleMethod(children.items[k], field);
      if found.Some? then found else FirstRuleMethod(children, k + 1, field)
  }

  function MethodOfRule(rule: Node, field: string): Option<string> {
    if rule.Dict? && "if" in rule.fields then RuleMethod(rule.fields["if"], field) else None
  }

  predicate KeepsRule(rule: Node, field: string, allowed: set<string>) {
    var m := MethodOfRule(rule, field);
    m.None? || m.value in allowed
  }

  function RulesFirst(rules: seq<Node>, field: string, allowed: set<string>, n: nat): seq<Node>
    requires n <= |rules|
  {
    if n == 0 then [] else RulesFirst(rules, field, allowed, n - 1) + if KeepsRule(rules[n - 1], field, allowed) then [rules[n - 1]] else []
  }

  function PrunedRules(parameters: map<string, Node>, field: string, allowed: set<string>): map<string, Node> {
    if "allOf" !in parameters || !parameters["allOf"].List? then parameters
    else
      var rules := parameters["allOf"].items;
      var kept := RulesFirst(rules, field, allowed, |rules|);
      if kept != [] then parameters["allOf" := List(kept)] else parameters - {"allOf"}
  }

  method FilterConditionalRules(parameters: map<string, Node>, field: string, allowed: set<string>)
    returns (pruned: map<string, Node>)
    ensures pruned == PrunedRules(parameters, field, allowed)
  {
    pruned := parameters;
    if "allOf" !in parameters || !parameters["allOf"].List? {
      return;
    }
    var rules := parameters["allOf"].items;
    var kept: seq<Node> := [];
    for n := 0 to |rules|
      invariant kept == RulesFirst(rules, field, allowed, n)
    {
      var name := MethodOfRule(rules[n], field);
      if name.None? || name.value in allowed {
        kept := kept + [rules[n]];
      }
    }
    if kept != [] {
      pruned := pruned["allOf" := List(kept)];
    } else {
      pruned := pruned - {"allOf"};
    }
  }

  predicate HasProperties(parameters: map<string, Node>) {
    "properties" in parameters && parameters["properties"].Dict?
  }

  function PrunedPlace(parameters: map<string, Node>, p: Place, allowed: set<string>): map<string, Node>
    requires HasProperties(parameters)
  {
    PrunedRules(parameters["properties" := Dict(PrunedProperties(parameters["properties"].fields, p, allowed))], p.choice, allowed)
  }

  lemma PrunedKeepsProperties(parameters: map<string, Node>, p: Place, allowed: set<string>)
    requires HasProperties(parameters)
    ensures HasProperties(PrunedPlace(parameters, p, allowed))
    ensures PrunedPlace(parameters, p, allowed)["properties"].fields == PrunedProperties(parameters["properties"].fields, p, allowed)
  {
  }

  /** A grounded tool's schema without the methods that are not allowed. */
  function PrunedSchema(schema: Node, allowed: set<string>): Node
    requires IsFunctionSpec(schema)
  {
    var parameters := schema.fields["parameters"].fields;
    if !HasProperties(parameters) then schema
    else
      PrunedKeepsProperties(parameters, SOURCE, allowed);
      var source := PrunedPlace(parameters, SOURCE, allowed);
      var both := if schema.fields["name"].text in DRAG_GROUNDED then PrunedPlace(source, DRAG, allowed) else source;
      Dict(schema.fields["parameters" := Dict(both)])
  }

  function Filtered(s: Selection, schema: Node): Option<Node> {
    var name := NameOf(schema);
    if !s.enabled then Some(schema)
    else if name.None? then (if s.mode == Allowlist then None else Some(schema))
    else if !IsEnabled(s, name.value) || Unusable(s, name.value) then None
    else if name.value in SOURCE_GROUNDED then Some(PrunedSchema(schema, Allowed(s)))
    else Some(schema)
  }

  function Listed(schema: Option<Node>): seq<Node> {
    if schema.Some? then [schema.value] else []
  }

  function SchemasFirst(s: Selection, schemas: seq<Node>, n: nat): seq<Node>
    requires n <= |schemas|
  {
    if n == 0 then [] else SchemasFirst(s, schemas, n - 1) + Listed(Filtered(s, schemas[n - 1]))
  }

  /** Works on a copy: the schema passed in is a value and stays as it is. */
  method FilterGroundedToolSchema(s: Selection, schema: Node) returns (filtered: Option<Node>)
    requires IsFunctionSpec(schema) && s.enabled && schema.fields["name"].text in SOURCE_GROUNDED && IsEnabled(s, schema.fields["name"].text)
    ensures filtered == Filtered(s, schema)
  {
    var name, allowed := schema.fields["name"].text, Allowed(s);
    if name == MOUSE && allowed == {} {
      return None;
    }
    if name in NON_MANUAL_GROUNDED && !HasNonManual(allowed) {
      return None;
    }
    hide Rewritten, RulesFirst, PrunedRules, PrunedProperties;
    var parameters := schema.fields["parameters"].fields;
    if !HasProperties(parameters) {
      return Some(schema);
    }
    PrunedKeepsProperties(parameters, SOURCE, allowed);
    var source := parameters["properties" := Dict(PrunedProperties(parameters["properties"].fields, SOURCE, allowed))];
    parameters := FilterConditionalRules(source, SOURCE.choice, allowed);
    if name in DRAG_GROUNDED {
      var drag := parameters["properties" := Dict(PrunedProperties(parameters["properties"].fields, DRAG, allowed))];
      parameters := FilterConditionalRules(drag, DRAG.choice, allowed);
    }
    filtered := Some(Dict(schema.fields["parameters" := Dict(parameters)]));
  }

  method FilterToolSchemas(s: Selection, schemas: seq<Node>) returns (filtered: seq<Node>)
    ensures filtered == SchemasFirst(s, schemas, |schemas|)
  {
    hide PrunedSchema, IsFunctionSpec;
    filtered := [];
    for n := 0 to |schemas|
      invariant filtered == SchemasFirst(s, schemas, n)
    {
      var name := NameOf(schemas[n]);
      if !s.enabled {
        filtered := filtered + [schemas[n]];
      } else if name.None? {
        if s.mode != Allowlist {
          filtered := filtered + [schemas[n]];
        }
      } else if IsEnabled(s, name.value) {
        if name.value in SOURCE_GROUNDED {
          var pruned := FilterGroundedToolSchema(s, schemas[n]);
          filtered := filtered + Listed(pruned);
        } else {
          UnusableIsGrounded(s, name.value);
          filtered := filtered + [schemas[n]];
        }
      }
    }
  }

  lemma UnusableIsGrounded(s: Selection, name: string)
    ensures Unusable(s, name) ==> name in SOURCE_GROUNDED
  {
  }

  // ---------- pruning is final ----------

  /** A second pruning for this place would find nothing to do. */
  predicate SettledProperties(props: map<string, Node>, p: Place, allowed: set<string>) {
    && (p.choice in props ==> Rewritten(props[p.choice], allowed) == props[p.choice])
    && props.Keys !! Forbidden(p, allowed)
  }

  predicate SettledRules(parameters: map<string, Node>, field: string, allowed: set<string>) {
    "allOf" in parameters && parameters["allOf"].List? ==>
      parameters["allOf"].items != [] && AllKept(parameters["allOf"].items, field, allowed)
  }

  predicate Settled(parameters: map<string, Node>, p: Place, allowed: set<string>) {
    HasProperties(parameters) && SettledProperties(parameters["properties"].fields, p, allowed) && SettledRules(parameters, p.choice, allowed)
  }

  predicate TwoPlaces(p: Place, q: Place) {
    (p == SOURCE && q == DRAG) || (p == DRAG && q == SOURCE)
  }

  lemma OrderedIsAllowed(allowed: set<string>)
    ensures forall m :: m in Ordered(allowed) <==> m in METHODS && m in allowed
  {
  }

  lemma RewrittenTwice(choice: Node, allowed: set<string>)
    ensures Rewritten(Rewritten(choice, allowed), allowed) == Rewritten(choice, allowed)
  {
    hide Ordered;
    if choice.Dict? {
      var ordered := Texts(Ordered(allowed));
      var once := Rewritten(choice, allowed).fields;
      assert once["type"] == Str("string") && once["enum"] == List(ordered);
      assert "type" != "default" && "enum" != "default";
      assert once["type" := Str("string")]["enum" := List(ordered)] == once;
      assert ordered != [] ==> "default" in once && once["default"] in ordered;
      assert ordered == [] ==> "default" !in once;
      assert ordered == [] ==> once - {"default"} == once;
    }
  }

  lemma PropertiesSettle(props: map<string, Node>, p: Place, q: Place, allowed: set<string>)
    requires TwoPlaces(p, q)
    ensures SettledProperties(PrunedProperties(props, p, allowed), p, allowed)
    ensures SettledProperties(props, q, allowed) ==> SettledProperties(PrunedProperties(props, p, allowed), q, allowed)
  {
    if p.choice in props {
      RewrittenTwice(props[p.choice], allowed);
    }
    hide Rewritten;
    assert p.choice != q.choice && p.choice !in Forbidden(p, allowed) && q.choice !in Forbidden(p, allowed);
  }

  predicate AllKept(rules: seq<Node>, field: string, allowed: set<string>) {
    forall k :: 0 <= k < |rules| ==> KeepsRule(rules[k], field, allowed)
  }

  lemma {:induction false} KeptRules(rules: seq<Node>, field: string, allowed: set<string>, n: nat)
    requires n <= |rules|
    ensures AllKept(RulesFirst(rules, field, allowed, n), field, allowed)
    ensures forall r :: r in RulesFirst(rules, field, allowed, n) ==> r in rules
  {
    if n > 0 {
      KeptRules(rules, field, allowed, n - 1);
    }
  }

  lemma RulesSettle(parameters: map<string, Node>, field: string, other: string, allowed: set<string>)
    ensures SettledRules(PrunedRules(parameters, field, allowed), field, allowed)
    ensures SettledRules(parameters, other, allowed) ==> SettledRules(PrunedRules(parameters, field, allowed), other, allowed)
  {
    if "allOf" in parameters && parameters["allOf"].List? {
      var rules := parameters["allOf"].items;
      KeptRules(rules, field, allowed, |rules|);
      hide RulesFirst, MethodOfRule;
      var kept := RulesFirst(rules, field, allowed, |rules|);
      if AllKept(rules, other, allowed) {
        forall k | 0 <= k < |kept|
          ensures KeepsRule(kept[k], other, allowed)
        {
          assert kept[k] in rules;
        }
      }
    }
  }

  lemma PlaceSettles(parameters: map<string, Node>, p: Place, q: Place, allowed: set<string>)
    requires HasProperties(parameters) && TwoPlaces(p, q)
    ensures Settled(PrunedPlace(parameters, p, allowed), p, allowed)
    ensures Settled(parameters, q, allowed) ==> Settled(PrunedPlace(parameters, p, allowed), q, allowed)
  {
    var props := parameters["properties"].fields;
    var inner := parameters["properties" := Dict(PrunedProperties(props, p, allowed))];
    PropertiesSettle(props, p, q, allowed);
    RulesSettle(inner, p.choice, q.choice, allowed);
    PrunedKeepsProperties(parameters, p, allowed);
    assert "properties" != "allOf";
    hide PrunedProperties, PrunedRules, SettledProperties, KeepsRule;
  }

  lemma {:induction false} KeptAll(rules: seq<Node>, field: string, allowed: set<string>, n: nat)
    requires n <= |rules| && AllKept(rules, field, allowed)
    ensures RulesFirst(rules, field, allowed, n) == rules[..n]
  {
    hide KeepsRule;
    if n > 0 {
      KeptAll(rules, field, allowed, n - 1);
      assert rules[..n] == rules[..n - 1] + [rules[n - 1]];
    }
  }

  lemma SettledStays(parameters: map<string, Node>, p: Place, allowed: set<string>)
    requires Settled(parameters, p, allowed)
    ensures PrunedPlace(parameters, p, allowed) == parameters
  {
    hide KeepsRule, Rewritten;
    var props := parameters["properties"].fields;
    assert PrunedProperties(props, p, allowed) == props;
    assert parameters["properties" := Dict(props)] == parameters;
    if "allOf" in parameters && parameters["allOf"].List? {
      var rules := parameters["allOf"].items;
      KeptAll(rules, p.choice, allowed, |rules|);
      assert rules[..|rules|] == rules;
    }
  }

  /** What a grounded schema looks like once it is pruned. */
  predicate SettledSchema(schema: Node, allowed: set<string>) {
    && IsFunctionSpec(schema)
    && var parameters := schema.fields["parameters"].fields;
       HasProperties(parameters) ==>
         Settled(parameters, SOURCE, allowed) && (schema.fields["name"].text in DRAG_GROUNDED ==> Settled(parameters, DRAG, allowed))
  }

  lemma PrunedIsSettled(schema: Node, allowed: set<string>)
    requires IsFunctionSpec(schema)
    ensures SettledSchema(PrunedSchema(schema, allowed), allowed)
    ensures NameOf(PrunedSchema(schema, allowed)) == NameOf(schema)
  {
    var parameters := schema.fields["parameters"].fields;
    if HasProperties(parameters) {
      PlaceSettles(parameters, SOURCE, DRAG, allowed);
      PlaceSettles(PrunedPlace(parameters, SOURCE, allowed), DRAG, SOURCE, allowed);
      hide Settled, PrunedPlace;
    }
  }

  lemma SettledSchemaStays(schema: Node, allowed: set<string>)
    requires SettledSchema(schema, allowed)
    ensures PrunedSchema(schema, allowed) == schema
  {
    var parameters := schema.fields["parameters"].fields;
    if HasProperties(parameters) {
      SettledStays(parameters, SOURCE, allowed);
      if schema.fields["name"].text in DRAG_GROUNDED {
        SettledStays(parameters, DRAG, allowed);
      }
      assert schema.fields["parameters" := Dict(parameters)] == schema.fields;
    }
  }

  /** Filtering a schema that survived changes nothing, and it keeps its name. */
  lemma FilteredTwice(s: Selection, schema: Node)
    requires Filtered(s, schema).Some?
    ensures Filtered(s, Filtered(s, schema).value) == Filtered(s, schema)
    ensures NameOf(Filtered(s, schema).value) == NameOf(schema)
  {
    var name := NameOf(schema);
    if s.enabled && name.Some? && name.value in SOURCE_GROUNDED {
      PrunedIsSettled(schema, Allowed(s));
      SettledSchemaStays(PrunedSchema(schema, Allowed(s)), Allowed(s));
    }
    hide PrunedSchema, SettledSchema, IsFunctionSpec, Unusable, IsEnabled, Allowed;
  }

  /** The rules for a place name allowed methods only. */
  predicate RulesAllowed(parameters: map<string, Node>, field: string, allowed: set<string>) {
    "allOf" in parameters && parameters["allOf"].List? ==> AllKept(parameters["allOf"].items, field, allowed)
  }

  predicate PropertiesFree(props: map<string, Node>, p: Place, allowed: set<string>) {
    && (p.choice in props && props[p.choice].Dict? ==>
          var choice := props[p.choice].fields;
          && "enum" in choice && choice["enum"] == List(Texts(Ordered(allowed)))
          && ("default" in choice ==> exists m :: m in METHODS && m in allowed && choice["default"] == Str(m)))
    && ("manual" !in allowed ==> props.Keys !! p.manual) && ("ocr" !in allowed ==> props.Keys !! p.ocr)
    && ("prediction" !in allowed ==> props.Keys !! p.prediction)
  }

  /** Nothing about a place speaks of a coordinate method that is not allowed. */
  predicate FreeOf(parameters: map<string, Node>, p: Place, allowed: set<string>) {
    && (HasProperties(parameters) ==> PropertiesFree(parameters["properties"].fields, p, allowed))
    && RulesAllowed(parameters, p.choice, allowed)
  }

  function ParametersOf(schema: Node): map<string, Node>
    requires IsFunctionSpec(schema)
  {
    schema.fields["parameters"].fields
  }

  predicate IsDrag(schema: Node)
    requires IsFunctionSpec(schema)
  {
    schema.fields["name"].text in DRAG_GROUNDED
  }

  predicate FreeSchema(schema: Node, allowed: set<string>)
    requires IsFunctionSpec(schema)
  {
    FreeOf(ParametersOf(schema), SOURCE, allowed) && (IsDrag(schema) ==> FreeOf(ParametersOf(schema), DRAG, allowed))
  }

  predicate FreeRules(schema: Node, allowed: set<string>)
    requires IsFunctionSpec(schema)
  {
    && RulesAllowed(ParametersOf(schema), SOURCE.choice, allowed)
    && (IsDrag(schema) ==> RulesAllowed(ParametersOf(schema), DRAG.choice, allowed))
  }

  lemma SettledIsFree(parameters: map<string, Node>, p: Place, allowed: set<string>)
    requires Settled(parameters, p, allowed) && (p == SOURCE || p == DRAG)
    ensures FreeOf(parameters, p, allowed)
  {
    hide KeepsRule;
    OrderedIsAllowed(allowed);
    var props := parameters["properties"].fields;
    if p.choice in props && props[p.choice].Dict? {
      RewrittenIsFree(props[p.choice], allowed);
    }
    hide Rewritten, Ordered;
  }

  lemma RewrittenIsFree(choice: Node, allowed: set<string>)
    requires choice.Dict? && Rewritten(choice, allowed) == choice
    ensures "enum" in choice.fields && choice.fields["enum"] == List(Texts(Ordered(allowed)))
    ensures "default" in choice.fields ==> exists m :: m in METHODS && m in allowed && choice.fields["default"] == Str(m)
  {
    OrderedIsAllowed(allowed);
    hide Ordered;
    var ordered := Texts(Ordered(allowed));
    var once := Rewritten(choice, allowed).fields;
    assert "enum" != "default";
    if "default" in once {
      assert once["default"] in ordered;
      var k :| 0 <= k < |ordered| && ordered[k] == once["default"];
      assert Ordered(allowed)[k] in Ordered(allowed);
    }
  }

  lemma PrunedIsFree(schema: Node, allowed: set<string>)
    requires IsFunctionSpec(schema) && HasProperties(ParametersOf(schema))
    ensures IsFunctionSpec(PrunedSchema(schema, allowed)) && FreeSchema(PrunedSchema(schema, allowed), allowed)
    ensures HasProperties(ParametersOf(PrunedSchema(schema, allowed)))
  {
    PrunedIsSettled(schema, allowed);
    PruningKeepsProperties(schema, allowed);
    hide FreeOf, Settled, PrunedSchema;
    var kept := PrunedSchema(schema, allowed);
    SettledIsFree(ParametersOf(kept), SOURCE, allowed);
    if IsDrag(kept) {
      SettledIsFree(ParametersOf(kept), DRAG, allowed);
    }
  }

  /**
   * A surviving grounded schema is free of the methods that are not allowed, except when it has no properties: it is
   * then returned as it is, so its rules have to be free of them already.
   */
  lemma NothingDisallowedSurvives(s: Selection, schema: Node)
    requires s.enabled && IsFunctionSpec(schema) && schema.fields["name"].text in SOURCE_GROUNDED
    requires Filtered(s, schema).Some?
    ensures var kept := Filtered(s, schema).value;
            && IsFunctionSpec(kept)
            && (HasProperties(ParametersOf(kept)) <==> HasProperties(ParametersOf(schema)))
            && (FreeSchema(kept, Allowed(s)) <==> HasProperties(ParametersOf(schema)) || FreeRules(schema, Allowed(s)))
  {
    if HasProperties(ParametersOf(schema)) {
      PrunedIsFree(schema, Allowed(s));
      hide PrunedSchema;
    }
    hide PropertiesFree, RulesAllowed;
  }

  /** A rule that asks for OCR. */
  function OcrRule(): Node {
    var choice := Dict(map["const" := Str("ocr")]);
    Dict(map["if" := Dict(map["properties" := Dict(map["find_coordinates_by" := choice])])])
  }

  /** Without properties a rule for OCR outlives a selection that allows manual coordinates only. */
  lemma UnprunedExample(s: Selection, schema: Node)
    requires s.enabled && s.methods == Some({"manual"}) && IsEnabled(s, MOUSE)
    requires schema == Dict(map["type" := Str("function"), "name" := Str(MOUSE), "parameters" := Dict(map["allOf" := List([OcrRule()])])])
    ensures Filtered(s, schema) == Some(schema) && IsFunctionSpec(schema) && !FreeSchema(schema, Allowed(s))
  {
    MouseIsText();
    assert Allowed(s) == {"manual"};
    OcrRuleNamesOcr();
    hide OcrRule, MethodOfRule, IsText;
    assert ParametersOf(schema)["allOf"].items == [OcrRule()];
    assert !KeepsRule([OcrRule()][0], SOURCE.choice, {"manual"}) by { assert "ocr" != "manual"; }
    assert schema.fields["name"].text == MOUSE;
  }

  lemma MouseIsText()
    ensures IsText(Str(MOUSE))
  {
    VisibleStartIsNotBlank(MOUSE);
  }

  lemma OcrRuleNamesOcr()
    ensures MethodOfRule(OcrRule(), "find_coordinates_by") == Some("ocr")
  {
  }

  lemma PruningKeepsProperties(schema: Node, allowed: set<string>)
    requires IsFunctionSpec(schema) && HasProperties(schema.fields["parameters"].fields)
    ensures HasProperties(PrunedSchema(schema, allowed).fields["parameters"].fields)
  {
    PrunedKeepsProperties(schema.fields["parameters"].fields, SOURCE, allowed);
    PrunedKeepsProperties(PrunedPlace(schema.fields["parameters"].fields, SOURCE, allowed), DRAG, allowed);
  }

  // ---------- pruning removes nothing else ----------

  lemma {:induction false} ExactlyAllowedRules(rules: seq<Node>, field: string, allowed: set<string>, n: nat, r: Node)
    requires n <= |rules|
    ensures r in RulesFirst(rules, field, allowed, n) <==> r in rules[..n] && KeepsRule(r, field, allowed)
  {
    hide KeepsRule;
    if n > 0 {
      ExactlyAllowedRules(rules, field, allowed, n - 1, r);
      assert rules[..n] == rules[..n - 1] + [rules[n - 1]];
    }
  }

  /** Apart from the choice, the forbidden fields and the rules, a place's pruning leaves everything as it was. */
  lemma PruningKeepsTheRest(parameters: map<string, Node>, p: Place, allowed: set<string>, k: string)
    requires HasProperties(parameters)
    ensures var pruned := PrunedPlace(parameters, p, allowed);
            && (k != "properties" && k != "allOf" ==> (k in pruned <==> k in parameters) && (k in pruned ==> pruned[k] == parameters[k]))
            && var before, after := parameters["properties"].fields, pruned["properties"].fields;
               k != p.choice && k !in Forbidden(p, allowed) ==> (k in after <==> k in before) && (k in after ==> after[k] == before[k])
  {
    PrunedKeepsProperties(parameters, p, allowed);
  }

  // ---------- what a function spec is ----------

  /** Each field of a function spec is checked by itself; description and strictness may be missing or null. */
  lemma EachFieldIsChecked(spec: Node, field: string, v: Node)
    requires IsFunctionSpec(spec)
    ensures IsFunctionSpec(Dict(spec.fields[field := v])) <==>
      match field
      case "type" => v == Str("function")
      case "name" => v.Str? && !AllSpace(v.text)
      case "parameters" => v.Dict?
      case "description" => v.Str? || v == Other("null")
      case "strict" => v == Other("true") || v == Other("false") || v == Other("null")
      case _ => true
    ensures IsFunctionSpec(Dict(spec.fields - {field})) <==> field != "type" && field != "name" && field != "parameters"
  {
    if v.Str? {
      BlankIffSpace(v.text);
    }
    hide AllSpace, Blank;
  }

  // ---------- what a selection means ----------

  /** An allowlist enables what it lists, a denylist everything else; a derived tool goes with the tool it comes from. */
  predicate Selects(s: Selection, name: string) {
    var tool := if name == "grounded_mouse_action" then "mouse_control" else if name == "grounded_scroll_action" then "scroll_control" else name;
    match s.mode
    case Allowlist => tool in s.tools
    case Denylist => tool !in s.tools
  }

  /** Coordinates may be found by this method: mouse control is enabled, and the method is listed or none is. */
  predicate MayUse(s: Selection, m: string) {
    Selects(s, "mouse_control") && if s.methods.Some? then m in s.methods.value else m in {"manual", "ocr", "prediction"}
  }

  /** A selection keeps a tool that is listed and, where it needs coordinates, has a way to find them. */
  ghost predicate Wants(s: Selection, name: string) {
    s.enabled ==>
      && Selects(s, name)
      && (name == "mouse_control" ==> exists m :: MayUse(s, m))
      && (name in {"grounded_mouse_action", "grounded_scroll_action"} ==> MayUse(s, "ocr") || MayUse(s, "prediction"))
  }

  lemma AllowedAreUsable(s: Selection, m: string)
    requires s.enabled
    ensures m in Allowed(s) <==> MayUse(s, m)
  {
  }

  lemma NameIsKeptIffWanted(s: Selection, name: string)
    ensures KeepsName(s, name) <==> Wants(s, name)
  {
    if s.enabled {
      forall m
        ensures m in Allowed(s) <==> MayUse(s, m)
      {
        AllowedAreUsable(s, m);
      }
      hide Allowed, MayUse;
      if Allowed(s) != {} {
        var m :| m in Allowed(s);
      }
    }
  }

  ghost function WantedNames(s: Selection, names: seq<string>, n: nat): (marks: seq<bool>)
    requires n <= |names|
    ensures |marks| == n && forall k :: 0 <= k < n ==> marks[k] == Wants(s, names[k])
  {
    seq(n, k requires 0 <= k < |names| => Wants(s, names[k]))
  }

  /** Filtering names picks the wanted ones and keeps their order. */
  lemma {:induction false} WantedNamesArePicked(s: Selection, names: seq<string>, n: nat)
    requires n <= |names|
    ensures Picks(names[..n], WantedNames(s, names, n), NamesFirst(s, names, n))
    decreases n
  {
    hide KeepsName, Wants, Picks;
    if n == 0 {
      PickNothing<string>();
      assert WantedNames(s, names, 0) == [] && names[..0] == [];
    } else {
      WantedNamesArePicked(s, names, n - 1);
      NameIsKeptIffWanted(s, names[n - 1]);
      PickOneMore(names[..n - 1], WantedNames(s, names, n - 1), NamesFirst(s, names, n - 1), names[n - 1], Wants(s, names[n - 1]));
      assert names[..n] == names[..n - 1] + [names[n - 1]];
      assert WantedNames(s, names, n) == WantedNames(s, names, n - 1) + [Wants(s, names[n - 1])];
      assert NamesFirst(s, names, n - 1) + [] == NamesFirst(s, names, n - 1);
    }
  }

  /** A schema with the name of a wanted tool stays, a schema without a name stays unless there is an allowlist. */
  ghost predicate WantsSchema(s: Selection, schema: Node) {
    !s.enabled || if IsFunctionSpec(schema) then Wants(s, schema.fields["name"].text) else s.mode == Denylist
  }

  /** Only grounded tools are changed, and of their fields only the parameters. */
  lemma SchemaIsKeptIffWanted(s: Selection, schema: Node)
    ensures Filtered(s, schema).Some? <==> WantsSchema(s, schema)
    ensures Filtered(s, schema).Some? && Filtered(s, schema).value != schema ==>
              && s.enabled && IsFunctionSpec(schema) && HasProperties(ParametersOf(schema)) && Filtered(s, schema).value.Dict?
              && schema.fields["name"].text in {"mouse_control", "scroll_control", "grounded_mouse_action", "grounded_scroll_action"}
              && Filtered(s, schema).value.fields.Keys == schema.fields.Keys
              && forall k :: k in schema.fields && k != "parameters" ==> Filtered(s, schema).value.fields[k] == schema.fields[k]
  {
    if IsFunctionSpec(schema) {
      NameIsKeptIffWanted(s, schema.fields["name"].text);
      UnusableIsGrounded(s, schema.fields["name"].text);
    }
    hide PrunedPlace, Wants, Unusable, Allowed, IsText;
  }

  /** The fields a method needs; those of the drag destination belong to tools that drag. */
  predicate Needs(m: string, field: string, drags: bool) {
    || (m == "manual" && (field in {"x", "y"} || (drags && field in {"drag_to_x", "drag_to_y"})))
    || (m == "ocr" && (field in {"ocr_text", "candidate_id"} || (drags && field in {"drag_to_ocr_text", "drag_to_candidate_id"})))
    || (m == "prediction" && (field in {"source_description", "model_name"}
                              || (drags && field in {"destination_description", "drag_to_model_name"})))
  }

  predicate Chooses(field: string, drags: bool) {
    field == "find_coordinates_by" || (drags && field == "drag_to_find_coordinates_by")
  }

  /** A grounded tool loses the fields of the methods that may not be used, and no others; only the choices are changed. */
  lemma FieldsFollowMethods(s: Selection, schema: Node, field: string)
    requires s.enabled && IsFunctionSpec(schema) && HasProperties(ParametersOf(schema)) && Filtered(s, schema).Some?
    requires schema.fields["name"].text in {"mouse_control", "scroll_control", "grounded_mouse_action", "grounded_scroll_action"}
    ensures IsFunctionSpec(Filtered(s, schema).value) && HasProperties(ParametersOf(Filtered(s, schema).value))
    ensures var before, after := ParametersOf(schema)["properties"].fields, ParametersOf(Filtered(s, schema).value)["properties"].fields;
            var drags := schema.fields["name"].text in {"mouse_control", "grounded_mouse_action"};
            && (field in after <==> field in before && forall m :: m in METHODS && Needs(m, field, drags) ==> MayUse(s, m))
            && (field in after && !Chooses(field, drags) ==> after[field] == before[field])
  {
    var allowed, drags := Allowed(s), schema.fields["name"].text in {"mouse_control", "grounded_mouse_action"};
    assert Filtered(s, schema).value == PrunedSchema(schema, allowed);
    assert drags == (schema.fields["name"].text in DRAG_GROUNDED);
    assert METHODS == ["manual", "ocr", "prediction"];
    AllowedAreUsable(s, "manual");
    AllowedAreUsable(s, "ocr");
    AllowedAreUsable(s, "prediction");
    assert forall m :: m in METHODS ==> (m in allowed <==> MayUse(s, m));
    hide Allowed, MayUse, METHODS, Filtered, PrunedSchema, IsFunctionSpec, HasProperties, ParametersOf, Needs, Chooses;
    FieldsAfterPruning(schema, allowed, drags, field);
  }

  lemma FieldsAfterPruning(schema: Node, allowed: set<string>, drags: bool, field: string)
    requires IsFunctionSpec(schema) && HasProperties(ParametersOf(schema)) && drags == (schema.fields["name"].text in DRAG_GROUNDED)
    ensures var r := PrunedSchema(schema, allowed);
            && IsFunctionSpec(r) && HasProperties(ParametersOf(r))
            && var before, after := ParametersOf(schema)["properties"].fields, ParametersOf(r)["properties"].fields;
               && (field in after <==> field in before && Provided(allowed, field, drags))
               && (field in after && !Chooses(field, drags) ==> after[field] == before[field])
  {
    var parameters := ParametersOf(schema);
    PrunedKeepsProperties(parameters, SOURCE, allowed);
    var source := PrunedPlace(parameters, SOURCE, allowed);
    PrunedKeepsProperties(source, DRAG, allowed);
    var both := if drags then PrunedPlace(source, DRAG, allowed) else source;
    assert PrunedSchema(schema, allowed) == Dict(schema.fields["parameters" := Dict(both)]);
    assert IsFunctionSpec(PrunedSchema(schema, allowed));
    hide PrunedSchema, IsFunctionSpec, PrunedPlace, PrunedProperties, Forbidden, SOURCE, DRAG, DRAG_GROUNDED, IsText, Provided;
    KeepsFields(parameters["properties"].fields, SOURCE, allowed, field);
    KeepsFields(source["properties"].fields, DRAG, allowed, field);
    ProvidedIff(allowed, field, drags);
  }

  /** The methods that need the field are allowed. */
  predicate Provided(allowed: set<string>, field: string, drags: bool) {
    forall m :: m in ["manual", "ocr", "prediction"] && Needs(m, field, drags) ==> m in allowed
  }

  lemma ProvidedIff(allowed: set<string>, field: string, drags: bool)
    ensures Provided(allowed, field, drags) <==> field !in Forbidden(SOURCE, allowed) && (drags ==> field !in Forbidden(DRAG, allowed))
    ensures SOURCE.choice == "find_coordinates_by" && DRAG.choice == "drag_to_find_coordinates_by"
  {
    SourceFields(allowed, field);
    DragFields(allowed, field);
    hide Forbidden, SOURCE, DRAG;
    assert Provided(allowed, field, drags) <==>
      (Needs("manual", field, drags) ==> "manual" in allowed) && (Needs("ocr", field, drags) ==> "ocr" in allowed)
      && (Needs("prediction", field, drags) ==> "prediction" in allowed);
  }

  lemma KeepsFields(props: map<string, Node>, p: Place, allowed: set<string>, field: string)
    ensures var after := PrunedProperties(props, p, allowed);
            && (field in after <==> field in props && field !in Forbidden(p, allowed))
            && (field in after && field != p.choice ==> after[field] == props[field])
  {
    hide Rewritten, Forbidden;
  }

  lemma SourceFields(allowed: set<string>, field: string)
    ensures SOURCE.choice == "find_coordinates_by"
    ensures field in Forbidden(SOURCE, allowed) <==>
      || (field in {"x", "y"} && "manual" !in allowed) || (field in {"ocr_text", "candidate_id"} && "ocr" !in allowed)
      || (field in {"source_description", "model_name"} && "prediction" !in allowed)
  {
  }

  lemma DragFields(allowed: set<string>, field: string)
    ensures DRAG.choice == "drag_to_find_coordinates_by"
    ensures field in Forbidden(DRAG, allowed) <==>
      || (field in {"drag_to_x", "drag_to_y"} && "manual" !in allowed)
      || (field in {"drag_to_ocr_text", "drag_to_candidate_id"} && "ocr" !in allowed)
      || (field in {"destination_description", "drag_to_model_name"} && "prediction" !in allowed)
  {
  }

  /** The choice of a method keeps everything but its type, its values and its default. */
  lemma ChoiceKeepsTheRest(choice: Node, allowed: set<string>, k: string)
    requires choice.Dict? && k !in {"type", "enum", "default"}
    ensures Rewritten(choice, allowed).Dict?
    ensures (k in Rewritten(choice, allowed).fields <==> k in choice.fields)
            && (k in choice.fields ==> Rewritten(choice, allowed).fields[k] == choice.fields[k])
  {
    hide Ordered;
  }

  /** A default that is still allowed is kept. */
  lemma AllowedDefaultStays(choice: Node, allowed: set<string>, m: string)
    requires choice.Dict? && "default" in choice.fields && choice.fields["default"] == Str(m) && m in METHODS && m in allowed
    ensures Rewritten(choice, allowed).fields["default"] == Str(m)
  {
    OrderedIsAllowed(allowed);
    assert m in Ordered(allowed);
    hide Ordered;
    var k :| 0 <= k < |Ordered(allowed)| && Ordered(allowed)[k] == m;
    assert Texts(Ordered(allowed))[k] == Str(m);
    assert "enum" != "default" && "type" != "default";
  }

  // ---------- the method a rule names ----------

  /** The node itself asks for the method. */
  predicate AsksFor(node: Node, field: string, m: string) {
    && node.Dict? && "properties" in node.fields && node.fields["properties"].Dict?
    && field in node.fields["properties"].fields && node.fields["properties"].fields[field].Dict?
    && "const" in node.fields["properties"].fields[field].fields
    && node.fields["properties"].fields[field].fields["const"] == Str(m)
  }

  /** The node, or one below it in a combination, asks for the method. */
  predicate Mentions(node: Node, field: string, m: string)
    decreases node
  {
    || AsksFor(node, field, m)
    || (node.Dict? && exists key, k :: key in ["allOf", "anyOf", "oneOf"] && key in node.fields && node.fields[key].List?
                                       && 0 <= k < |node.fields[key].items| && Mentions(node.fields[key].items[k], field, m))
  }

  predicate SomeMention(children: seq<Node>, field: string, m: string, from: nat) {
    exists k :: from <= k < |children| && Mentions(children[k], field, m)
  }

  /** The method found for a condition is one it mentions, and one is found if it mentions any. */
  lemma {:induction false} FoundIsMentioned(node: Node, field: string, m: string)
    ensures RuleMethod(node, field) == Some(m) ==> Mentions(node, field, m)
    ensures Mentions(node, field, m) ==> RuleMethod(node, field).Some?
    decreases node, 0
  {
    if node.Dict? {
      var f := node.fields;
      if "allOf" in f {
        FoundBelow(f["allOf"], 0, field, m);
      }
      if "anyOf" in f {
        FoundBelow(f["anyOf"], 0, field, m);
      }
      if "oneOf" in f {
        FoundBelow(f["oneOf"], 0, field, m);
      }
      hide FirstRuleMethod, SomeMention;
      MentionsBelow(node, field, m);
      hide Mentions;
    }
  }

  lemma MentionsBelow(node: Node, field: string, m: string)
    requires node.Dict?
    ensures Mentions(node, field, m) <==>
      || AsksFor(node, field, m)
      || ("allOf" in node.fields && node.fields["allOf"].List? && SomeMention(node.fields["allOf"].items, field, m, 0))
      || ("anyOf" in node.fields && node.fields["anyOf"].List? && SomeMention(node.fields["anyOf"].items, field, m, 0))
      || ("oneOf" in node.fields && node.fields["oneOf"].List? && SomeMention(node.fields["oneOf"].items, field, m, 0))
  {
    hide AsksFor;
    assert forall key :: key in ["allOf", "anyOf", "oneOf"] <==> key == "allOf" || key == "anyOf" || key == "oneOf";
  }

  lemma {:induction false} FoundBelow(children: Node, k: nat, field: string, m: string)
    ensures children.List? ==> (FirstRuleMethod(children, k, field) == Some(m) ==> SomeMention(children.items, field, m, k))
    ensures children.List? ==> (SomeMention(children.items, field, m, k) ==> FirstRuleMethod(children, k, field).Some?)
    ensures !children.List? ==> FirstRuleMethod(children, k, field).None?
    decreases children, if children.List? && k < |children.items| then |children.items| - k else 0
  {
    if children.List? && k < |children.items| {
      FoundIsMentioned(children.items[k], field, m);
      FoundBelow(children, k + 1, field, m);
      hide Mentions, RuleMethod;
    }
  }

  /** A rule stays if its condition mentions no method, and goes if all it mentions are not allowed. */
  lemma RuleStaysOrGoes(rule: Node, field: string, allowed: set<string>)
    ensures !rule.Dict? || "if" !in rule.fields ==> KeepsRule(rule, field, allowed)
    ensures rule.Dict? && "if" in rule.fields && (forall m :: !Mentions(rule.fields["if"], field, m)) ==> KeepsRule(rule, field, allowed)
    ensures rule.Dict? && "if" in rule.fields && (exists m :: Mentions(rule.fields["if"], field, m)) ==>
              ((forall m :: Mentions(rule.fields["if"], field, m) ==> m !in allowed) ==> !KeepsRule(rule, field, allowed))
    ensures rule.Dict? && "if" in rule.fields && (forall m :: Mentions(rule.fields["if"], field, m) ==> m in allowed) ==> KeepsRule(rule, field, allowed)
  {
    if rule.Dict? && "if" in rule.fields {
      var condition := rule.fields["if"];
      forall m
        ensures RuleMethod(condition, field) == Some(m) ==> Mentions(condition, field, m)
        ensures Mentions(condition, field, m) ==> RuleMethod(condition, field).Some?
      {
        FoundIsMentioned(condition, field, m);
      }
      hide Mentions, RuleMethod;
    }
  }
}
