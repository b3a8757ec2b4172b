/** JSON values and their nesting depth. */
module Json {

  datatype Json =
    | Null
    | Bool(value: bool)
    | Number(text: string)
    | String(content: string)
    | Array(items: seq<Json>)
    | Object(fields: seq<Field>)

  datatype Field = Field(name: string, item: Json)

  function Max(a: nat, b: nat): nat {
    if a >= b then a else b
  }

  /** Children of an array or an object. */
  function Children(j: Json): seq<Json> {
    match j
    case Array(items) => items
    case Object(fields) => seq(|fields|, k requires 0 <= k < |fields| => fields[k].item)
    case _ => []
  }

  lemma ChildIsSmaller(j: Json, k: nat)
    requires k < |Children(j)|
    ensures Children(j)[k] < j
  {
  }

  /** How many containers lie around the innermost value. */
  function Depth(j: Json): nat
    decreases j, 1, 0
  {
    DeepestChild(j, |Children(j)|)
  }

  function DeepestChild(j: Json, n: nat): nat
    requires n <= |Children(j)|
    decreases j, 0, n
  {
    if n == 0 then 0
    else
      ChildIsSmaller(j, n - 1);
      Max(DeepestChild(j, n - 1), 1 + Depth(Children(j)[n - 1]))
  }

  function Size(j: Json): (n: nat)
    ensures n > 0
    decreases j, 1, 0
  {
    1 + SizeOfChildren(j, |Children(j)|)
  }

  function SizeOfChildren(j: Json, n: nat): nat
    requires n <= |Children(j)|
    decreases j, 0, n
  {
    if n == 0 then 0
    else
      ChildIsSmaller(j, n - 1);
      SizeOfChildren(j, n - 1) + Size(Children(j)[n - 1])
  }

  datatype Visit = Visit(json: Json, depth: nat)

  function StackSize(stack: seq<Visit>): nat {
    if stack == [] then 0 else StackSize(stack[..|stack| - 1]) + Size(stack[|stack| - 1].json)
  }

  /** Everything still to be visited stays within the limit. */
  predicate Fit(stack: seq<Visit>, limit: nat) {
    forall k :: 0 <= k < |stack| ==> stack[k].depth + Depth(stack[k].json) <= limit
  }

  /** The first `n` values are nested less deeply than `bound`. */
  predicate ShallowFirst(children: seq<Json>, n: nat, bound: int)
    requires n <= |children|
  {
    forall k :: 0 <= k < n ==> 1 + Depth(children[k]) <= bound
  }

  lemma ShallowStep(children: seq<Json>, n: nat, bound: int)
    requires n < |children|
    ensures ShallowFirst(children, n + 1, bound) <==> ShallowFirst(children, n, bound) && 1 + Depth(children[n]) <= bound
  {
  }

  lemma DeepestStep(j: Json, n: nat)
    requires n < |Children(j)|
    ensures DeepestChild(j, n + 1) == Max(DeepestChild(j, n), 1 + Depth(Children(j)[n]))
  {
  }

  lemma {:induction false} DepthOfChildren(j: Json, n: nat, bound: int)
    requires n <= |Children(j)| && bound >= 0
    ensures DeepestChild(j, n) <= bound <==> ShallowFirst(Children(j), n, bound)
    decreases n
  {
    if n > 0 {
      hide Depth, DeepestChild, ShallowFirst, Children;
      DepthOfChildren(j, n - 1, bound);
      DeepestStep(j, n - 1);
      ShallowStep(Children(j), n - 1, bound);
    }
  }

  /** A value is as deep as its deepest item or field, and one more; other values have no depth. */
  lemma DepthIsDeepest(j: Json, bound: nat)
    ensures Depth(j) <= bound <==>
      match j
      case Array(items) => forall k :: 0 <= k < |items| ==> 1 + Depth(items[k]) <= bound
      case Object(fields) => forall k :: 0 <= k < |fields| ==> 1 + Depth(fields[k].item) <= bound
      case _ => true
  {
    DepthOfChildren(j, |Children(j)|, bound);
    assert Depth(j) == DeepestChild(j, |Children(j)|);
    hide DeepestChild, Depth;
    assert j.Object? ==> forall k :: 0 <= k < |j.fields| ==> Children(j)[k] == j.fields[k].item;
  }

  function SumOfSizes(values: seq<Json>, n: nat): nat
    requires n <= |values|
  {
    if n == 0 then 0 else SumOfSizes(values, n - 1) + Size(values[n - 1])
  }

  lemma {:induction false} ChildrenAddUp(j: Json, n: nat)
    requires n <= |Children(j)|
    ensures SizeOfChildren(j, n) == SumOfSizes(Children(j), n)
    decreases n
  {
    if n > 0 {
      ChildrenAddUp(j, n - 1);
    }
  }

  lemma Pushed(stack: seq<Visit>, v: Visit, limit: nat)
    ensures StackSize(stack + [v]) == StackSize(stack) + Size(v.json)
    ensures Fit(stack + [v], limit) <==> Fit(stack, limit) && v.depth + Depth(v.json) <= limit
  {
    hide Depth, Size;
    var pushed := stack + [v];
    assert pushed[..|pushed| - 1] == stack;
    assert pushed[|stack|] == v;
    assert forall k :: 0 <= k < |stack| ==> pushed[k] == stack[k];
  }

  /** The values on top of the stack, one level further down. */
  method PushAll(stack: seq<Visit>, values: seq<Json>, depth: nat, limit: nat) returns (pushed: seq<Visit>)
    requires depth <= limit
    ensures StackSize(pushed) == StackSize(stack) + SumOfSizes(values, |values|)
    ensures Fit(pushed, limit) <==> Fit(stack, limit) && ShallowFirst(values, |values|, limit - depth)
  {
    pushed := stack;
    assert ShallowFirst(values, 0, limit - depth);
    hide StackSize, Size, Fit, Depth, ShallowFirst;
    for n := 0 to |values|
      invariant Fit(pushed, limit) <==> Fit(stack, limit) && ShallowFirst(values, n, limit - depth)
      invariant StackSize(pushed) == StackSize(stack) + SumOfSizes(values, n)
    {
      Pushed(pushed, Visit(values[n], depth + 1), limit);
      ShallowStep(values, n, limit - depth);
      pushed := pushed + [Visit(values[n], depth + 1)];
    }
  }

  /** The children of one value on top of the stack. */
  method PushChildren(stack: seq<Visit>, j: Json, depth: nat, limit: nat) returns (pushed: seq<Visit>)
    requires depth <= limit
    ensures StackSize(pushed) < StackSize(stack) + Size(j)
    ensures Fit(pushed, limit) <==> Fit(stack, limit) && depth + Depth(j) <= limit
  {
    ChildrenAddUp(j, |Children(j)|);
    DepthOfChildren(j, |Children(j)|, limit - depth);
    pushed := PushAll(stack, Children(j), depth, limit);
  }

  /** The check with an explicit stack accepts exactly the values that are not nested too deeply. */
  method ValidateDepth(j: Json, limit: nat) returns (ok: bool)
    ensures ok <==> Depth(j) <= limit
  {
    var stack := [Visit(j, 0)];
    while stack != []
      invariant Fit(stack, limit) <==> Depth(j) <= limit
      decreases StackSize(stack)
    {
      var top := stack[|stack| - 1];
      var rest := stack[..|stack| - 1];
      assert Fit(stack, limit) <==> Fit(rest, limit) && top.depth + Depth(top.json) <= limit;
      if top.depth > limit {
        return false;
      }
      stack := PushChildren(rest, top.json, top.depth, limit);
    }
    ok := true;
  }
}
