/** Picking some elements of a sequence without changing their order. */
module Picking {

  /** The places that are marked, in order. */
  function Places(marks: seq<bool>): (at: seq<nat>)
    ensures |at| <= |marks|
  {
    if marks == [] then [] else Places(marks[..|marks| - 1]) + if marks[|marks| - 1] then [|marks| - 1] else []
  }

  /** Exactly the marked places, each once and rising. */
  lemma {:induction false} PlacesAreMarked(marks: seq<bool>)
    ensures forall k :: k in Places(marks) <==> 0 <= k < |marks| && marks[k]
    ensures forall i, j :: 0 <= i < j < |Places(marks)| ==> Places(marks)[i] < Places(marks)[j]
  {
    if marks != [] {
      PlacesAreMarked(marks[..|marks| - 1]);
      var at := Places(marks[..|marks| - 1]);
      assert forall i :: 0 <= i < |at| ==> at[i] in at;
    }
  }

  lemma {:induction false} PlacesShift(first: bool, rest: seq<bool>)
    ensures var at, later := Places([first] + rest), Places(rest);
            var skip: nat := if first then 1 else 0;
            |at| == |later| + skip && (first ==> at[0] == 0) && forall k :: 0 <= k < |later| ==> at[k + skip] == later[k] + 1
    decreases |rest|
  {
    var all := [first] + rest;
    if rest == [] {
      assert all[..0] == [];
    } else {
      PlacesShift(first, rest[..|rest| - 1]);
      assert all[..|all| - 1] == [first] + rest[..|rest| - 1];
      hide Places;
      LastPlace(all);
      LastPlace(rest);
    }
  }

  lemma LastPlace(marks: seq<bool>)
    requires marks != []
    ensures Places(marks) == Places(marks[..|marks| - 1]) + if marks[|marks| - 1] then [|marks| - 1] else []
  {
  }

  /** `picked` are the elements at the marked places, in order. */
  predicate Picks<T(==)>(items: seq<T>, marks: seq<bool>, picked: seq<T>) {
    && |marks| == |items| && |picked| == |Places(marks)|
    && forall k :: 0 <= k < |picked| ==> Places(marks)[k] < |items| && picked[k] == items[Places(marks)[k]]
  }

  lemma PickNothing<T>()
    ensures Picks<T>([], [], [])
  {
  }

  /** Picking goes on element by element. */
  lemma PickOneMore<T>(items: seq<T>, marks: seq<bool>, picked: seq<T>, item: T, mark: bool)
    requires Picks(items, marks, picked)
    ensures Picks(items + [item], marks + [mark], if mark then picked + [item] else picked)
  {
    var more := marks + [mark];
    assert more[..|more| - 1] == marks;
    LastPlace(more);
    hide Places;
  }
}
