/** `remIfEmpty`: the post-order prune that removes every Struct or Array left empty.
    `instanceof Collection` holds for Lucee Arrays as well as Structs, so both are pruned. */
module Pruning {
  import opened Wrappers
  import opened ConfigTree

  /** A Struct or an Array with no entries (`sub.size() == 0`). */
  predicate IsEmptyCollection(v: Value) {
    (v.Struct? && |v.fields| == 0) || (v.Arr? && |v.items| == 0)
  }

  /** No Struct or Array strictly below `v` is empty. */
  predicate NoEmptyBelow(v: Value)
    decreases v
  {
    match v
    case Scalar(_) => true
    case Struct(m) => forall k :: k in m ==> !IsEmptyCollection(m[k]) && NoEmptyBelow(m[k])
    case Arr(s) => forall i :: 0 <= i < |s| ==> !IsEmptyCollection(s[i]) && NoEmptyBelow(s[i])
  }

  /** The tree `remIfEmpty` leaves: children are pruned first, then dropped when empty. */
  function Pruned(v: Value): Value
    decreases v, 1
  {
    match v
    case Scalar(_) => v
    case Struct(m) => Struct(map k | k in m && !IsEmptyCollection(Pruned(m[k])) :: Pruned(m[k]))
    case Arr(s) => Arr(PrunedItems(s))
  }

  /** The elements of a pruned Array, in their order, without the ones left empty. */
  function PrunedItems(s: seq<Value>): seq<Value>
    decreases s, 0
  {
    if s == [] then []
    else
      var p := Pruned(s[|s| - 1]);
      PrunedItems(s[..|s| - 1]) + (if IsEmptyCollection(p) then [] else [p])
  }

  /** A value as it stands in its parent after pruning: absent when pruning left it empty. */
  function PrunedEntry(o: Option<Value>): Option<Value> {
    if o.None? || IsEmptyCollection(Pruned(o.value)) then None else Some(Pruned(o.value))
  }

  /** Pruning a Struct prunes each of its entries on its own. */
  lemma PrunedFields(m: Fields, k: string)
    ensures Pruned(Struct(m)).Struct?
    ensures Get(Pruned(Struct(m)).fields, k) == PrunedEntry(Get(m, k))
  {
  }

  /** After pruning, nothing reachable below the root is an empty Struct or Array. */
  lemma {:induction false} PrunedHasNoEmpty(v: Value)
    ensures NoEmptyBelow(Pruned(v))
    decreases v, 1
  {
    match v
    case Scalar(_) =>
    case Struct(m) =>
      forall k | k in m {
        PrunedHasNoEmpty(m[k]);
      }
    case Arr(s) =>
      PrunedItemsHaveNoEmpty(s);
  }

  lemma {:induction false} PrunedItemsHaveNoEmpty(s: seq<Value>)
    ensures forall i :: 0 <= i < |PrunedItems(s)| ==>
              !IsEmptyCollection(PrunedItems(s)[i]) && NoEmptyBelow(PrunedItems(s)[i])
    decreases s, 0
  {
    if s != [] {
      PrunedItemsHaveNoEmpty(s[..|s| - 1]);
      PrunedHasNoEmpty(s[|s| - 1]);
    }
  }

  /** A tree with no empty collection below its root is left as it is. */
  lemma {:induction false} PrunedKeepsPrunedTree(v: Value)
    requires NoEmptyBelow(v)
    ensures Pruned(v) == v
    decreases v, 1
  {
    match v
    case Scalar(_) =>
    case Struct(m) =>
      forall k | k in m
        ensures Pruned(m[k]) == m[k]
      {
        PrunedKeepsPrunedTree(m[k]);
      }
    case Arr(s) =>
      PrunedItemsKeepPrunedItems(s);
  }

  lemma {:induction false} PrunedItemsKeepPrunedItems(s: seq<Value>)
    requires forall i :: 0 <= i < |s| ==> !IsEmptyCollection(s[i]) && NoEmptyBelow(s[i])
    ensures PrunedItems(s) == s
    decreases s, 0
  {
    if s != [] {
      PrunedItemsKeepPrunedItems(s[..|s| - 1]);
      PrunedKeepsPrunedTree(s[|s| - 1]);
    }
  }

  /** Pruning twice is pruning once. */
  lemma PrunedIdempotent(v: Value)
    ensures Pruned(Pruned(v)) == Pruned(v)
  {
    PrunedHasNoEmpty(v);
    PrunedKeepsPrunedTree(Pruned(v));
  }

  /** Exactly the collections that hold no text anywhere below them are pruned away; text
      values are never removed. */
  lemma {:induction false} PrunedEmptyIff(v: Value)
    ensures IsEmptyCollection(Pruned(v)) <==> !v.Scalar? && !HoldsText(v)
    decreases v, 1
  {
    match v
    case Scalar(_) =>
    case Struct(m) =>
      forall k | k in m
        ensures IsEmptyCollection(Pruned(m[k])) <==> !m[k].Scalar? && !HoldsText(m[k])
      {
        PrunedEmptyIff(m[k]);
      }
      if HoldsText(v) {
        var k :| k in m && HoldsText(m[k]);
        assert k in Pruned(v).fields;
      }
    case Arr(s) =>
      PrunedItemsEmptyIff(s);
  }

  lemma {:induction false} PrunedItemsEmptyIff(s: seq<Value>)
    ensures PrunedItems(s) == [] <==> forall i :: 0 <= i < |s| ==> !HoldsText(s[i])
    decreases s, 0
  {
    if s != [] {
      var init, last := s[..|s| - 1], s[|s| - 1];
      PrunedItemsEmptyIff(init);
      PrunedEmptyIff(last);
      if forall i :: 0 <= i < |s| ==> !HoldsText(s[i]) {
        assert forall i :: 0 <= i < |init| ==> !HoldsText(init[i]);
      } else {
        var i :| 0 <= i < |s| && HoldsText(s[i]);
        if i < |s| - 1 {
          assert HoldsText(init[i]);
        }
      }
    }
  }

  /** `remIfEmpty(coll)`: for each key, a non-empty child is pruned first, and a child that is
      then empty is removed. Array elements are visited in order and kept unless left empty. */
  method RemIfEmpty(coll: Value) returns (r: Value)
    ensures r == Pruned(coll)
    decreases coll, 1
  {
    match coll
    case Scalar(_) =>
      r := coll;
    case Struct(_) =>
      r := RemIfEmptyInStruct(coll);
    case Arr(_) =>
      r := RemIfEmptyInArray(coll);
  }

  /** The key loop of `remIfEmpty` over a Struct. */
  method RemIfEmptyInStruct(coll: Value) returns (r: Value)
    requires coll.Struct?
    ensures r == Pruned(coll)
    decreases coll, 0
  {
    var m := coll.fields;
    var result := m;
    var keys := m.Keys;
    while keys != {}
      invariant keys <= m.Keys && result.Keys <= m.Keys
      invariant forall k :: k in keys ==> k in result && result[k] == m[k]
      invariant forall k :: k in m && k !in keys ==>
                  (k in result <==> !IsEmptyCollection(Pruned(m[k]))) &&
                  (k in result ==> result[k] == Pruned(m[k]))
      decreases keys
    {
      var k :| k in keys;
      var sub := m[k];
      if !sub.Scalar? {
        if !IsEmptyCollection(sub) {
          sub := RemIfEmpty(sub);
        }
        assert sub == Pruned(m[k]);
        if IsEmptyCollection(sub) {
          result := result - {k};
        } else {
          result := result[k := sub];
        }
      }
      keys := keys - {k};
    }
    assert result == map k | k in m && !IsEmptyCollection(Pruned(m[k])) :: Pruned(m[k]);
    r := Struct(result);
  }

  /** The element loop of `remIfEmpty` over an Array, as the corrected definition `Pruned` has it. */
  method RemIfEmptyInArray(coll: Value) returns (r: Value)
    requires coll.Arr?
    ensures r == Pruned(coll)
    decreases coll, 0
  {
    var s := coll.items;
    var kept: seq<Value> := [];
    for i := 0 to |s|
      invariant kept == PrunedItems(s[..i])
    {
      var sub := s[i];
      if !sub.Scalar? && !IsEmptyCollection(sub) {
        sub := RemIfEmpty(sub);
      }
      assert s[..i + 1][..i] == s[..i];
      if !IsEmptyCollection(sub) {
        kept := kept + [sub];
      }
    }
    assert s[..|s|] == s;
    r := Arr(kept);
  }

  /** `remIfEmpty` as written, for Arrays: the keys `1..n` are taken before the loop, but
      `Array.remove(k)` shifts the later elements down one place, so the element that follows a
      removed one moves under the key just handled and is never visited. Structs are handled as
      in `Pruned`. */
  function RemIfEmptyAsWritten(v: Value): Value
    decreases v, 1
  {
    match v
    case Scalar(_) => v
    case Struct(m) =>
      Struct(map k | k in m && !IsEmptyCollection(RemIfEmptyAsWritten(m[k])) :: RemIfEmptyAsWritten(m[k]))
    case Arr(s) => Arr(ArrayPassAsWritten(s))
  }

  /** One pass over the remaining elements of an Array, visiting `s[0]` under the current key. */
  function ArrayPassAsWritten(s: seq<Value>): seq<Value>
    decreases s, 0
  {
    if s == [] then []
    else
      var p := RemIfEmptyAsWritten(s[0]);
      if !IsEmptyCollection(p) then [p] + ArrayPassAsWritten(s[1..])
      else if |s| == 1 then []
      else [s[1]] + ArrayPassAsWritten(s[2..])
  }

  /** Two empty Structs in a row inside an Array: the code as written removes the first, skips
      the second and leaves it, so an empty collection survives; `Pruned` removes the whole entry. */
  lemma RemIfEmptyAsWrittenKeepsEmpty()
    ensures var root := Struct(map["mapping" := Arr([Struct(map[]), Struct(map[])])]);
            && RemIfEmptyAsWritten(root) == Struct(map["mapping" := Arr([Struct(map[])])])
            && !NoEmptyBelow(RemIfEmptyAsWritten(root))
            && Pruned(root) == Struct(map[])
  {
    var empty := Struct(map[]);
    var items := [empty, empty];
    assert ArrayPassAsWritten(items) == [empty];
    assert PrunedItems(items) == [] by {
      assert items[..1] == [empty];
      assert PrunedItems([empty]) == [];
    }
  }
}
