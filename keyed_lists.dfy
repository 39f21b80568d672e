/** The list-to-dictionary conversions of the migration: every Struct element of a list is stored
    in a target Struct under the text of its identifying field (`name` or `id`), which is taken
    out of the element; elements that are not Structs are skipped (`Caster.toStruct(x, null)`). */
module KeyedLists {
  import opened Wrappers
  import opened ConfigTree

  /** `Caster.toString(conn.remove(idKey, null), null)`: the identifying text of a Struct element,
      or `None` when the field is missing or is not text. */
  function IdOf(v: Value, idKey: string): Option<string> {
    if v.Struct? && idKey in v.fields && v.fields[idKey].Scalar? then Some(v.fields[idKey].text) else None
  }

  /** `v` is a Struct element that converts to an entry under `n`. */
  predicate IsEntryFor(v: Value, idKey: string, n: string) {
    v.Struct? && IdOf(v, idKey) == Some(n)
  }

  /** Every Struct element carries an identifying text, so no conversion step can fail. */
  predicate AllNamed(items: seq<Value>, idKey: string) {
    forall i :: 0 <= i < |items| && items[i].Struct? ==> IdOf(items[i], idKey).Some?
  }

  /** Some Struct element converts to an entry under `n`. */
  predicate HasEntryFor(items: seq<Value>, idKey: string, n: string) {
    exists i :: 0 <= i < |items| && IsEntryFor(items[i], idKey, n)
  }

  /** The element with its identifying field removed. */
  function Stripped(v: Value, idKey: string): Value
    requires v.Struct?
  {
    Struct(v.fields - {idKey})
  }

  /** One conversion step: skip a non-Struct, otherwise `add(conn, name, into)`. */
  function AddEntry(acc: Result<Fields, TreeError>, item: Value, idKey: string): Result<Fields, TreeError> {
    if acc.Failure? || !item.Struct? then acc
    else Add(Some(Stripped(item, idKey)), IdOf(item, idKey), acc.value)
  }

  /** The elements converted first to last, starting from `base`. */
  function KeyedInOrder(items: seq<Value>, idKey: string, base: Fields): Result<Fields, TreeError>
    decreases |items|
  {
    if items == [] then Success(base)
    else AddEntry(KeyedInOrder(items[..|items| - 1], idKey, base), items[|items| - 1], idKey)
  }

  /** The elements converted last to first, starting from `base`. */
  function KeyedInReverse(items: seq<Value>, idKey: string, base: Fields): Result<Fields, TreeError>
    decreases |items|
  {
    if items == [] then Success(base)
    else AddEntry(KeyedInReverse(items[1..], idKey, base), items[0], idKey)
  }

  /** The elements that are not Structs, in their order. */
  function NonStructs(items: seq<Value>): (r: seq<Value>)
    ensures forall i :: 0 <= i < |r| ==> !r[i].Struct?
    ensures |r| <= |items|
  {
    if items == [] then []
    else (if items[0].Struct? then [] else [items[0]]) + NonStructs(items[1..])
  }

  /** The elements kept are exactly the elements that are not Structs. */
  lemma {:induction false} NonStructsMeaning(items: seq<Value>)
    ensures forall v :: v in NonStructs(items) <==> v in items && !v.Struct?
    decreases |items|
  {
    if items != [] {
      NonStructsMeaning(items[1..]);
      assert items == [items[0]] + items[1..];
    }
  }

  /** Converting first to last succeeds exactly when every Struct element is named; then each
      name holds the LAST element carrying it, stripped of its name, and every other key keeps
      its value from `base`. */
  lemma {:induction false} KeyedInOrderMeaning(items: seq<Value>, idKey: string, base: Fields)
    ensures KeyedInOrder(items, idKey, base).Success? <==> AllNamed(items, idKey)
    ensures KeyedInOrder(items, idKey, base).Success? ==>
              forall i, n :: 0 <= i < |items| && IsEntryFor(items[i], idKey, n) &&
                             (forall j :: i < j < |items| ==> !IsEntryFor(items[j], idKey, n)) ==>
                Get(KeyedInOrder(items, idKey, base).value, n) == Some(Stripped(items[i], idKey))
    ensures KeyedInOrder(items, idKey, base).Success? ==>
              forall n :: (forall i :: 0 <= i < |items| ==> !IsEntryFor(items[i], idKey, n)) ==>
                Get(KeyedInOrder(items, idKey, base).value, n) == Get(base, n)
  {
    KeyedInOrderSucceeds(items, idKey, base);
    if KeyedInOrder(items, idKey, base).Success? {
      forall i, n | 0 <= i < |items| && IsEntryFor(items[i], idKey, n) &&
                    (forall j :: i < j < |items| ==> !IsEntryFor(items[j], idKey, n))
        ensures Get(KeyedInOrder(items, idKey, base).value, n) == Some(Stripped(items[i], idKey))
      {
        KeyedInOrderLastWins(items, idKey, base, i, n);
      }
      forall n | forall i :: 0 <= i < |items| ==> !IsEntryFor(items[i], idKey, n)
        ensures Get(KeyedInOrder(items, idKey, base).value, n) == Get(base, n)
      {
        KeyedInOrderKeepsOthers(items, idKey, base, n);
      }
    }
  }

  lemma {:induction false} KeyedInOrderSucceeds(items: seq<Value>, idKey: string, base: Fields)
    ensures KeyedInOrder(items, idKey, base).Success? <==> AllNamed(items, idKey)
    decreases |items|
  {
    if items != [] {
      var init, last := items[..|items| - 1], items[|items| - 1];
      KeyedInOrderSucceeds(init, idKey, base);
      assert forall i :: 0 <= i < |init| ==> init[i] == items[i];
      if AllNamed(items, idKey) {
        assert AllNamed(init, idKey);
      }
      if AllNamed(init, idKey) && !(last.Struct? ==> IdOf(last, idKey).Some?) {
        assert !AllNamed(items, idKey);
      }
    }
  }

  lemma {:induction false} KeyedInOrderLastWins(items: seq<Value>, idKey: string, base: Fields, i: nat, n: string)
    requires KeyedInOrder(items, idKey, base).Success?
    requires i < |items| && IsEntryFor(items[i], idKey, n)
    requires forall j :: i < j < |items| ==> !IsEntryFor(items[j], idKey, n)
    ensures Get(KeyedInOrder(items, idKey, base).value, n) == Some(Stripped(items[i], idKey))
    decreases |items|
  {
    var init, last := items[..|items| - 1], items[|items| - 1];
    if i < |init| {
      assert !IsEntryFor(last, idKey, n);
      assert init[i] == items[i];
      assert forall j :: i < j < |init| ==> init[j] == items[j];
      KeyedInOrderLastWins(init, idKey, base, i, n);
    }
  }

  lemma {:induction false} KeyedInOrderKeepsOthers(items: seq<Value>, idKey: string, base: Fields, n: string)
    requires KeyedInOrder(items, idKey, base).Success?
    requires forall i :: 0 <= i < |items| ==> !IsEntryFor(items[i], idKey, n)
    ensures Get(KeyedInOrder(items, idKey, base).value, n) == Get(base, n)
    decreases |items|
  {
    if items != [] {
      var init := items[..|items| - 1];
      assert forall i :: 0 <= i < |init| ==> init[i] == items[i];
      KeyedInOrderKeepsOthers(init, idKey, base, n);
    }
  }

  /** Converting last to first succeeds exactly when every Struct element is named; then each
      name holds the FIRST element carrying it, and every other key keeps its value from `base`. */
  lemma {:induction false} KeyedInReverseMeaning(items: seq<Value>, idKey: string, base: Fields)
    ensures KeyedInReverse(items, idKey, base).Success? <==> AllNamed(items, idKey)
    ensures KeyedInReverse(items, idKey, base).Success? ==>
              forall i, n :: 0 <= i < |items| && IsEntryFor(items[i], idKey, n) &&
                             (forall j :: 0 <= j < i ==> !IsEntryFor(items[j], idKey, n)) ==>
                Get(KeyedInReverse(items, idKey, base).value, n) == Some(Stripped(items[i], idKey))
    ensures KeyedInReverse(items, idKey, base).Success? ==>
              forall n :: (forall i :: 0 <= i < |items| ==> !IsEntryFor(items[i], idKey, n)) ==>
                Get(KeyedInReverse(items, idKey, base).value, n) == Get(base, n)
    decreases |items|
  {
    if items != [] {
      var first, rest := items[0], items[1..];
      KeyedInReverseMeaning(rest, idKey, base);
      assert forall i :: 0 <= i < |rest| ==> rest[i] == items[i + 1];
      if AllNamed(items, idKey) {
        assert AllNamed(rest, idKey);
      }
      var acc := KeyedInReverse(rest, idKey, base);
      if acc.Success? && AllNamed(rest, idKey) && !(first.Struct? ==> IdOf(first, idKey).Some?) {
        assert !AllNamed(items, idKey);
      }
    }
  }

  /** Converting from the end of the suffix at `i` is converting the suffix at `i + 1`, then the
      element at `i`. */
  lemma KeyedInReverseStep(items: seq<Value>, i: nat, idKey: string, base: Fields)
    requires i < |items|
    ensures KeyedInReverse(items[i..], idKey, base) == AddEntry(KeyedInReverse(items[i + 1..], idKey, base), items[i], idKey)
  {
    assert items[i..][1..] == items[i + 1..];
  }

  /** The iterator loop `while (it.hasNext()) { conn = toStruct(it.next()); ...; add(conn, name, into) }`:
      stops at the first Struct element without a name. */
  method AddEachByKey(items: seq<Value>, idKey: string, into: Fields) returns (r: Result<Fields, TreeError>)
    ensures r == KeyedInOrder(items, idKey, into)
  {
    var acc := into;
    for i := 0 to |items|
      invariant KeyedInOrder(items[..i], idKey, into) == Success(acc)
    {
      assert items[..i + 1][..i] == items[..i];
      var conn := items[i];
      if conn.Struct? {
        var name := IdOf(conn, idKey);
        var data := Stripped(conn, idKey);
        var added := Add(Some(data), name, acc);
        if added.Failure? {
          KeyedInOrderFailureSticks(items, idKey, into, i + 1);
          return added;
        }
        acc := added.value;
      }
    }
    assert items[..|items|] == items;
    r := Success(acc);
  }

  /** Once a conversion has failed, converting more elements does not recover. */
  lemma {:induction false} KeyedInOrderFailureSticks(items: seq<Value>, idKey: string, base: Fields, k: nat)
    requires k <= |items|
    requires KeyedInOrder(items[..k], idKey, base).Failure?
    ensures KeyedInOrder(items, idKey, base) == KeyedInOrder(items[..k], idKey, base)
    decreases |items| - k
  {
    if k < |items| {
      var longer := items[..k + 1];
      assert longer[..k] == items[..k];
      KeyedInOrderFailureSticks(items, idKey, base, k + 1);
    } else {
      assert items[..k] == items;
    }
  }

  /** Once a conversion from the end has failed, converting earlier elements does not recover. */
  lemma {:induction false} KeyedInReverseFailureSticks(items: seq<Value>, idKey: string, base: Fields, k: nat)
    requires k <= |items|
    requires KeyedInReverse(items[k..], idKey, base).Failure?
    ensures KeyedInReverse(items, idKey, base) == KeyedInReverse(items[k..], idKey, base)
    decreases k
  {
    if k > 0 {
      assert items[k - 1..][1..] == items[k..];
      KeyedInReverseFailureSticks(items, idKey, base, k - 1);
    } else {
      assert items[k..] == items;
    }
  }

  /** An identifying text is text inside the element, so an element without text cannot be
      converted. */
  lemma NamedHoldsText(v: Value, idKey: string)
    ensures IdOf(v, idKey).Some? ==> HoldsText(v)
  {
    if IdOf(v, idKey).Some? {
      assert HoldsText(v.fields[idKey]);
    }
  }

  /** A list holding no text converts, when it converts at all, to its base unchanged. */
  lemma {:induction false} KeyedInOrderOfTextless(items: seq<Value>, idKey: string, base: Fields)
    requires forall i :: 0 <= i < |items| ==> !HoldsText(items[i])
    ensures KeyedInOrder(items, idKey, base).Success? ==> KeyedInOrder(items, idKey, base) == Success(base)
    decreases |items|
  {
    if items != [] {
      KeyedInOrderOfTextless(items[..|items| - 1], idKey, base);
      NamedHoldsText(items[|items| - 1], idKey);
    }
  }

  /** The same, converting from the end. */
  lemma {:induction false} KeyedInReverseOfTextless(items: seq<Value>, idKey: string, base: Fields)
    requires forall i :: 0 <= i < |items| ==> !HoldsText(items[i])
    ensures KeyedInReverse(items, idKey, base).Success? ==> KeyedInReverse(items, idKey, base) == Success(base)
    decreases |items|
  {
    if items != [] {
      KeyedInReverseOfTextless(items[1..], idKey, base);
      NamedHoldsText(items[0], idKey);
    }
  }

  /** The elements left in the Array hold no text when the list held none. */
  lemma NonStructsOfTextless(items: seq<Value>)
    requires forall i :: 0 <= i < |items| ==> !HoldsText(items[i])
    ensures !HoldsText(Arr(NonStructs(items)))
  {
    var kept := NonStructs(items);
    forall i | 0 <= i < |kept|
      ensures !HoldsText(kept[i])
    {
      NonStructsFrom(items, kept[i]);
      var j :| 0 <= j < |items| && items[j] == kept[i];
    }
  }

  /** Every element kept comes from the Array. */
  lemma {:induction false} NonStructsFrom(items: seq<Value>, v: Value)
    requires v in NonStructs(items)
    ensures v in items
    decreases |items|
  {
    if v != items[0] {
      NonStructsFrom(items[1..], v);
    }
  }

  /** An entry for `n` is in the first element or in the rest. */
  lemma HasEntryForCons(items: seq<Value>, idKey: string, n: string)
    requires |items| > 0
    ensures HasEntryFor(items, idKey, n) <==> IsEntryFor(items[0], idKey, n) || HasEntryFor(items[1..], idKey, n)
  {
    if HasEntryFor(items, idKey, n) {
      var j :| 0 <= j < |items| && IsEntryFor(items[j], idKey, n);
      if j > 0 {
        assert IsEntryFor(items[1..][j - 1], idKey, n);
      }
    }
    if HasEntryFor(items[1..], idKey, n) {
      var j :| 0 <= j < |items[1..]| && IsEntryFor(items[1..][j], idKey, n);
      assert IsEntryFor(items[j + 1], idKey, n);
    }
  }
}
