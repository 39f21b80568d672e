/** The generic configuration tree that `ConfigFactory` edits, and the editing primitives
    `rem`, `move` (both forms), `copy` and `add`, together with the get-or-create accessors
    `ConfigWebUtil.getAsStruct` / `getAsArray` the migration relies on.

    A Lucee `Struct` is modelled as a value: an edit returns the new contents and the caller
    stores them back. Keys are compared exactly (Lucee's case-insensitive keys are not modelled);
    every key literal of the migration is spelled consistently, so this changes none of its rules. */
module ConfigTree {
  import opened Wrappers
  import opened Text

  /** A configuration value: text, a Struct (key to value) or an Array (an ordered list). */
  datatype Value = Scalar(text: string) | Struct(fields: map<string, Value>) | Arr(items: seq<Value>)

  type Fields = map<string, Value>

  /** The exception raised when a key is derived from a value that is missing or is not text. */
  datatype TreeError = NullKey

  /** Some text value lies at or below `v`. */
  predicate HoldsText(v: Value)
    decreases v
  {
    match v
    case Scalar(_) => true
    case Struct(m) => exists k :: k in m && HoldsText(m[k])
    case Arr(s) => exists i :: 0 <= i < |s| && HoldsText(s[i])
  }

  /** No text lies anywhere in the Struct `m`: it is made of empty containers only. */
  predicate Textless(m: Fields) {
    forall k :: k in m ==> !HoldsText(m[k])
  }

  /** Storing a Struct without text in a Struct without text leaves no text. */
  lemma TextlessStore(m: Fields, key: string, sub: Fields)
    requires Textless(m) && Textless(sub)
    ensures Textless(m[key := Struct(sub)])
  {
    assert !HoldsText(Struct(sub));
  }

  /** `sct.get(k, null)`. */
  function Get(m: Fields, k: string): Option<Value> {
    if k in m then Some(m[k]) else None
  }

  /** The fields of a Struct value; nothing for an absent value or one of another kind. */
  function AsFields(o: Option<Value>): Fields {
    if o.Some? && o.value.Struct? then o.value.fields else map[]
  }

  /** The elements of an Array value; nothing for an absent value or one of another kind. */
  function AsItems(o: Option<Value>): seq<Value> {
    if o.Some? && o.value.Arr? then o.value.items else []
  }

  /** What `getAsStruct(name, m)` hands back, without its side effect. */
  function StructAt(m: Fields, name: string): Fields {
    AsFields(Get(m, name))
  }

  /** What `getAsArray(name, m)` hands back, without its side effect. */
  function ItemsAt(m: Fields, name: string): seq<Value> {
    AsItems(Get(m, name))
  }

  /** Two Structs that agree on every key are the same Struct. */
  lemma FieldsEqual(a: Fields, b: Fields)
    requires forall k :: Get(a, k) == Get(b, k)
    ensures a == b
  {
    assert a.Keys == b.Keys by {
      forall k ensures k in a <==> k in b {
        assert Get(a, k) == Get(b, k);
      }
    }
    forall k | k in a ensures a[k] == b[k] {
      assert Get(a, k) == Get(b, k);
    }
  }

  /** `ConfigWebUtil.getAsStruct(name, m)`: the Struct stored under `name`, created empty and
      stored when there is none (so a parent that already holds a Struct there is unchanged).
      The parent afterwards holds exactly the returned Struct, which is what lets a caller edit
      the child and store it back. */
  method GetAsStruct(name: string, m: Fields) returns (sub: Fields, m': Fields)
    ensures sub == StructAt(m, name)
    ensures Get(m', name) == Some(Struct(sub))
    ensures forall k :: k != name ==> Get(m', k) == Get(m, k)
    ensures Textless(m) ==> Textless(sub) && Textless(m')
  {
    sub := StructAt(m, name);
    m' := m[name := Struct(sub)];
  }

  /** `ConfigWebUtil.getAsArray(name, m)`: the Array stored under `name`, created empty and
      stored when there is none. */
  method GetAsArray(name: string, m: Fields) returns (items: seq<Value>, m': Fields)
    ensures items == ItemsAt(m, name)
    ensures Get(m', name) == Some(Arr(items))
    ensures forall k :: k != name ==> Get(m', k) == Get(m, k)
    ensures Textless(m) ==> Textless(m') && forall i :: 0 <= i < |items| ==> !HoldsText(items[i])
  {
    items := ItemsAt(m, name);
    m' := m[name := Arr(items)];
  }

  /** `rem(key, sct)`: the key is gone; removing an absent key changes nothing; no other key changes. */
  function Rem(key: string, sct: Fields): (r: Fields)
    ensures key !in r
    ensures key !in sct ==> r == sct
    ensures forall k :: k != key ==> Get(r, k) == Get(sct, k)
    ensures Textless(sct) ==> Textless(r)
  {
    sct - {key}
  }

  /** `move(fromKey, toKey, from, to)`: `fromKey` leaves `from`; `to` gets its value under `toKey`
      exactly when it was present; nothing else changes in either Struct. */
  method MoveAs(fromKey: string, toKey: string, from: Fields, to: Fields) returns (from': Fields, to': Fields)
    ensures fromKey !in from'
    ensures forall k :: k != fromKey ==> Get(from', k) == Get(from, k)
    ensures Get(to', toKey) == Get(from, fromKey).Or(Get(to, toKey))
    ensures forall k :: k != toKey ==> Get(to', k) == Get(to, k)
    ensures Textless(from) && Textless(to) ==> Textless(from') && Textless(to')
  {
    var val := Get(from, fromKey);
    from' := Rem(fromKey, from);
    if val.Some? {
      to' := to[toKey := val.value];
    } else {
      to' := to;
    }
  }

  /** `move(key, from, to)`: the key keeps its name. */
  method Move(key: string, from: Fields, to: Fields) returns (from': Fields, to': Fields)
    ensures key !in from'
    ensures forall k :: k != key ==> Get(from', k) == Get(from, k)
    ensures Get(to', key) == Get(from, key).Or(Get(to, key))
    ensures forall k :: k != key ==> Get(to', k) == Get(to, k)
    ensures Textless(from) && Textless(to) ==> Textless(from') && Textless(to')
  {
    from', to' := MoveAs(key, key, from, to);
  }

  /** `copy(fromKey, toKey, from, to)`: like `move`, but `from` is only read, so it is not returned. */
  function Copy(fromKey: string, toKey: string, from: Fields, to: Fields): (to': Fields)
    ensures Get(to', toKey) == Get(from, fromKey).Or(Get(to, toKey))
    ensures forall k :: k != toKey ==> Get(to', k) == Get(to, k)
    ensures Textless(from) && Textless(to) ==> Textless(to')
  {
    if fromKey in from then to[toKey := from[fromKey]] else to
  }

  /** `add(fromData, toKey, to)`: missing data is ignored before the key is looked at; otherwise
      a missing key is the `KeyImpl.init(null)` failure, and a present one is set. */
  function Add(fromData: Option<Value>, toKey: Option<string>, to: Fields): (r: Result<Fields, TreeError>)
    ensures fromData.None? ==> r == Success(to)
    ensures fromData.Some? && toKey.None? ==> r == Failure(NullKey)
    ensures fromData.Some? && toKey.Some? ==>
              r.Success? && Get(r.value, toKey.value) == fromData &&
              forall k :: k != toKey.value ==> Get(r.value, k) == Get(to, k)
  {
    if fromData.None? then Success(to)
    else if toKey.None? then Failure(NullKey)
    else Success(to[toKey.value := fromData.value])
  }

  /** The key `prefix + ucFirst(t)` generated for one entry `t` of a fixed type list. */
  function PrefixedKey(prefix: string, t: string): string {
    prefix + UcFirst(t)
  }

  /** All keys generated from a type list. */
  function PrefixedKeys(prefix: string, types: seq<string>): set<string>
    decreases |types|
  {
    if types == [] then {}
    else PrefixedKeys(prefix, types[..|types| - 1]) + {PrefixedKey(prefix, types[|types| - 1])}
  }

  /** The generated keys are exactly the keys generated from the entries of the list. */
  lemma {:induction false} PrefixedKeysMeaning(prefix: string, types: seq<string>, k: string)
    ensures k in PrefixedKeys(prefix, types) <==> exists t :: t in types && k == PrefixedKey(prefix, t)
    decreases |types|
  {
    if types != [] {
      var init := types[..|types| - 1];
      PrefixedKeysMeaning(prefix, init, k);
      assert types == init + [types[|types| - 1]];
      if exists t :: t in types && k == PrefixedKey(prefix, t) {
        var t :| t in types && k == PrefixedKey(prefix, t);
        if t != types[|types| - 1] {
          assert t in init;
        }
      }
    }
  }

  /** A key that differs from `prefix` at some position inside the prefix is never generated. */
  lemma NotPrefixed(prefix: string, types: seq<string>, k: string, i: nat)
    requires i < |prefix|
    requires i >= |k| || k[i] != prefix[i]
    ensures k !in PrefixedKeys(prefix, types)
  {
    PrefixedKeysMeaning(prefix, types, k);
    forall t | t in types
      ensures k != PrefixedKey(prefix, t)
    {
      assert PrefixedKey(prefix, t)[i] == prefix[i];
    }
  }

  /** `from`/`to` are `from0`/`to0` after every key of `done`, and no other key, was moved. */
  ghost predicate MovedExactly(done: set<string>, from0: Fields, to0: Fields, from: Fields, to: Fields) {
    && (forall k :: k in done ==> k !in from && Get(to, k) == Get(from0, k).Or(Get(to0, k)))
    && (forall k :: k !in done ==> Get(from, k) == Get(from0, k) && Get(to, k) == Get(to0, k))
  }

  /** Moving one more key extends the set of moved keys by that key. */
  method MoveOneMore(key: string, ghost done: set<string>, ghost from0: Fields, ghost to0: Fields, from: Fields, to: Fields)
    returns (from': Fields, to': Fields)
    requires MovedExactly(done, from0, to0, from, to)
    ensures MovedExactly(done + {key}, from0, to0, from', to')
    ensures Textless(from) && Textless(to) ==> Textless(from') && Textless(to')
  {
    if key in done {
      assert key !in from;
    } else {
      assert Get(from, key) == Get(from0, key) && Get(to, key) == Get(to0, key);
    }
    from', to' := Move(key, from, to);
    forall k | k in done + {key}
      ensures k !in from' && Get(to', k) == Get(from0, k).Or(Get(to0, k))
    {
      if k != key {
        assert Get(from', k) == Get(from, k) && Get(to', k) == Get(to, k);
      }
    }
  }

  /** A run of `move(key, from, to)` calls, one per key of the list, in order: every listed key
      is moved as by `Move`; other keys are left alone in both Structs. */
  method MoveEach(keys: seq<string>, from: Fields, to: Fields) returns (from': Fields, to': Fields)
    ensures forall k :: k in keys ==> k !in from' && Get(to', k) == Get(from, k).Or(Get(to, k))
    ensures forall k :: k !in keys ==> Get(from', k) == Get(from, k) && Get(to', k) == Get(to, k)
    ensures Textless(from) && Textless(to) ==> Textless(from') && Textless(to')
  {
    from', to' := from, to;
    ghost var done: set<string> := {};
    for i := 0 to |keys|
      invariant forall k :: k in done <==> k in keys[..i]
      invariant MovedExactly(done, from, to, from', to')
      invariant Textless(from) && Textless(to) ==> Textless(from') && Textless(to')
    {
      assert keys[..i + 1] == keys[..i] + [keys[i]];
      from', to' := MoveOneMore(keys[i], done, from, to, from', to');
      done := done + {keys[i]};
    }
    assert keys[..|keys|] == keys;
  }

  /** `for (String type: types) move(prefix + ucFirst(type), from, to)`: every generated key is
      moved as by `Move`; keys that are not generated are left alone in both Structs. */
  method MoveEachPrefixed(prefix: string, types: seq<string>, from: Fields, to: Fields)
    returns (from': Fields, to': Fields)
    ensures forall t :: t in types ==> PrefixedKey(prefix, t) !in from'
    ensures forall t :: t in types ==>
              Get(to', PrefixedKey(prefix, t)) == Get(from, PrefixedKey(prefix, t)).Or(Get(to, PrefixedKey(prefix, t)))
    ensures forall k :: k !in PrefixedKeys(prefix, types) ==> Get(from', k) == Get(from, k) && Get(to', k) == Get(to, k)
    ensures Textless(from) && Textless(to) ==> Textless(from') && Textless(to')
  {
    from', to' := from, to;
    for i := 0 to |types|
      invariant MovedExactly(PrefixedKeys(prefix, types[..i]), from, to, from', to')
      invariant Textless(from) && Textless(to) ==> Textless(from') && Textless(to')
    {
      assert types[..i + 1][..i] == types[..i];
      from', to' := MoveOneMore(PrefixedKey(prefix, types[i]), PrefixedKeys(prefix, types[..i]), from, to, from', to');
    }
    assert types[..|types|] == types;
    forall t | t in types
      ensures PrefixedKey(prefix, t) in PrefixedKeys(prefix, types)
    {
      PrefixedKeysMeaning(prefix, types, PrefixedKey(prefix, t));
    }
  }
}
