/** The values `parse_compound`, `parse_list` and `parse_value` build: a compound is a Python
    `dict` from keys to values (kept here as its entries in insertion order), a list is a Python
    `list`, and every leaf is kept as the text it was written as. */
module Tags {
  import opened Wrappers

  datatype Value =
    | Compound(fields: seq<Field>)
    | List(items: seq<Value>)
    | Scalar(token: string)

  datatype Field = Field(key: string, val: Value)

  /** The keys of a dict, in order. */
  function KeysOf(fs: seq<Field>): (ks: seq<string>)
    ensures |ks| == |fs|
  {
    if fs == [] then [] else [fs[0].key] + KeysOf(fs[1..])
  }

  lemma {:induction false} KeysOfIndex(fs: seq<Field>)
    ensures forall k | 0 <= k < |fs| :: KeysOf(fs)[k] == fs[k].key
  {
    if fs != [] {
      KeysOfIndex(fs[1..]);
      assert forall k | 1 <= k < |fs| :: KeysOf(fs)[k] == KeysOf(fs[1..])[k - 1] && fs[k] == fs[1..][k - 1];
    }
  }

  /** A dict never holds a key twice. */
  predicate DistinctKeys(fs: seq<Field>) {
    forall i, j | 0 <= i < j < |fs| :: fs[i].key != fs[j].key
  }

  /** `key in d`. */
  predicate HasKey(fs: seq<Field>, key: string)
    decreases |fs|
  {
    fs != [] && (fs[0].key == key || HasKey(fs[1..], key))
  }

  /** A dict holds a key exactly when the key is among its keys. */
  lemma {:induction false} HasKeyKeys(fs: seq<Field>, key: string)
    ensures HasKey(fs, key) <==> key in KeysOf(fs)
    decreases |fs|
  {
    if fs != [] {
      HasKeyKeys(fs[1..], key);
    }
  }

  /** `d.get(key)`: the value stored under `key`, if any. */
  function Lookup(fs: seq<Field>, key: string): (r: Option<Value>)
    ensures r.None? <==> !HasKey(fs, key)
  {
    if fs == [] then None
    else if fs[0].key == key then Some(fs[0].val)
    else Lookup(fs[1..], key)
  }

  /** `d[key] = val`: an existing key keeps its place, a new key goes last. */
  function Put(fs: seq<Field>, key: string, val: Value): (r: seq<Field>)
    ensures KeysOf(r) == if HasKey(fs, key) then KeysOf(fs) else KeysOf(fs) + [key]
  {
    if fs == [] then [Field(key, val)]
    else if fs[0].key == key then [Field(key, val)] + fs[1..]
    else [fs[0]] + Put(fs[1..], key, val)
  }

  /** After `d[key] = val`, `key` is bound to `val` and every other key to what it was bound to. */
  lemma {:induction false} PutLookup(fs: seq<Field>, key: string, val: Value)
    ensures Lookup(Put(fs, key, val), key) == Some(val)
    ensures forall k | k != key :: Lookup(Put(fs, key, val), k) == Lookup(fs, k)
  {
    if fs != [] && fs[0].key != key {
      PutLookup(fs[1..], key, val);
      assert ([fs[0]] + Put(fs[1..], key, val))[1..] == Put(fs[1..], key, val);
    } else if fs != [] {
      assert ([Field(key, val)] + fs[1..])[1..] == fs[1..];
    }
  }

  /** Storing a key the dict does not hold appends the entry; storing one it holds keeps the
      dict's length.  Either way the dict stays free of repeated keys. */
  lemma {:induction false} PutShape(fs: seq<Field>, key: string, val: Value)
    ensures !HasKey(fs, key) ==> Put(fs, key, val) == fs + [Field(key, val)]
    ensures HasKey(fs, key) ==> |Put(fs, key, val)| == |fs|
    ensures DistinctKeys(fs) ==> DistinctKeys(Put(fs, key, val))
  {
    if !HasKey(fs, key) {
      PutAppends(fs, key, val);
      if DistinctKeys(fs) {
        DistinctAppend(fs, Field(key, val));
      }
    } else if DistinctKeys(fs) {
      DistinctSameKeys(fs, Put(fs, key, val));
    }
  }

  /** Two dicts with the same keys in the same order. */
  lemma {:induction false} DistinctSameKeys(fs: seq<Field>, gs: seq<Field>)
    requires KeysOf(fs) == KeysOf(gs) && DistinctKeys(fs)
    ensures DistinctKeys(gs)
  {
    KeysOfIndex(fs);
    KeysOfIndex(gs);
  }

  /** An entry with a new key appended to a dict. */
  lemma {:induction false} DistinctAppend(fs: seq<Field>, f: Field)
    requires DistinctKeys(fs) && !HasKey(fs, f.key)
    ensures DistinctKeys(fs + [f])
  {
    HasKeyKeys(fs, f.key);
    KeysOfIndex(fs);
    forall i | 0 <= i < |fs|
      ensures fs[i].key != f.key
    {
      assert KeysOf(fs)[i] == fs[i].key;
    }
  }

  lemma {:induction false} PutAppends(fs: seq<Field>, key: string, val: Value)
    requires !HasKey(fs, key)
    ensures Put(fs, key, val) == fs + [Field(key, val)]
  {
    if fs != [] {
      KeysOfIndex(fs);
      assert fs[0].key == KeysOf(fs)[0];
      assert KeysOf(fs[1..]) == KeysOf(fs)[1..];
      PutAppends(fs[1..], key, val);
      assert [fs[0]] + (fs[1..] + [Field(key, val)]) == fs + [Field(key, val)];
    }
  }

  /** `d.pop(key, None)`: the stored value (if any) and the dict without that key. */
  function Pop(fs: seq<Field>, key: string): (r: (Option<Value>, seq<Field>))
    ensures r.0 == Lookup(fs, key)
    ensures !HasKey(fs, key) ==> r.1 == fs
  {
    if fs == [] then (None, [])
    else if fs[0].key == key then (Some(fs[0].val), fs[1..])
    else
      var p := Pop(fs[1..], key);
      (p.0, [fs[0]] + p.1)
  }

  /** On a dict, popping a key removes it and leaves every other binding alone. */
  lemma {:induction false} PopRemoves(fs: seq<Field>, key: string)
    requires DistinctKeys(fs)
    ensures !HasKey(Pop(fs, key).1, key)
    ensures forall k | k != key :: Lookup(Pop(fs, key).1, k) == Lookup(fs, k)
    ensures DistinctKeys(Pop(fs, key).1)
    ensures KeysOf(Pop(fs, key).1) == RemoveKey(KeysOf(fs), key)
  {
    if fs != [] {
      DistinctTail(fs);
      if fs[0].key == key {
        PopFirst(fs, key);
      } else {
        PopRemoves(fs[1..], key);
        PopLater(fs, key);
      }
    }
  }

  /** The rest of a dict is a dict without its first key. */
  lemma {:induction false} DistinctTail(fs: seq<Field>)
    requires fs != [] && DistinctKeys(fs)
    ensures DistinctKeys(fs[1..]) && !HasKey(fs[1..], fs[0].key)
    ensures KeysOf(fs[1..]) == KeysOf(fs)[1..]
  {
    KeysOfIndex(fs[1..]);
    forall i, j | 0 <= i < j < |fs| - 1 ensures fs[1..][i].key != fs[1..][j].key {
      assert fs[1..][i] == fs[i + 1] && fs[1..][j] == fs[j + 1];
    }
    forall k | 0 <= k < |fs| - 1 ensures KeysOf(fs[1..])[k] != fs[0].key {
      assert fs[1..][k] == fs[k + 1];
    }
    HasKeyKeys(fs[1..], fs[0].key);
  }

  /** Popping the first key of a dict leaves the rest of it. */
  lemma {:induction false} PopFirst(fs: seq<Field>, key: string)
    requires fs != [] && fs[0].key == key && DistinctKeys(fs[1..]) && !HasKey(fs[1..], key)
    requires KeysOf(fs[1..]) == KeysOf(fs)[1..]
    ensures Pop(fs, key).1 == fs[1..]
    ensures forall k | k != key :: Lookup(fs[1..], k) == Lookup(fs, k)
    ensures KeysOf(fs[1..]) == RemoveKey(KeysOf(fs), key)
  {
    HasKeyKeys(fs[1..], key);
    RemoveKeyAbsent(KeysOf(fs[1..]), key);
  }

  /** Popping a later key of a dict keeps its first entry in front of the popped rest. */
  lemma {:induction false} PopLater(fs: seq<Field>, key: string)
    requires fs != [] && fs[0].key != key && !HasKey(fs[1..], fs[0].key)
    requires KeysOf(fs[1..]) == KeysOf(fs)[1..]
    requires var p := Pop(fs[1..], key).1;
      && !HasKey(p, key) && DistinctKeys(p)
      && (forall k | k != key :: Lookup(p, k) == Lookup(fs[1..], k))
      && KeysOf(p) == RemoveKey(KeysOf(fs[1..]), key)
    ensures !HasKey(Pop(fs, key).1, key)
    ensures forall k | k != key :: Lookup(Pop(fs, key).1, k) == Lookup(fs, k)
    ensures DistinctKeys(Pop(fs, key).1)
    ensures KeysOf(Pop(fs, key).1) == RemoveKey(KeysOf(fs), key)
  {
    var p := Pop(fs[1..], key).1;
    var r := [fs[0]] + p;
    assert r[1..] == p;
    assert KeysOf(r) == [fs[0].key] + KeysOf(p);
    KeysOfIndex(p);
    HasKeyKeys(fs[1..], fs[0].key);
    forall j | 1 <= j < |r| ensures r[0].key != r[j].key {
      assert r[j].key == KeysOf(p)[j - 1];
      RemoveKeySubset(KeysOf(fs[1..]), key, r[j].key);
    }
  }

  /** The keys without the first occurrence of `key`. */
  function RemoveKey(ks: seq<string>, key: string): seq<string> {
    if ks == [] then []
    else if ks[0] == key then ks[1..]
    else [ks[0]] + RemoveKey(ks[1..], key)
  }

  lemma {:induction false} RemoveKeyAbsent(ks: seq<string>, key: string)
    requires key !in ks
    ensures RemoveKey(ks, key) == ks
  {
    if ks != [] {
      RemoveKeyAbsent(ks[1..], key);
    }
  }

  lemma {:induction false} RemoveKeySubset(ks: seq<string>, key: string, k: string)
    requires k in RemoveKey(ks, key)
    ensures k in ks
  {
    if ks != [] && ks[0] != key && k != ks[0] {
      RemoveKeySubset(ks[1..], key, k);
    }
  }

  /** Python truthiness of a value: an empty string, dict or list is false. */
  predicate Truthy(v: Value) {
    match v
    case Compound(fs) => fs != []
    case List(items) => items != []
    case Scalar(t) => t != []
  }
}
