/**
 * Plain JavaScript objects used as dictionaries: their own keys in insertion order
 * (the order `Object.keys` enumerates them) and the value stored under each key.
 */
module JsObject {
  import opened Wrappers

  /** No key occurs twice: the last key is not among the earlier ones, which are distinct in turn. */
  predicate Distinct(ks: seq<string>)
    decreases |ks|
  {
    ks == [] || (ks[|ks| - 1] !in ks[..|ks| - 1] && Distinct(ks[..|ks| - 1]))
  }

  /** Two key lists with no key in common and none repeated concatenate to one with none repeated. */
  lemma {:induction false} DistinctAppend(a: seq<string>, b: seq<string>)
    requires Distinct(a) && Distinct(b)
    requires forall k :: k in b ==> k !in a
    ensures Distinct(a + b)
    decreases |b|
  {
    if b != [] {
      var init := b[..|b| - 1];
      DistinctAppend(a, init);
      assert (a + b)[..|a + b| - 1] == a + init;
      assert b[|b| - 1] in b;
    } else {
      assert a + b == a;
    }
  }

  /** In a list with no repeated key, different positions hold different keys. */
  lemma {:induction false} DistinctIndices(ks: seq<string>, i: int, j: int)
    requires Distinct(ks) && 0 <= i < j < |ks|
    ensures ks[i] != ks[j]
    decreases |ks|
  {
    var init := ks[..|ks| - 1];
    if j < |ks| - 1 {
      DistinctIndices(init, i, j);
    } else {
      assert ks[i] == init[i];
    }
  }

  datatype Obj<V> = Obj(keys: seq<string>, props: map<string, V>)

  /** The key list enumerates exactly the stored properties, each once. */
  ghost predicate WellFormed<V>(o: Obj<V>) {
    && Distinct(o.keys)
    && (forall k :: k in o.props <==> k in o.keys)
  }

  type Dict<V> = o: Obj<V> | WellFormed(o) witness Obj([], map[])

  function Empty<V>(): (r: Dict<V>)
    ensures r.keys == [] && r.props == map[]
  {
    Obj([], map[])
  }

  /** `o[k]`: the stored value, or `None` (JavaScript's `undefined`) when `k` is not a key. */
  function Get<V>(o: Dict<V>, k: string): (r: Option<V>)
    ensures r.Some? <==> k in o.keys
    ensures r.Some? ==> r.value == o.props[k]
  {
    if k in o.props then Some(o.props[k]) else None
  }

  /** `o[k] = v`: a new key goes to the end of the key order, an existing key keeps its place. */
  function Put<V>(o: Dict<V>, k: string, v: V): (r: Dict<V>)
    ensures k in o.keys ==> r.keys == o.keys
    ensures k !in o.keys ==> r.keys == o.keys + [k]
    ensures r.props == o.props[k := v]
  {
    if k in o.props then Obj(o.keys, o.props[k := v])
    else
      var r := Obj(o.keys + [k], o.props[k := v]);
      assert r.keys[..|r.keys| - 1] == o.keys;
      r
  }

  /** The keys of `ks` that are not properties of `taken`, in the order of `ks`. */
  function KeysNotIn<V>(ks: seq<string>, taken: map<string, V>): (r: seq<string>)
    ensures forall k :: k in r <==> k in ks && k !in taken
    ensures Distinct(ks) ==> Distinct(r)
    ensures |r| <= |ks|
    decreases |ks|
  {
    if ks == [] then []
    else
      var init := ks[..|ks| - 1];
      var last := ks[|ks| - 1];
      var rest := KeysNotIn(init, taken);
      assert forall k :: k in ks <==> k == last || k in init by {
        assert ks == init + [last];
      }
      if last in taken then rest
      else
        assert (rest + [last])[..|rest|] == rest;
        rest + [last]
  }

  /**
   * The object spread `{...a, ...b}`: the keys of `a` in their order, then the keys of `b`
   * that `a` lacks, in their order; where both have a key, `b`'s value wins but the key keeps
   * the position it had in `a`.
   */
  function Spread<V>(a: Dict<V>, b: Dict<V>): (r: Dict<V>)
    ensures r.keys == a.keys + KeysNotIn(b.keys, a.props)
    ensures forall k :: k in r.props <==> k in a.props || k in b.props
    ensures forall k :: k in b.props ==> r.props[k] == b.props[k]
    ensures forall k :: k in a.props && k !in b.props ==> r.props[k] == a.props[k]
  {
    var extra := KeysNotIn(b.keys, a.props);
    DistinctAppend(a.keys, extra);
    Obj(a.keys + extra, a.props + b.props)
  }

  /** `mapValue(o, f)`: the same keys in the same order, each value replaced by `f(key, value)`. */
  function MapValue<V, W>(o: Dict<V>, f: (string, V) -> W): (r: Dict<W>)
    ensures r.keys == o.keys
    ensures forall k :: k in o.props ==> k in r.props && r.props[k] == f(k, o.props[k])
  {
    Obj(o.keys, map k | k in o.props :: f(k, o.props[k]))
  }

  /** The `[key, value]` pairs in key order (`Object.entries`). */
  function Entries<V>(o: Dict<V>): (r: seq<(string, V)>)
    ensures |r| == |o.keys|
    ensures forall i :: 0 <= i < |r| ==> r[i].0 == o.keys[i] && r[i].1 == o.props[o.keys[i]]
  {
    seq(|o.keys|, i requires 0 <= i < |o.keys| => (o.keys[i], o.props[o.keys[i]]))
  }
}
