/**
  Python's built-in dict, as the adapter uses it: a finite map that remembers the
  order in which its keys were first inserted. Assigning to a present key keeps its
  place, `del` removes a key and keeps the order of the others, and iteration
  (`items()`) follows that order.
 */
module PyDict {
  import opened Wrappers

  /** `keys` is the iteration order, `m` the mapping. */
  datatype Dict<K, V> = Dict(keys: seq<K>, m: map<K, V>)

  predicate Distinct<K(==)>(s: seq<K>) {
    forall i, j :: 0 <= i < j < |s| ==> s[i] != s[j]
  }

  /** Every key occurs once in the order, and the order lists exactly the mapped keys. */
  predicate Valid<K(==), V>(d: Dict<K, V>) {
    && Distinct(d.keys)
    && (forall k :: k in d.m ==> k in d.keys)
    && (forall i :: 0 <= i < |d.keys| ==> d.keys[i] in d.m)
  }

  /** `{}` */
  function Empty<K(==), V>(): (d: Dict<K, V>)
    ensures Valid(d) && d.m == map[]
  {
    Dict([], map[])
  }

  /** `d.get(k)` */
  function Get<K(==), V>(d: Dict<K, V>, k: K): (r: Option<V>)
    ensures r.Some? <==> k in d.m
    ensures r.Some? ==> d.m[k] == r.value
  {
    if k in d.m then Some(d.m[k]) else None
  }

  /** `d[k] = v`: a new key goes last, a present key keeps its place. */
  function Put<K(==,!new), V>(d: Dict<K, V>, k: K, v: V): (r: Dict<K, V>)
    ensures Valid(d) ==> Valid(r)
    ensures r.m == d.m[k := v]
    ensures |d.keys| <= |r.keys| && r.keys[..|d.keys|] == d.keys
    ensures Valid(d) ==> (k in d.m <==> |r.keys| == |d.keys|)
  {
    if k in d.m then Dict(d.keys, d.m[k := v]) else Dict(d.keys + [k], d.m[k := v])
  }

  /** The order `s` without the key `k`, the others in their order. */
  function RemoveKey<K(==,!new)>(s: seq<K>, k: K): (r: seq<K>)
    ensures forall x :: x in r <==> x in s && x != k
    ensures Distinct(s) ==> Distinct(r)
    ensures k in s && Distinct(s) ==> |r| == |s| - 1
    ensures k !in s ==> r == s
  {
    if s == [] then []
    else if s[0] == k then RemoveKey(s[1..], k)
    else
      var rest := RemoveKey(s[1..], k);
      assert Distinct(s) ==> s[0] !in s[1..];
      assert forall j :: 0 <= j < |rest| ==> rest[j] in rest;
      [s[0]] + rest
  }

  /** The position of the first occurrence of `k` in `s`. */
  function IndexOf<K(==)>(s: seq<K>, k: K): (n: nat)
    requires k in s
    ensures n < |s| && s[n] == k && k !in s[..n]
  {
    if s[0] == k then 0
    else
      var n := IndexOf(s[1..], k) + 1;
      assert s[..n] == [s[0]] + s[1..][..n - 1];
      n
  }

  /** In an order without repeats, removing a key cuts it out at its position and keeps the others in place. */
  lemma {:induction false} RemoveKeyCutsOut<K(!new)>(s: seq<K>, k: K)
    requires k in s && Distinct(s)
    ensures RemoveKey(s, k) == s[..IndexOf(s, k)] + s[IndexOf(s, k) + 1..]
    decreases |s|
  {
    var tail := s[1..];
    if s[0] == k {
      assert k !in tail by {
        forall j | 0 <= j < |tail| ensures tail[j] != k {
          assert tail[j] == s[j + 1];
        }
      }
      assert RemoveKey(s, k) == tail;
    } else {
      assert Distinct(tail) by {
        forall i, j | 0 <= i < j < |tail| ensures tail[i] != tail[j] {
          assert tail[i] == s[i + 1] && tail[j] == s[j + 1];
        }
      }
      RemoveKeyCutsOut(tail, k);
      var n' := IndexOf(tail, k);
      assert s[..n' + 1] == [s[0]] + tail[..n'];
      assert s[n' + 2..] == tail[n' + 1..];
    }
  }

  /** `del d[k]` when `k` is present; nothing happens when it is not. */
  function Delete<K(==,!new), V>(d: Dict<K, V>, k: K): (r: Dict<K, V>)
    ensures Valid(d) ==> Valid(r)
    ensures r.m == d.m - {k}
    ensures k !in d.m ==> r == d
    ensures Valid(d) && k in d.m ==> |r.keys| == |d.keys| - 1
    ensures Valid(d) && k in d.m ==> r.keys == d.keys[..IndexOf(d.keys, k)] + d.keys[IndexOf(d.keys, k) + 1..]
  {
    if k in d.m then
      var keys := RemoveKey(d.keys, k);
      assert Valid(d) ==> keys == d.keys[..IndexOf(d.keys, k)] + d.keys[IndexOf(d.keys, k) + 1..] by {
        if Valid(d) { RemoveKeyCutsOut(d.keys, k); }
      }
      assert forall i :: 0 <= i < |keys| ==> keys[i] in keys;
      Dict(keys, d.m - {k})
    else d
  }

  /** `list(d.items())`: the entries in insertion order. */
  function Items<K(==,!new), V(==,!new)>(d: Dict<K, V>): (r: seq<(K, V)>)
    requires Valid(d)
    ensures |r| == |d.keys|
    ensures forall i :: 0 <= i < |r| ==> r[i].0 == d.keys[i]
    ensures forall k, v :: (k, v) in r <==> k in d.m && d.m[k] == v
  {
    var r := seq(|d.keys|, i requires 0 <= i < |d.keys| => (d.keys[i], d.m[d.keys[i]]));
    assert forall k, v :: (k, v) in r ==> k in d.m && d.m[k] == v by {
      forall k, v | (k, v) in r ensures k in d.m && d.m[k] == v {
        var i :| 0 <= i < |r| && r[i] == (k, v);
      }
    }
    assert forall k, v :: k in d.m && d.m[k] == v ==> (k, v) in r by {
      forall k, v | k in d.m && d.m[k] == v ensures (k, v) in r {
        var i :| 0 <= i < |d.keys| && d.keys[i] == k;
        assert r[i] == (k, v);
      }
    }
    r
  }

  /** The keys of `keys` not in `seen`, each at its first occurrence, in the order of `keys`. */
  function NewKeys<K(==)>(keys: seq<K>, seen: set<K>): seq<K>
    decreases |keys|
  {
    if keys == [] then []
    else if keys[0] in seen then NewKeys(keys[1..], seen)
    else [keys[0]] + NewKeys(keys[1..], seen + {keys[0]})
  }

  /**
    `dict(a, **b)` where `b`'s keys are `keys` and its mapping is `m`: every entry of
    `b` is assigned into `a` in `b`'s order, so on a shared key `b` wins and `a`'s
    keys keep their places ahead of `b`'s new ones.
   */
  function UpdateWith<K(==,!new), V>(a: Dict<K, V>, keys: seq<K>, m: map<K, V>): (r: Dict<K, V>)
    requires forall k :: k in keys ==> k in m
    ensures Valid(a) ==> Valid(r)
    ensures forall k :: k in r.m <==> k in a.m || k in keys
    ensures forall k :: k in keys ==> r.m[k] == m[k]
    ensures forall k :: k in a.m && k !in keys ==> r.m[k] == a.m[k]
    ensures |a.keys| <= |r.keys| && r.keys[..|a.keys|] == a.keys
    ensures r.keys == AppendNew(a.keys, a.m.Keys, keys)
    decreases |keys|
  {
    if keys == [] then a
    else
      var a' := Put(a, keys[0], m[keys[0]]);
      var r := UpdateWith(a', keys[1..], m);
      assert forall k :: k in keys <==> k == keys[0] || k in keys[1..];
      assert r.keys[..|a.keys|] == r.keys[..|a'.keys|][..|a.keys|];
      assert a'.m.Keys == a.m.Keys + {keys[0]};
      assert keys[0] in a.m ==> a'.keys == a.keys && a'.m.Keys == a.m.Keys;
      assert keys[0] !in a.m ==> a'.keys == a.keys + [keys[0]];
      assert AppendNew(a.keys, a.m.Keys, keys) == AppendNew(a'.keys, a'.m.Keys, keys[1..]);
      r
  }

  /** The order `order` after assigning the keys of `keys` one by one: a key not yet in `seen` goes last. */
  function AppendNew<K(==)>(order: seq<K>, seen: set<K>, keys: seq<K>): seq<K>
    decreases |keys|
  {
    if keys == [] then order
    else if keys[0] in seen then AppendNew(order, seen, keys[1..])
    else AppendNew(order + [keys[0]], seen + {keys[0]}, keys[1..])
  }

  lemma {:induction false} AppendNewIsNewKeys<K>(order: seq<K>, seen: set<K>, keys: seq<K>)
    ensures AppendNew(order, seen, keys) == order + NewKeys(keys, seen)
    decreases |keys|
  {
    if keys != [] {
      AppendNewIsNewKeys(order, seen, keys[1..]);
      AppendNewIsNewKeys(order + [keys[0]], seen + {keys[0]}, keys[1..]);
      assert order + [keys[0]] + NewKeys(keys[1..], seen + {keys[0]}) == order + ([keys[0]] + NewKeys(keys[1..], seen + {keys[0]}));
    }
  }

  /** `dict(a, **b)` */
  function Merge<K(==,!new), V>(a: Dict<K, V>, b: Dict<K, V>): (r: Dict<K, V>)
    requires Valid(b)
    ensures Valid(a) ==> Valid(r)
    ensures r.m == a.m + b.m
    ensures |a.keys| <= |r.keys| && r.keys[..|a.keys|] == a.keys
    ensures r.keys == a.keys + NewKeys(b.keys, a.m.Keys)
  {
    var r := UpdateWith(a, b.keys, b.m);
    AppendNewIsNewKeys(a.keys, a.m.Keys, b.keys);
    assert r.m == a.m + b.m;
    r
  }
}
