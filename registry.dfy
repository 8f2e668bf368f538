/**
  The two dictionaries an OxigraphStore keeps for `bind`: prefix to namespace and
  namespace to prefix, and the cascade of deletions that keeps them each other's
  inverse (oxrdflib/store.py, `bind`, `_delete_from_prefix`, `_delete_from_namespace`).
 */
module Registry {
  import opened Wrappers
  import D = PyDict

  /** `_namespace_for_prefix` and `_prefix_for_namespace`; namespaces are IRIs, held as their strings. */
  datatype Maps = Maps(namespaceForPrefix: D.Dict<string, string>, prefixForNamespace: D.Dict<string, string>)

  predicate Valid(r: Maps) {
    D.Valid(r.namespaceForPrefix) && D.Valid(r.prefixForNamespace)
  }

  /** `a[p] == n` exactly when `b[n] == p`. */
  predicate Inverse(a: map<string, string>, b: map<string, string>) {
    && (forall p :: p in a ==> a[p] in b && b[a[p]] == p)
    && (forall n :: n in b ==> b[n] in a && a[b[n]] == n)
  }

  /** `_namespace_for_prefix[p] == n` exactly when `_prefix_for_namespace[n] == p`. */
  predicate Bijection(r: Maps) {
    Inverse(r.namespaceForPrefix.m, r.prefixForNamespace.m)
  }

  /** `{}` and `{}` */
  function Empty(): (r: Maps)
    ensures Valid(r) && Bijection(r)
    ensures r.namespaceForPrefix.m == map[] && r.prefixForNamespace.m == map[]
  {
    Maps(D.Empty(), D.Empty())
  }

  /** Every entry of `s` is an entry of `r`. */
  predicate SubMap(s: map<string, string>, r: map<string, string>) {
    forall k :: k in s ==> k in r && s[k] == r[k]
  }

  /**
    `_delete_from_prefix(prefix)`: delete the prefix and cascade into the namespace
    it was bound to. Each step deletes an entry before it recurses, so the cascade ends.
   */
  function DeleteFromPrefix(r: Maps, prefix: string): (r': Maps)
    requires Valid(r)
    ensures Valid(r')
    ensures SubMap(r'.namespaceForPrefix.m, r.namespaceForPrefix.m)
    ensures SubMap(r'.prefixForNamespace.m, r.prefixForNamespace.m)
    ensures prefix !in r'.namespaceForPrefix.m
    ensures prefix in r.namespaceForPrefix.m ==> r.namespaceForPrefix.m[prefix] !in r'.prefixForNamespace.m
    ensures prefix !in r.namespaceForPrefix.m ==> r' == r
    decreases |r.namespaceForPrefix.keys| + |r.prefixForNamespace.keys|
  {
    if prefix !in r.namespaceForPrefix.m then r
    else
      var namespace := r.namespaceForPrefix.m[prefix];
      DeleteFromNamespace(Maps(D.Delete(r.namespaceForPrefix, prefix), r.prefixForNamespace), namespace)
  }

  /** `_delete_from_namespace(namespace)`: the same cascade, started from the other dictionary. */
  function DeleteFromNamespace(r: Maps, namespace: string): (r': Maps)
    requires Valid(r)
    ensures Valid(r')
    ensures SubMap(r'.namespaceForPrefix.m, r.namespaceForPrefix.m)
    ensures SubMap(r'.prefixForNamespace.m, r.prefixForNamespace.m)
    ensures namespace !in r'.prefixForNamespace.m
    ensures namespace in r.prefixForNamespace.m ==> r.prefixForNamespace.m[namespace] !in r'.namespaceForPrefix.m
    ensures namespace !in r.prefixForNamespace.m ==> r' == r
    decreases |r.namespaceForPrefix.keys| + |r.prefixForNamespace.keys|
  {
    if namespace !in r.prefixForNamespace.m then r
    else
      var prefix := r.prefixForNamespace.m[namespace];
      DeleteFromPrefix(Maps(r.namespaceForPrefix, D.Delete(r.prefixForNamespace, namespace)), prefix)
  }

  /**
    `bind(prefix, namespace, override)`: without override nothing happens when either
    side is already bound; otherwise both are unbound from their old partners and
    bound to each other.
   */
  function Bind(r: Maps, prefix: string, namespace: string, override: bool): (r': Maps)
    requires Valid(r)
    ensures Valid(r')
    ensures !override && (prefix in r.namespaceForPrefix.m || namespace in r.prefixForNamespace.m) ==> r' == r
    ensures override || (prefix !in r.namespaceForPrefix.m && namespace !in r.prefixForNamespace.m) ==>
              && prefix in r'.namespaceForPrefix.m && r'.namespaceForPrefix.m[prefix] == namespace
              && namespace in r'.prefixForNamespace.m && r'.prefixForNamespace.m[namespace] == prefix
  {
    if !override && (prefix in r.namespaceForPrefix.m || namespace in r.prefixForNamespace.m) then r
    else
      var r1 := DeleteFromPrefix(r, prefix);
      var r2 := DeleteFromNamespace(r1, namespace);
      Maps(D.Put(r2.namespaceForPrefix, prefix, namespace), D.Put(r2.prefixForNamespace, namespace, prefix))
  }

  /** `prefix(namespace)` */
  function Prefix(r: Maps, namespace: string): (p: Option<string>)
    ensures p.Some? <==> namespace in r.prefixForNamespace.m
    ensures p.Some? ==> r.prefixForNamespace.m[namespace] == p.value
  {
    D.Get(r.prefixForNamespace, namespace)
  }

  /** `namespace(prefix)` */
  function Namespace(r: Maps, prefix: string): (n: Option<string>)
    ensures n.Some? <==> prefix in r.namespaceForPrefix.m
    ensures n.Some? ==> r.namespaceForPrefix.m[prefix] == n.value
  {
    D.Get(r.namespaceForPrefix, prefix)
  }

  /** `namespaces()`: exactly the prefix-to-namespace entries, in the order of first binding. */
  function Namespaces(r: Maps): (entries: seq<(string, string)>)
    requires Valid(r)
    ensures forall p, n :: (p, n) in entries <==> Namespace(r, p) == Some(n)
    ensures |entries| == |r.namespaceForPrefix.keys|
    ensures forall i, j :: 0 <= i < j < |entries| ==> entries[i].0 != entries[j].0
  {
    D.Items(r.namespaceForPrefix)
  }

  /** On a bijection the cascade removes exactly the prefix and its namespace, and leaves a bijection. */
  lemma {:induction false} DeleteFromPrefixOnBijection(r: Maps, prefix: string)
    requires Valid(r) && Bijection(r)
    ensures var r' := DeleteFromPrefix(r, prefix);
            && Bijection(r')
            && r'.namespaceForPrefix == D.Delete(r.namespaceForPrefix, prefix)
            && r'.prefixForNamespace == (if prefix in r.namespaceForPrefix.m
                                         then D.Delete(r.prefixForNamespace, r.namespaceForPrefix.m[prefix])
                                         else r.prefixForNamespace)
  {
    if prefix in r.namespaceForPrefix.m {
      var namespace := r.namespaceForPrefix.m[prefix];
      var r1 := Maps(D.Delete(r.namespaceForPrefix, prefix), r.prefixForNamespace);
      var r2 := Maps(r1.namespaceForPrefix, D.Delete(r.prefixForNamespace, namespace));
      assert DeleteFromNamespace(r1, namespace) == DeleteFromPrefix(r2, prefix);
      assert DeleteFromPrefix(r2, prefix) == r2;
    }
  }

  /** The same for the cascade started from a namespace. */
  lemma {:induction false} DeleteFromNamespaceOnBijection(r: Maps, namespace: string)
    requires Valid(r) && Bijection(r)
    ensures var r' := DeleteFromNamespace(r, namespace);
            && Bijection(r')
            && r'.prefixForNamespace == D.Delete(r.prefixForNamespace, namespace)
            && r'.namespaceForPrefix == (if namespace in r.prefixForNamespace.m
                                         then D.Delete(r.namespaceForPrefix, r.prefixForNamespace.m[namespace])
                                         else r.namespaceForPrefix)
  {
    if namespace in r.prefixForNamespace.m {
      var prefix := r.prefixForNamespace.m[namespace];
      var r1 := Maps(r.namespaceForPrefix, D.Delete(r.prefixForNamespace, namespace));
      var r2 := Maps(D.Delete(r.namespaceForPrefix, prefix), r1.prefixForNamespace);
      assert DeleteFromPrefix(r1, prefix) == DeleteFromNamespace(r2, namespace);
      assert DeleteFromNamespace(r2, namespace) == r2;
    }
  }

  /** Binding two unbound keys to each other keeps a bijection. */
  lemma PutPairKeepsInverse(a: map<string, string>, b: map<string, string>, p: string, n: string)
    requires Inverse(a, b) && p !in a && n !in b
    ensures Inverse(a[p := n], b[n := p])
  {
  }

  /** `bind` keeps the two dictionaries each other's inverse. */
  lemma {:induction false} BindKeepsBijection(r: Maps, prefix: string, namespace: string, override: bool)
    requires Valid(r) && Bijection(r)
    ensures Bijection(Bind(r, prefix, namespace, override))
  {
    if override || (prefix !in r.namespaceForPrefix.m && namespace !in r.prefixForNamespace.m) {
      var r1 := DeleteFromPrefix(r, prefix);
      DeleteFromPrefixOnBijection(r, prefix);
      var r2 := DeleteFromNamespace(r1, namespace);
      DeleteFromNamespaceOnBijection(r1, namespace);
      PutPairKeepsInverse(r2.namespaceForPrefix.m, r2.prefixForNamespace.m, prefix, namespace);
    }
  }

  /** The effect of a `bind` on a bijection, stated on the two maps: old partners are dropped, nothing else moves. */
  lemma RebindMaps(a: map<string, string>, b: map<string, string>, p: string, n: string,
                   a2: map<string, string>, b2: map<string, string>)
    requires Inverse(a, b)
    requires var a1, b1 := a - {p}, if p in a then b - {a[p]} else b;
             a2 == (if n in b1 then a1 - {b1[n]} else a1) && b2 == b1 - {n}
    ensures p in a && a[p] != n ==> a[p] !in b2[n := p]
    ensures n in b && b[n] != p ==> b[n] !in a2[p := n]
    ensures forall q :: q in a && q != p && a[q] != n ==> q in a2[p := n] && a2[p := n][q] == a[q]
    ensures forall q :: q in a2[p := n] && q != p ==> q in a && a2[p := n][q] == a[q]
  {
  }

  /**
    After a `bind` that takes effect, the old namespace of the prefix and the old
    prefix of the namespace are bound to nothing, and every other entry is as before.
   */
  lemma {:induction false} BindUnbindsOldPartners(r: Maps, prefix: string, namespace: string, override: bool)
    requires Valid(r) && Bijection(r)
    requires override || (prefix !in r.namespaceForPrefix.m && namespace !in r.prefixForNamespace.m)
    ensures var r' := Bind(r, prefix, namespace, override);
            && (prefix in r.namespaceForPrefix.m && r.namespaceForPrefix.m[prefix] != namespace ==>
                  r.namespaceForPrefix.m[prefix] !in r'.prefixForNamespace.m)
            && (namespace in r.prefixForNamespace.m && r.prefixForNamespace.m[namespace] != prefix ==>
                  r.prefixForNamespace.m[namespace] !in r'.namespaceForPrefix.m)
            && (forall p :: p in r.namespaceForPrefix.m && p != prefix && r.namespaceForPrefix.m[p] != namespace ==>
                  p in r'.namespaceForPrefix.m && r'.namespaceForPrefix.m[p] == r.namespaceForPrefix.m[p])
            && (forall p :: p in r'.namespaceForPrefix.m && p != prefix ==>
                  p in r.namespaceForPrefix.m && r'.namespaceForPrefix.m[p] == r.namespaceForPrefix.m[p])
  {
    var r1 := DeleteFromPrefix(r, prefix);
    DeleteFromPrefixOnBijection(r, prefix);
    var r2 := DeleteFromNamespace(r1, namespace);
    DeleteFromNamespaceOnBijection(r1, namespace);
    RebindMaps(r.namespaceForPrefix.m, r.prefixForNamespace.m, prefix, namespace,
               r2.namespaceForPrefix.m, r2.prefixForNamespace.m);
  }

  /** On a bijection, looking a prefix up and looking its namespace up agree. */
  lemma LookupsAgree(r: Maps, prefix: string, namespace: string)
    requires Bijection(r)
    ensures Namespace(r, prefix) == Some(namespace) <==> Prefix(r, namespace) == Some(prefix)
  {
  }
}
