/** Python's `dict` as the model needs it: a sequence of key/value entries in
    insertion order, where assigning to an existing key replaces its value in
    place and assigning to a new key appends an entry. */
module OrderedDict {
  import opened Wrappers

  type Entries<K, V> = seq<(K, V)>

  function KeysOf<K, V>(es: Entries<K, V>): (ks: seq<K>)
    ensures |ks| == |es|
    ensures forall i :: 0 <= i < |es| ==> ks[i] == es[i].0
  {
    if es == [] then [] else [es[0].0] + KeysOf(es[1..])
  }

  function ValuesOf<K, V>(es: Entries<K, V>): (vs: seq<V>)
    ensures |vs| == |es|
    ensures forall i :: 0 <= i < |es| ==> vs[i] == es[i].1
  {
    if es == [] then [] else [es[0].1] + ValuesOf(es[1..])
  }

  /** No key occurs twice. */
  predicate DistinctKeys<K(==), V>(es: Entries<K, V>) {
    forall i, j :: 0 <= i < j < |es| ==> es[i].0 != es[j].0
  }

  /** `d.get(k)`. */
  function Get<K(==), V>(es: Entries<K, V>, k: K): (r: Option<V>)
    ensures r.None? <==> k !in KeysOf(es)
    ensures r.Some? ==> exists i :: 0 <= i < |es| && es[i] == (k, r.value)
  {
    if es == [] then None
    else if es[0].0 == k then Some(es[0].1)
    else Get(es[1..], k)
  }

  /** `d[k] = v`. */
  function Put<K(==), V>(es: Entries<K, V>, k: K, v: V): (r: Entries<K, V>)
    ensures |r| == if k in KeysOf(es) then |es| else |es| + 1
  {
    if es == [] then [(k, v)]
    else if es[0].0 == k then [(k, v)] + es[1..]
    else [es[0]] + Put(es[1..], k, v)
  }

  /** After `d[k] = v`, `d[k]` is `v`. */
  lemma {:induction false} PutGetSame<K, V>(es: Entries<K, V>, k: K, v: V)
    ensures Get(Put(es, k, v), k) == Some(v)
  {
    if es != [] && es[0].0 != k {
      PutGetSame(es[1..], k, v);
      assert Put(es, k, v) == [es[0]] + Put(es[1..], k, v);
      assert Put(es, k, v)[1..] == Put(es[1..], k, v);
    }
  }

  /** After `d[k] = v`, every other key keeps its value. */
  lemma {:induction false} PutGetOther<K, V>(es: Entries<K, V>, k: K, v: V, k': K)
    requires k' != k
    ensures Get(Put(es, k, v), k') == Get(es, k')
  {
    if es == [] {
    } else if es[0].0 == k {
      assert Put(es, k, v)[1..] == es[1..];
    } else {
      PutGetOther(es[1..], k, v, k');
      assert Put(es, k, v)[1..] == Put(es[1..], k, v);
    }
  }

  /** After `d[k] = v`, the key order is unchanged when `k` was present, and
      `k` comes last otherwise. */
  lemma {:induction false} PutKeys<K, V>(es: Entries<K, V>, k: K, v: V)
    ensures KeysOf(Put(es, k, v)) == if k in KeysOf(es) then KeysOf(es) else KeysOf(es) + [k]
  {
    if es == [] {
    } else if es[0].0 == k {
      assert KeysOf(Put(es, k, v)) == KeysOf(es);
    } else {
      PutKeys(es[1..], k, v);
      var r := Put(es, k, v);
      assert r[1..] == Put(es[1..], k, v);
      assert KeysOf(r) == [es[0].0] + KeysOf(r[1..]);
      assert KeysOf(es) == [es[0].0] + KeysOf(es[1..]);
      assert k in KeysOf(es) <==> k in KeysOf(es[1..]);
    }
  }

  /** Assigning to a new key appends its entry and leaves the others as they are. */
  lemma {:induction false} PutAbsent<K, V>(es: Entries<K, V>, k: K, v: V)
    requires k !in KeysOf(es)
    ensures Put(es, k, v) == es + [(k, v)]
  {
    if es != [] {
      assert KeysOf(es)[0] == es[0].0;
      assert k !in KeysOf(es[1..]) by {
        forall i | 0 <= i < |es[1..]| ensures KeysOf(es[1..])[i] != k {
          assert KeysOf(es[1..])[i] == es[i + 1].0 == KeysOf(es)[i + 1];
        }
      }
      PutAbsent(es[1..], k, v);
      assert es == [es[0]] + es[1..];
    }
  }

  /** `d[k] = v` keeps the keys distinct. */
  lemma {:induction false} PutDistinct<K, V>(es: Entries<K, V>, k: K, v: V)
    requires DistinctKeys(es)
    ensures DistinctKeys(Put(es, k, v))
  {
    if es == [] {
    } else if es[0].0 == k {
      var r := Put(es, k, v);
      assert forall j :: 1 <= j < |r| ==> r[j] == es[j];
    } else {
      var tail := es[1..];
      PutDistinct(tail, k, v);
      PutKeys(tail, k, v);
      var r := Put(es, k, v);
      assert r[1..] == Put(tail, k, v);
      assert forall m :: 0 <= m < |tail| ==> tail[m] == es[m + 1];
      forall j | 1 <= j < |r| ensures r[0].0 != r[j].0 {
        assert r[j].0 == KeysOf(r[1..])[j - 1];
      }
    }
  }
}
