/**
 * Insertion-ordered dictionaries, as Python's `dict` and a parsed JSON object
 * behave: lookup finds a key's entry, assigning to a present key replaces its
 * value where it stands, and assigning to a new key appends an entry at the end.
 */
module OrderedDict {
  import opened Wrappers

  type Dict<K, V> = seq<(K, V)>

  function Keys<K, V>(d: Dict<K, V>): (ks: seq<K>)
    ensures |ks| == |d|
    ensures forall i :: 0 <= i < |d| ==> ks[i] == d[i].0
  {
    if d == [] then [] else [d[0].0] + Keys(d[1..])
  }

  function Values<K, V>(d: Dict<K, V>): (vs: seq<V>)
    ensures |vs| == |d|
    ensures forall i :: 0 <= i < |d| ==> vs[i] == d[i].1
  {
    if d == [] then [] else [d[0].1] + Values(d[1..])
  }

  /** `d.get(k)`: the value of the first entry with key `k`. */
  function Get<K(==), V>(d: Dict<K, V>, k: K): (r: Option<V>)
    ensures r.None? <==> k !in Keys(d)
  {
    if d == [] then None
    else if d[0].0 == k then Some(d[0].1)
    else Get(d[1..], k)
  }

  /** `d[k] = v`. */
  function Put<K(==), V>(d: Dict<K, V>, k: K, v: V): (r: Dict<K, V>)
    ensures k in Keys(d) ==> |r| == |d|
    ensures k !in Keys(d) ==> r == d + [(k, v)]
  {
    if d == [] then [(k, v)]
    else if d[0].0 == k then [(k, v)] + d[1..]
    else [d[0]] + Put(d[1..], k, v)
  }

  /** Keys are pairwise distinct, as in every dictionary Python or a JSON parser builds. */
  ghost predicate UniqueKeys<K, V>(d: Dict<K, V>)
  {
    forall i, j :: 0 <= i < j < |d| ==> d[i].0 != d[j].0
  }

  lemma {:induction false} GetPutSame<K, V>(d: Dict<K, V>, k: K, v: V)
    ensures Get(Put(d, k, v), k) == Some(v)
  {
    if d != [] && d[0].0 != k {
      GetPutSame(d[1..], k, v);
    }
  }

  lemma {:induction false} GetPutOther<K, V>(d: Dict<K, V>, k: K, v: V, k': K)
    requires k' != k
    ensures Get(Put(d, k, v), k') == Get(d, k')
  {
    if d != [] && d[0].0 != k && d[0].0 != k' {
      GetPutOther(d[1..], k, v, k');
    }
  }

  /** Assignment keeps every key where it stood and adds `k` at the end if it is new. */
  lemma {:induction false} KeysPut<K, V>(d: Dict<K, V>, k: K, v: V)
    ensures Keys(Put(d, k, v)) == if k in Keys(d) then Keys(d) else Keys(d) + [k]
  {
    if d != [] && d[0].0 != k {
      KeysPut(d[1..], k, v);
      assert Keys(d) == [d[0].0] + Keys(d[1..]);
    }
  }

  lemma {:induction false} PutUnique<K, V>(d: Dict<K, V>, k: K, v: V)
    requires UniqueKeys(d)
    ensures UniqueKeys(Put(d, k, v))
  {
    KeysPut(d, k, v);
    var r := Put(d, k, v);
    forall i, j | 0 <= i < j < |r| ensures r[i].0 != r[j].0 {
      assert Keys(r)[i] == r[i].0 && Keys(r)[j] == r[j].0;
      if k !in Keys(d) && j == |d| {
        assert Keys(d)[i] == d[i].0;
      } else {
        assert Keys(d)[i] == d[i].0 && Keys(d)[j] == d[j].0;
      }
    }
  }

  /** Lookup in two runs of entries: the first run wins. */
  lemma {:induction false} GetConcat<K, V>(a: Dict<K, V>, b: Dict<K, V>, k: K)
    ensures Get(a + b, k) == if Get(a, k).Some? then Get(a, k) else Get(b, k)
  {
    if a != [] {
      var ab := a + b;
      assert ab[0] == a[0] && ab[1..] == a[1..] + b;
      GetConcat(a[1..], b, k);
      assert Get(ab, k) == if a[0].0 == k then Some(a[0].1) else Get(a[1..] + b, k);
    } else {
      assert a + b == b;
    }
  }

  /** Lookup in a literal object of up to five entries: the first entry with the key. */
  lemma GetLiteral<K, V>(d: Dict<K, V>, k: K)
    requires |d| <= 5
    ensures Get(d, k) == if |d| > 0 && d[0].0 == k then Some(d[0].1)
      else if |d| > 1 && d[1].0 == k then Some(d[1].1)
      else if |d| > 2 && d[2].0 == k then Some(d[2].1)
      else if |d| > 3 && d[3].0 == k then Some(d[3].1)
      else if |d| > 4 && d[4].0 == k then Some(d[4].1)
      else None
  {
    if |d| > 0 {
      var e := d[1..];
      if |e| > 0 {
        var f := e[1..];
        if |f| > 0 {
          var g := f[1..];
          if |g| > 0 {
            assert g[1..] == [] || g[1..] == [g[1]];
          }
        }
      }
    }
  }
}
