/**
 * A Python `dict` with string keys: key/value pairs in insertion order, each
 * key at most once. `d.get(k)`, `d[k] = v` and `list(d.keys())` behave as in
 * Python: assigning to a present key keeps its position, a new key goes last.
 */
module Dict {
  import opened Wrappers

  type Dict<V> = seq<(string, V)>

  /** `list(d.keys())`. */
  function Keys<V>(d: Dict<V>): (ks: seq<string>)
    ensures |ks| == |d|
    ensures forall i :: 0 <= i < |d| ==> ks[i] == d[i].0
  {
    seq(|d|, i requires 0 <= i < |d| => d[i].0)
  }

  predicate DistinctKeys<V>(d: Dict<V>)
  {
    forall i, j :: 0 <= i < j < |d| ==> d[i].0 != d[j].0
  }

  /** `d.get(k)`: the value stored under `k`, None when `k` is not a key. */
  function Get<V>(d: Dict<V>, k: string): (r: Option<V>)
    ensures r.None? <==> k !in Keys(d)
    ensures r.Some? ==> exists i :: 0 <= i < |d| && d[i] == (k, r.value)
  {
    if d == [] then None
    else if d[0].0 == k then Some(d[0].1)
    else
      var r := Get(d[1..], k);
      assert Keys(d) == [d[0].0] + Keys(d[1..]);
      assert r.Some? ==> exists i :: 0 <= i < |d[1..]| && d[1..][i] == (k, r.value);
      r
  }

  /** In a dict without repeated keys, the value under the key at position `i` is the value at position `i`. */
  lemma {:induction false} GetAt<V>(d: Dict<V>, i: nat)
    requires DistinctKeys(d) && i < |d|
    ensures Get(d, d[i].0) == Some(d[i].1)
  {
    if i > 0 {
      assert d[0].0 != d[i].0;
      assert d[1..][i - 1] == d[i];
      GetAt(d[1..], i - 1);
    }
  }

  /** `d[k] = v`. */
  function Set<V>(d: Dict<V>, k: string, v: V): Dict<V>
  {
    if d == [] then [(k, v)]
    else if d[0].0 == k then [(k, v)] + d[1..]
    else [d[0]] + Set(d[1..], k, v)
  }

  /** Assigning a key that is present keeps the keys and their order. */
  lemma {:induction false} SetKeepsKeys<V>(d: Dict<V>, k: string, v: V)
    requires k in Keys(d)
    ensures Keys(Set(d, k, v)) == Keys(d)
  {
    if d[0].0 != k {
      var j :| 0 <= j < |d| && Keys(d)[j] == k;
      assert Keys(d[1..])[j - 1] == k;
      SetKeepsKeys(d[1..], k, v);
      var r := Set(d, k, v);
      assert r == [d[0]] + Set(d[1..], k, v);
      forall i | 0 <= i < |d| ensures Keys(r)[i] == Keys(d)[i] {
        if i > 0 {
          assert Keys(Set(d[1..], k, v))[i - 1] == Keys(d[1..])[i - 1];
        }
      }
    }
  }

  /** Assigning a new key appends it after the existing ones. */
  lemma {:induction false} SetAppendsNewKey<V>(d: Dict<V>, k: string, v: V)
    requires k !in Keys(d)
    ensures Set(d, k, v) == d + [(k, v)]
  {
    if d != [] {
      assert Keys(d)[0] == d[0].0;
      forall i | 0 <= i < |d| - 1 ensures Keys(d[1..])[i] != k {
        assert Keys(d[1..])[i] == Keys(d)[i + 1];
      }
      SetAppendsNewKey(d[1..], k, v);
      assert [d[0]] + (d[1..] + [(k, v)]) == d + [(k, v)];
    }
  }

  /** Assigning a key leaves the entry of every other key where it was. */
  lemma {:induction false} SetKeepsOthers<V>(d: Dict<V>, k: string, v: V, i: nat)
    requires i < |d| && d[i].0 != k
    ensures i < |Set(d, k, v)| && Set(d, k, v)[i] == d[i]
  {
    if i > 0 && d[0].0 != k {
      SetKeepsOthers(d[1..], k, v, i - 1);
    }
  }

  /** Assigning a key keeps the keys distinct. */
  lemma {:induction false} SetKeepsDistinct<V>(d: Dict<V>, k: string, v: V)
    requires DistinctKeys(d)
    ensures DistinctKeys(Set(d, k, v))
  {
    var r := Set(d, k, v);
    if k in Keys(d) {
      SetKeepsKeys(d, k, v);
      forall i, j | 0 <= i < j < |r| ensures r[i].0 != r[j].0 {
        assert r[i].0 == Keys(r)[i] == Keys(d)[i];
        assert r[j].0 == Keys(r)[j] == Keys(d)[j];
      }
    } else {
      SetAppendsNewKey(d, k, v);
    }
  }

  /** After `d[k] = v`, `d.get(k)` is `v` and every other key keeps its value. */
  lemma {:induction false} GetAfterSet<V>(d: Dict<V>, k: string, v: V, k': string)
    ensures Get(Set(d, k, v), k') == if k' == k then Some(v) else Get(d, k')
  {
    if d != [] && d[0].0 != k {
      GetAfterSet(d[1..], k, v, k');
      assert Set(d, k, v) == [d[0]] + Set(d[1..], k, v);
    }
  }
}
