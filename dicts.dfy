// Python's insertion-ordered dict with string keys, as a sequence of entries.
module Dicts {
  import opened Wrappers

  type Dict<V> = seq<(string, V)>

  function Keys<V>(d: Dict<V>): (r: seq<string>)
    ensures |r| == |d| && forall i :: 0 <= i < |d| ==> r[i] == d[i].0
  {
    if d == [] then [] else [d[0].0] + Keys(d[1..])
  }

  predicate HasKey<V>(d: Dict<V>, k: string)
  {
    exists i :: 0 <= i < |d| && d[i].0 == k
  }

  /** No key appears twice, as in every Python dict. */
  predicate DistinctKeys<V>(d: Dict<V>)
  {
    forall i, j :: 0 <= i < j < |d| ==> d[i].0 != d[j].0
  }

  /** `d.get(k)`: the value stored under `k`, if any. */
  function Get<V>(d: Dict<V>, k: string): (r: Option<V>)
    ensures r.Some? <==> HasKey(d, k)
    ensures r.Some? ==> exists i :: 0 <= i < |d| && d[i] == (k, r.value)
  {
    if d == [] then None
    else if d[0].0 == k then Some(d[0].1)
    else Get(d[1..], k)
  }

  /** `d[k] = v`: overwrite in place when present, append otherwise. */
  function Put<V>(d: Dict<V>, k: string, v: V): (r: Dict<V>)
    ensures HasKey(d, k) ==> |r| == |d| && Keys(r) == Keys(d)
    ensures !HasKey(d, k) ==> r == d + [(k, v)]
  {
    if d == [] then [(k, v)]
    else if d[0].0 == k then [(k, v)] + d[1..]
    else [d[0]] + Put(d[1..], k, v)
  }

  lemma {:induction false} GetPut<V>(d: Dict<V>, k: string, v: V, k': string)
    ensures Get(Put(d, k, v), k') == if k' == k then Some(v) else Get(d, k')
  {
    if d != [] && d[0].0 != k {
      GetPut(d[1..], k, v, k');
      assert Put(d, k, v)[1..] == Put(d[1..], k, v);
    }
  }

  /** Appending an entry is seen only for a key not already present. */
  lemma {:induction false} GetAppend<V>(d: Dict<V>, e: (string, V), k: string)
    ensures Get(d + [e], k) == if HasKey(d, k) then Get(d, k) else if e.0 == k then Some(e.1) else None
  {
    if d != [] {
      assert (d + [e])[1..] == d[1..] + [e];
      GetAppend(d[1..], e, k);
      if d[0].0 != k && HasKey(d, k) {
        var i :| 0 <= i < |d| && d[i].0 == k;
        assert d[1..][i - 1].0 == k;
      }
    }
  }

  /** The value of a key is found at its first occurrence. */
  lemma {:induction false} GetAt<V>(d: Dict<V>, i: nat, k: string)
    requires i < |d| && d[i].0 == k
    requires forall j :: 0 <= j < i ==> d[j].0 != k
    ensures Get(d, k) == Some(d[i].1)
  {
    if i > 0 {
      GetAt(d[1..], i - 1, k);
    }
  }

  /** A key is looked up in the first part of a dict, then in the rest. */
  lemma {:induction false} GetConcat<V>(a: Dict<V>, b: Dict<V>, k: string)
    ensures Get(a + b, k) == if Get(a, k).Some? then Get(a, k) else Get(b, k)
  {
    if a == [] {
      assert a + b == b;
    } else {
      assert (a + b)[1..] == a[1..] + b;
      GetConcat(a[1..], b, k);
    }
  }

  /** Writing back the value a key held restores the dict. */
  lemma {:induction false} PutRestores<V>(d: Dict<V>, k: string, v: V, x: V)
    requires Get(d, k) == Some(v)
    ensures Put(Put(d, k, x), k, v) == d
  {
    if d[0].0 != k {
      PutRestores(d[1..], k, v, x);
    }
  }

  /** Writing the value a key already holds changes nothing. */
  lemma {:induction false} PutSame<V>(d: Dict<V>, k: string, v: V)
    requires Get(d, k) == Some(v)
    ensures Put(d, k, v) == d
  {
    if d[0].0 != k {
      PutSame(d[1..], k, v);
    }
  }

  /** The second of two writes to a key is the one that stays. */
  lemma {:induction false} PutPut<V>(d: Dict<V>, k: string, a: V, b: V)
    ensures Put(Put(d, k, a), k, b) == Put(d, k, b)
  {
    if d != [] && d[0].0 != k {
      PutPut(d[1..], k, a, b);
    }
  }

  lemma {:induction false} PutKeepsDistinct<V>(d: Dict<V>, k: string, v: V)
    requires DistinctKeys(d)
    ensures DistinctKeys(Put(d, k, v))
  {
    if HasKey(d, k) {
      assert Keys(Put(d, k, v)) == Keys(d);
      forall i, j | 0 <= i < j < |Put(d, k, v)| ensures Put(d, k, v)[i].0 != Put(d, k, v)[j].0 {
        assert Keys(Put(d, k, v))[i] == Keys(d)[i];
        assert Keys(Put(d, k, v))[j] == Keys(d)[j];
      }
    }
  }
}
