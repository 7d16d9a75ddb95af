// Facts about sequences that the solver does not find unaided in large contexts.
module Seqs {
  /** Concatenation is associative. */
  lemma Associative<T>(a: seq<T>, b: seq<T>, c: seq<T>)
    ensures (a + b) + c == a + (b + c)
  {
  }

  /** What `c` adds to `a` is what `b` adds to `a` followed by what `c` adds to `b`. */
  lemma SuffixSplit<T>(a: seq<T>, b: seq<T>, c: seq<T>)
    requires a <= b <= c
    ensures c[|a|..] == b[|a|..] + c[|b|..]
  {
    assert c[..|b|] == b;
  }

  /** Updating one position keeps what lies before and after it. */
  lemma UpdateKeepsSlices<T>(t: seq<T>, i: nat, x: T)
    requires i < |t|
    ensures t[i := x][..i] == t[..i] && t[i := x][i + 1..] == t[i + 1..]
  {
  }

  /** Setting `x` just after the processed prefix gives the prefix, `x`, and the rest. */
  lemma SetAt<T>(before: seq<T>, p: seq<T>, rest: seq<T>, x: T)
    requires before == p + rest && |rest| > 0
    ensures before[|p| := x] == (p + [x]) + rest[1..]
  {
  }
}
