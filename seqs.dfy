/**
 * `Array.prototype.filter` and the facts about it that the list-editing
 * operations of the model rely on.
 */
module Seqs {

  /** The elements of `s` that satisfy `keep`, in their original order. */
  function Filter<T>(s: seq<T>, keep: T -> bool): (r: seq<T>)
    ensures |r| <= |s|
    ensures forall i :: 0 <= i < |r| ==> r[i] in s && keep(r[i])
    ensures forall i :: 0 <= i < |s| && keep(s[i]) ==> s[i] in r
    decreases |s|
  {
    if |s| == 0 then []
    else if keep(s[0]) then [s[0]] + Filter(s[1..], keep)
    else Filter(s[1..], keep)
  }

  lemma {:induction false} FilterAppend<T>(a: seq<T>, b: seq<T>, keep: T -> bool)
    ensures Filter(a + b, keep) == Filter(a, keep) + Filter(b, keep)
    decreases |a|
  {
    if |a| == 0 {
      assert a + b == b;
    } else {
      assert (a + b)[1..] == a[1..] + b;
      FilterAppend(a[1..], b, keep);
    }
  }

  /** Filtering twice by the same test is filtering once. */
  lemma {:induction false} FilterIdempotent<T>(s: seq<T>, keep: T -> bool)
    ensures Filter(Filter(s, keep), keep) == Filter(s, keep)
    decreases |s|
  {
    if |s| > 0 {
      FilterIdempotent(s[1..], keep);
      if keep(s[0]) {
        assert ([s[0]] + Filter(s[1..], keep))[1..] == Filter(s[1..], keep);
      }
    }
  }

  /** A filter that rejects nothing of `s` returns `s` itself. */
  lemma {:induction false} FilterKeepsAll<T>(s: seq<T>, keep: T -> bool)
    requires forall i :: 0 <= i < |s| ==> keep(s[i])
    ensures Filter(s, keep) == s
    decreases |s|
  {
    if |s| > 0 {
      FilterKeepsAll(s[1..], keep);
      assert s == [s[0]] + s[1..];
    }
  }

  /** A filter that rejects everything of `s` returns the empty list. */
  lemma {:induction false} FilterDropsAll<T>(s: seq<T>, keep: T -> bool)
    requires forall i :: 0 <= i < |s| ==> !keep(s[i])
    ensures Filter(s, keep) == []
    decreases |s|
  {
    if |s| > 0 {
      FilterDropsAll(s[1..], keep);
    }
  }

  /** The opposite test. */
  function Not<T>(keep: T -> bool): T -> bool {
    x => !keep(x)
  }

  /** `s` splits into the part that `keep` keeps and the part it drops, as multisets. */
  lemma {:induction false} FilterSplitsMultiset<T>(s: seq<T>, keep: T -> bool)
    ensures multiset(Filter(s, keep)) + multiset(Filter(s, Not(keep))) == multiset(s)
    decreases |s|
  {
    if |s| > 0 {
      var x, rest := s[0], s[1..];
      FilterSplitsMultiset(rest, keep);
      var kept, dropped := Filter(rest, keep), Filter(rest, Not(keep));
      assert s == [x] + rest;
      assert multiset(s) == multiset{x} + multiset(rest);
      if keep(x) {
        assert Filter(s, keep) == [x] + kept;
        assert multiset([x] + kept) == multiset{x} + multiset(kept);
      } else {
        assert Filter(s, Not(keep)) == [x] + dropped;
        assert multiset([x] + dropped) == multiset{x} + multiset(dropped);
      }
    }
  }

  /** Splitting a concatenation at the seam gives back its parts. */
  lemma SplitAtSeam<T>(a: seq<T>, b: seq<T>)
    ensures (a + b)[..|a|] == a && (a + b)[|a|..] == b
  {
  }

  /**
   * `q` is `p` with the element at `i` moved left to `j` and the elements in
   * between shifted one place right.
   */
  lemma Shifted<T>(p: seq<T>, q: seq<T>, i: nat, j: nat)
    requires j <= i < |p| == |q|
    requires forall m :: 0 <= m < j ==> q[m] == p[m]
    requires q[j] == p[i]
    requires forall m :: j < m <= i ==> q[m] == p[m - 1]
    requires forall m :: i < m < |p| ==> q[m] == p[m]
    ensures q[..i + 1] == p[..j] + [p[i]] + p[j..i]
    ensures q[i + 1..] == p[i + 1..]
  {
  }
}
