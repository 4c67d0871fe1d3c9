/**
 * A stable sort by a key that takes the values 0, 1 and 2, as an in-place
 * insertion sort on an array, specified by the list of the elements of key
 * 0, then those of key 1, then those of key 2, each in their original order.
 */
module StableSort {
  import opened Seqs

  /** `key` sorts into three buckets. */
  ghost predicate ThreeWay<T(!new)>(key: T -> nat) {
    forall t :: key(t) <= 2
  }

  /**
   * The elements of `s` whose key is `q`, in their order in `s` (a filter,
   * taken from the end so that appending an element is one step).
   */
  function Ranked<T>(s: seq<T>, key: T -> nat, q: nat): seq<T>
    decreases |s|
  {
    if |s| == 0 then []
    else
      var x := s[|s| - 1];
      Ranked(s[..|s| - 1], key, q) + (if key(x) == q then [x] else [])
  }

  /** The result of a stable sort of `s` by `key`. */
  function ByKey<T>(s: seq<T>, key: T -> nat): seq<T> {
    Ranked(s, key, 0) + Ranked(s, key, 1) + Ranked(s, key, 2)
  }

  lemma RankedSnoc<T>(s: seq<T>, x: T, key: T -> nat, q: nat)
    ensures Ranked(s + [x], key, q) == Ranked(s, key, q) + (if key(x) == q then [x] else [])
  {
    assert (s + [x])[..|s|] == s;
  }

  /** A bucket's elements all have its key. */
  lemma {:induction false} RankedHaveKey<T>(s: seq<T>, key: T -> nat, q: nat, i: int)
    requires 0 <= i < |Ranked(s, key, q)|
    ensures key(Ranked(s, key, q)[i]) == q
    decreases |s|
  {
    if i < |Ranked(s[..|s| - 1], key, q)| {
      RankedHaveKey(s[..|s| - 1], key, q, i);
    }
  }

  /** Taking a bucket distributes over concatenation. */
  lemma {:induction false} RankedAppend<T>(a: seq<T>, b: seq<T>, key: T -> nat, q: nat)
    ensures Ranked(a + b, key, q) == Ranked(a, key, q) + Ranked(b, key, q)
    decreases |b|
  {
    if |b| == 0 {
      assert a + b == a;
    } else {
      assert (a + b)[..|a + b| - 1] == a + b[..|b| - 1];
      RankedAppend(a, b[..|b| - 1], key, q);
    }
  }

  /** Bucket `q` of bucket `p` is all of bucket `p` when `p == q` and empty otherwise. */
  lemma {:induction false} RankedOfRanked<T>(s: seq<T>, key: T -> nat, p: nat, q: nat)
    ensures Ranked(Ranked(s, key, p), key, q) == if p == q then Ranked(s, key, p) else []
    decreases |s|
  {
    if |s| > 0 {
      var x := s[|s| - 1];
      RankedOfRanked(s[..|s| - 1], key, p, q);
      if key(x) == p {
        assert Ranked(s, key, p) == Ranked(s[..|s| - 1], key, p) + [x];
        RankedSnoc(Ranked(s[..|s| - 1], key, p), x, key, q);
      } else {
        assert Ranked(s, key, p) == Ranked(s[..|s| - 1], key, p);
      }
    }
  }

  /** The key of the element at each position of the sorted list. */
  lemma PositionKey<T>(s: seq<T>, key: T -> nat, m: int)
    requires 0 <= m < |ByKey(s, key)|
    ensures var a0, a1 := |Ranked(s, key, 0)|, |Ranked(s, key, 1)|;
            key(ByKey(s, key)[m]) == if m < a0 then 0 else if m < a0 + a1 then 1 else 2
  {
    var a0, a1 := |Ranked(s, key, 0)|, |Ranked(s, key, 1)|;
    if m < a0 {
      RankedHaveKey(s, key, 0, m);
    } else if m < a0 + a1 {
      RankedHaveKey(s, key, 1, m - a0);
    } else {
      RankedHaveKey(s, key, 2, m - a0 - a1);
    }
  }

  /** Where an element of key `r` goes in the sorted list: after every element of key at most `r`. */
  function Slot<T>(s: seq<T>, key: T -> nat, r: nat): nat {
    if r == 0 then |Ranked(s, key, 0)|
    else if r == 1 then |Ranked(s, key, 0)| + |Ranked(s, key, 1)|
    else |ByKey(s, key)|
  }

  /**
   * The only place in the sorted list with every element before it of key at
   * most `r` and every element after it of greater key is the slot of `r`.
   */
  lemma SlotUnique<T>(s: seq<T>, key: T -> nat, r: nat, j: nat)
    requires r <= 2 && j <= |ByKey(s, key)|
    requires j == 0 || key(ByKey(s, key)[j - 1]) <= r
    requires forall m :: j <= m < |ByKey(s, key)| ==> key(ByKey(s, key)[m]) > r
    ensures j == Slot(s, key, r)
  {
    var k := Slot(s, key, r);
    if j < k {
      PositionKey(s, key, j);
    } else if j > k {
      PositionKey(s, key, j - 1);
    }
  }

  /** Inserting `x` at its slot in `ByKey(s)` gives `ByKey(s + [x])`. */
  lemma InsertAtSlot<T>(s: seq<T>, x: T, key: T -> nat)
    requires key(x) <= 2
    ensures var p, k := ByKey(s, key), Slot(s, key, key(x));
            p[..k] + [x] + p[k..] == ByKey(s + [x], key)
  {
    RankedSnoc(s, x, key, 0);
    RankedSnoc(s, x, key, 1);
    RankedSnoc(s, x, key, 2);
    var r0, r1, r2 := Ranked(s, key, 0), Ranked(s, key, 1), Ranked(s, key, 2);
    if key(x) == 0 {
      InsertBetween(r0, [], r1 + r2, x);
    } else if key(x) == 1 {
      InsertBetween(r0, r1, r2, x);
    } else {
      InsertBetween(r0 + r1, r2, [], x);
    }
  }

  /** Seam arithmetic for `InsertAtSlot`: `x` goes after `a + b`, before `c`. */
  lemma InsertBetween<T>(a: seq<T>, b: seq<T>, c: seq<T>, x: T)
    ensures var p := a + b + c;
            p[..|a| + |b|] + [x] + p[|a| + |b|..] == a + (b + [x]) + c
  {
    SplitAtSeam(a + b, c);
  }

  /**
   * One pass of the insertion sort: with `a[..i]` the sorted `s`, `a[i]`
   * moves left past the elements of greater key just before it, which each
   * shift one place right, and `a[..i + 1]` is then the sorted `s + [a[i]]`.
   */
  method ShiftIntoPlace<T>(a: array<T>, i: nat, key: T -> nat, ghost s: seq<T>)
    requires i < a.Length && key(a[i]) <= 2
    requires a[..i] == ByKey(s, key)
    modifies a
    ensures a[..i + 1] == ByKey(s + [old(a[i])], key)
    ensures a[i + 1..] == old(a[i + 1..])
  {
    var x := a[i];
    var r := key(x);
    ghost var p := a[..];
    var j := i;
    while j > 0 && key(a[j - 1]) > r
      invariant 0 <= j <= i
      invariant forall m :: 0 <= m < j ==> a[m] == p[m]
      invariant forall m :: j < m <= i ==> a[m] == p[m - 1]
      invariant forall m :: i < m < a.Length ==> a[m] == p[m]
      invariant forall m :: j <= m < i ==> key(p[m]) > r
    {
      a[j] := a[j - 1];
      j := j - 1;
    }
    a[j] := x;
    Shifted(p, a[..], i, j);
    SlotUnique(s, key, r, j);
    InsertAtSlot(s, x, key);
  }

  /** A stable insertion sort of `a` by `key`. */
  method SortByKey<T(!new)>(a: array<T>, key: T -> nat)
    requires ThreeWay(key)
    modifies a
    ensures a[..] == ByKey(old(a[..]), key)
  {
    ghost var original := a[..];
    var i := 0;
    while i < a.Length
      invariant 0 <= i <= a.Length
      invariant a[..i] == ByKey(original[..i], key)
      invariant a[i..] == original[i..]
    {
      assert original[..i + 1] == original[..i] + [a[i]];
      ShiftIntoPlace(a, i, key, original[..i]);
      i := i + 1;
    }
    assert original[..a.Length] == original;
  }

  /** The sorted list holds the same elements as the input, each as often. */
  lemma {:induction false} ByKeyPermutation<T(!new)>(s: seq<T>, key: T -> nat)
    requires ThreeWay(key)
    ensures multiset(ByKey(s, key)) == multiset(s)
    decreases |s|
  {
    if |s| > 0 {
      var init, x := s[..|s| - 1], s[|s| - 1];
      ByKeyPermutation(init, key);
      assert s == init + [x];
      RankedSnoc(init, x, key, 0);
      RankedSnoc(init, x, key, 1);
      RankedSnoc(init, x, key, 2);
    }
  }

  /** Keys never decrease along the sorted list. */
  lemma ByKeySorted<T>(s: seq<T>, key: T -> nat, m: int, n: int)
    requires 0 <= m < n < |ByKey(s, key)|
    ensures key(ByKey(s, key)[m]) <= key(ByKey(s, key)[n])
  {
    PositionKey(s, key, m);
    PositionKey(s, key, n);
  }

  /** The sort is stable: the elements of each key keep their original order. */
  lemma ByKeyStable<T>(s: seq<T>, key: T -> nat, q: nat)
    requires q <= 2
    ensures Ranked(ByKey(s, key), key, q) == Ranked(s, key, q)
  {
    var r0, r1, r2 := Ranked(s, key, 0), Ranked(s, key, 1), Ranked(s, key, 2);
    RankedAppend(r0 + r1, r2, key, q);
    RankedAppend(r0, r1, key, q);
    RankedOfRanked(s, key, 0, q);
    RankedOfRanked(s, key, 1, q);
    RankedOfRanked(s, key, 2, q);
  }
}
