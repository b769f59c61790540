/**
 * Sequences built item by item, as the builder's loops build them. Keeping
 * these generic lets each loop reason about "the element of item i" without
 * unfolding what that element is.
 */
module Seqs {

  /** `[f(x) for x in s]`. */
  function Map<T, U>(f: T -> U, s: seq<T>): (r: seq<U>)
    ensures |r| == |s|
    decreases |s|
  {
    if s == [] then [] else Map(f, s[..|s| - 1]) + [f(s[|s| - 1])]
  }

  lemma {:induction false} MapAt<T, U>(f: T -> U, s: seq<T>, i: nat)
    requires i < |s|
    ensures Map(f, s)[i] == f(s[i])
    decreases |s|
  {
    if i < |s| - 1 {
      MapAt(f, s[..|s| - 1], i);
    }
  }

  lemma MapSnoc<T, U>(f: T -> U, s: seq<T>, i: nat)
    requires i < |s|
    ensures Map(f, s[..i + 1]) == Map(f, s[..i]) + [f(s[i])]
  {
    assert s[..i + 1][..i] == s[..i];
  }

  /** A prefix one longer is the prefix and the next element. */
  lemma TakeSnoc<T>(s: seq<T>, i: nat)
    requires i < |s|
    ensures s[..i + 1] == s[..i] + [s[i]]
  {
  }

  lemma TakeAll<T>(s: seq<T>)
    ensures s[..|s|] == s
  {
  }

  lemma AppendAssoc<T>(a: seq<T>, b: seq<T>, c: seq<T>)
    ensures (a + b) + c == a + (b + c)
  {
  }

  /** Appending keeps a prefix. */
  lemma PrefixExtend<T>(s: seq<T>, t: seq<T>, n: nat)
    requires n <= |s|
    ensures (s + t)[..n] == s[..n]
  {
  }

  lemma EmptyAppend<T>(s: seq<T>)
    ensures [] + s == s
  {
  }

  /** The concatenation of a sequence of sequences, in order. */
  function Flatten<T>(ss: seq<seq<T>>): (r: seq<T>)
    decreases |ss|
  {
    if ss == [] then [] else Flatten(ss[..|ss| - 1]) + ss[|ss| - 1]
  }

  /** Flattening one-element sequences gives their elements. */
  lemma {:induction false} FlattenSingletons<T>(ss: seq<seq<T>>, s: seq<T>)
    requires |ss| == |s|
    requires forall i :: 0 <= i < |ss| ==> ss[i] == [s[i]]
    ensures Flatten(ss) == s
    decreases |ss|
  {
    if ss != [] {
      var n := |ss| - 1;
      FlattenSingletons(ss[..n], s[..n]);
      assert s == s[..n] + [s[n]];
    }
  }

  // ---------------------------------------------------------------------------
  // Order by rank

  /** The ranks of the elements never decrease from left to right. */
  predicate SortedBy<T>(s: seq<T>, rank: T -> int) {
    forall i, j :: 0 <= i < j < |s| ==> rank(s[i]) <= rank(s[j])
  }

  /** Every rank lies in `[lo, hi]`. */
  predicate RanksWithin<T>(s: seq<T>, rank: T -> int, lo: int, hi: int) {
    forall i :: 0 <= i < |s| ==> lo <= rank(s[i]) <= hi
  }

  /** Every rank is one of `ks`. */
  predicate RanksIn<T>(s: seq<T>, rank: T -> int, ks: set<int>) {
    forall i :: 0 <= i < |s| ==> rank(s[i]) in ks
  }

  lemma RanksWithinIn<T>(s: seq<T>, rank: T -> int, k: int, ks: set<int>)
    requires RanksWithin(s, rank, k, k) && k in ks
    ensures RanksIn(s, rank, ks)
  {
  }

  lemma RanksInConcat<T>(a: seq<T>, b: seq<T>, rank: T -> int, ks: set<int>)
    requires RanksIn(a, rank, ks) && RanksIn(b, rank, ks)
    ensures RanksIn(a + b, rank, ks)
  {
    var c := a + b;
    forall i | 0 <= i < |c| ensures rank(c[i]) in ks {
      if i < |a| { assert c[i] == a[i]; } else { assert c[i] == b[i - |a|]; }
    }
  }

  /** A sequence whose ranks are all equal is sorted. */
  lemma ConstSorted<T>(s: seq<T>, rank: T -> int, k: int)
    requires RanksWithin(s, rank, k, k)
    ensures SortedBy(s, rank)
  {
  }

  /** Two sorted sequences, the first ranked no higher than the second, make a
      sorted sequence. */
  lemma SortedConcat<T>(a: seq<T>, b: seq<T>, rank: T -> int, lo: int, mid1: int, mid2: int, hi: int)
    requires SortedBy(a, rank) && RanksWithin(a, rank, lo, mid1)
    requires SortedBy(b, rank) && RanksWithin(b, rank, mid2, hi)
    requires lo <= mid2 && mid1 <= mid2 && mid1 <= hi
    ensures SortedBy(a + b, rank) && RanksWithin(a + b, rank, lo, hi)
  {
    var c := a + b;
    forall i, j | 0 <= i < j < |c| ensures rank(c[i]) <= rank(c[j]) {
      if j < |a| {
        assert c[i] == a[i] && c[j] == a[j];
      } else if i >= |a| {
        assert c[i] == b[i - |a|] && c[j] == b[j - |a|];
      } else {
        assert c[i] == a[i] && c[j] == b[j - |a|];
      }
    }
    forall i | 0 <= i < |c| ensures lo <= rank(c[i]) <= hi {
      if i < |a| { assert c[i] == a[i]; } else { assert c[i] == b[i - |a|]; }
    }
  }

  /** The elements of rank `k`, in order. */
  function Filter<T>(s: seq<T>, rank: T -> int, k: int): (r: seq<T>)
    ensures |r| <= |s|
    decreases |s|
  {
    if s == [] then []
    else Filter(s[..|s| - 1], rank, k) + (if rank(s[|s| - 1]) == k then [s[|s| - 1]] else [])
  }

  lemma {:induction false} FilterAppend<T>(a: seq<T>, b: seq<T>, rank: T -> int, k: int)
    ensures Filter(a + b, rank, k) == Filter(a, rank, k) + Filter(b, rank, k)
    decreases |b|
  {
    if b == [] {
      assert a + b == a;
    } else {
      var n := |b| - 1;
      var c := a + b;
      assert c[..|c| - 1] == a + b[..n];
      assert c[|c| - 1] == b[n];
      FilterAppend(a, b[..n], rank, k);
      var x := if rank(b[n]) == k then [b[n]] else [];
      AppendAssoc(Filter(a, rank, k), Filter(b[..n], rank, k), x);
    }
  }

  /** No element has rank `k`: nothing is kept. */
  lemma {:induction false} FilterNone<T>(s: seq<T>, rank: T -> int, k: int)
    requires forall i :: 0 <= i < |s| ==> rank(s[i]) != k
    ensures Filter(s, rank, k) == []
    decreases |s|
  {
    if s != [] {
      FilterNone(s[..|s| - 1], rank, k);
    }
  }

  /** Every element has rank `k`: everything is kept. */
  lemma {:induction false} FilterAll<T>(s: seq<T>, rank: T -> int, k: int)
    requires RanksWithin(s, rank, k, k)
    ensures Filter(s, rank, k) == s
    decreases |s|
  {
    if s != [] {
      var n := |s| - 1;
      FilterAll(s[..n], rank, k);
      assert s == s[..n] + [s[n]];
    }
  }

  /** What a block of ranks in `[lo, hi]` contributes to the elements of rank `k`. */
  lemma FilterWithin<T>(s: seq<T>, rank: T -> int, lo: int, hi: int, k: int)
    requires RanksWithin(s, rank, lo, hi)
    ensures k < lo || hi < k ==> Filter(s, rank, k) == []
    ensures lo == hi == k ==> Filter(s, rank, k) == s
  {
    if k < lo || hi < k {
      FilterNone(s, rank, k);
    }
    if lo == hi == k {
      FilterAll(s, rank, k);
    }
  }

  /** Appending a block of ranks in `[lo, hi]` adds nothing of rank `k`
      outside that range, and the whole block when it is all of rank `k`. */
  lemma FilterStep<T>(a: seq<T>, b: seq<T>, rank: T -> int, lo: int, hi: int, k: int)
    requires RanksWithin(b, rank, lo, hi)
    ensures k < lo || hi < k ==> Filter(a + b, rank, k) == Filter(a, rank, k)
    ensures lo == hi == k ==> Filter(a + b, rank, k) == Filter(a, rank, k) + b
  {
    FilterAppend(a, b, rank, k);
    FilterWithin(b, rank, lo, hi, k);
  }
}
