/** The list operations the pages build their views from:
    `Array.prototype.filter` and `Array.from(new Set(xs))` (distinct values in
    first-occurrence order), with the facts the pages rely on. */
module Seqs {

  /** `a` is `b` with some elements dropped and the rest kept in order. */
  predicate IsSubsequence<T(==)>(a: seq<T>, b: seq<T>)
    decreases |b|
  {
    if a == [] then true
    else if b == [] then false
    else (a[0] == b[0] && IsSubsequence(a[1..], b[1..])) || IsSubsequence(a, b[1..])
  }

  /** No value occurs twice. */
  predicate Distinct<T(==)>(s: seq<T>) {
    forall i, j :: 0 <= i < j < |s| ==> s[i] != s[j]
  }

  /** `xs.filter(p)`: the elements satisfying `p`, in their original order. */
  function Filter<T(!new)>(s: seq<T>, p: T -> bool): (r: seq<T>)
    ensures |r| <= |s|
    ensures forall i :: 0 <= i < |r| ==> p(r[i])
    ensures forall x :: x in r <==> x in s && p(x)
    ensures IsSubsequence(r, s)
    decreases |s|
  {
    if s == [] then []
    else if p(s[0]) then [s[0]] + Filter(s[1..], p)
    else Filter(s[1..], p)
  }

  /** Filtering keeps each element with its full multiplicity, or drops it
      entirely: with the subsequence fact above this pins the result down. */
  lemma {:induction false} FilterMultiset<T(!new)>(s: seq<T>, p: T -> bool)
    ensures forall x :: multiset(Filter(s, p))[x] == if p(x) then multiset(s)[x] else 0
    decreases |s|
  {
    if s != [] {
      FilterMultiset(s[1..], p);
      assert s == [s[0]] + s[1..];
    }
  }

  /** A predicate that holds everywhere keeps the whole list. */
  lemma {:induction false} FilterKeepsAll<T(!new)>(s: seq<T>, p: T -> bool)
    requires forall x :: p(x)
    ensures Filter(s, p) == s
    decreases |s|
  {
    if s != [] {
      FilterKeepsAll(s[1..], p);
      assert s == [s[0]] + s[1..];
    }
  }

  /** A list whose passing elements all come before its failing ones
      filters to the passing prefix. */
  lemma {:induction false} FilterPrefix<T(!new)>(s: seq<T>, p: T -> bool, k: nat)
    requires k <= |s|
    requires forall i :: 0 <= i < k ==> p(s[i])
    requires forall i :: k <= i < |s| ==> !p(s[i])
    ensures Filter(s, p) == s[..k]
    decreases |s|
  {
    if s != [] {
      if k > 0 {
        FilterPrefix(s[1..], p, k - 1);
        assert s[..k] == [s[0]] + s[1..][..k - 1];
      } else {
        FilterPrefix(s[1..], p, 0);
      }
    }
  }

  /** A list whose failing elements all come before its passing ones
      filters to the passing suffix. */
  lemma {:induction false} FilterSuffix<T(!new)>(s: seq<T>, p: T -> bool, k: nat)
    requires k <= |s|
    requires forall i :: 0 <= i < k ==> !p(s[i])
    requires forall i :: k <= i < |s| ==> p(s[i])
    ensures Filter(s, p) == s[k..]
    decreases |s|
  {
    if s != [] {
      if k > 0 {
        FilterSuffix(s[1..], p, k - 1);
        assert s[1..][k - 1..] == s[k..];
      } else {
        FilterSuffix(s[1..], p, 0);
        assert s == [s[0]] + s[1..];
      }
    }
  }

  /** Filtering by a predicate and by its negation splits the list in two. */
  lemma {:induction false} FilterPartition<T(!new)>(s: seq<T>, p: T -> bool, q: T -> bool)
    requires forall x :: q(x) == !p(x)
    ensures multiset(Filter(s, p)) + multiset(Filter(s, q)) == multiset(s)
    ensures |Filter(s, p)| + |Filter(s, q)| == |s|
  {
    FilterMultiset(s, p);
    FilterMultiset(s, q);
    var both := multiset(Filter(s, p)) + multiset(Filter(s, q));
    assert forall x :: both[x] == multiset(s)[x];
    assert both == multiset(s);
    assert |multiset(Filter(s, p))| == |Filter(s, p)|;
    assert |multiset(Filter(s, q))| == |Filter(s, q)|;
    assert |multiset(s)| == |s|;
  }

  /** Subsequence is transitive, so a sub-view of a view is a sub-view of the table. */
  lemma {:induction false} SubsequenceTransitive<T>(a: seq<T>, b: seq<T>, c: seq<T>)
    requires IsSubsequence(a, b) && IsSubsequence(b, c)
    ensures IsSubsequence(a, c)
    decreases |c|, |b|
  {
    if a != [] && c != [] {
      assert b != [];
      if b[0] == c[0] && IsSubsequence(b[1..], c[1..]) {
        if a[0] == b[0] && IsSubsequence(a[1..], b[1..]) {
          SubsequenceTransitive(a[1..], b[1..], c[1..]);
        } else {
          SubsequenceTransitive(a, b[1..], c[1..]);
        }
      } else {
        SubsequenceTransitive(a, b, c[1..]);
      }
    }
  }

  /** Every prefix of a list is a subsequence of it. */
  lemma {:induction false} PrefixIsSubsequence<T>(s: seq<T>, k: nat)
    requires k <= |s|
    ensures IsSubsequence(s[..k], s)
    decreases |s|
  {
    if k > 0 {
      PrefixIsSubsequence(s[1..], k - 1);
      assert s[..k][1..] == s[1..][..k - 1];
    }
  }

  /** The position of the first occurrence of `x`. */
  function FirstIndex<T(==)>(xs: seq<T>, x: T): (k: nat)
    requires x in xs
    ensures k < |xs| && xs[k] == x && x !in xs[..k]
    decreases |xs|
  {
    if xs[0] == x then 0
    else
      assert x in xs[1..] by { assert xs == [xs[0]] + xs[1..]; }
      1 + FirstIndex(xs[1..], x)
  }

  /** The first occurrence is the only position with nothing equal before it. */
  lemma FirstIndexUnique<T>(xs: seq<T>, x: T, k: nat)
    requires k < |xs| && xs[k] == x && x !in xs[..k]
    ensures FirstIndex(xs, x) == k
  {
  }

  /** `Array.from(new Set(xs))`: a Set keeps the first insertion of each
      value and iterates in insertion order. */
  function Dedup<T(==,!new)>(xs: seq<T>): (r: seq<T>)
    ensures forall x :: x in r <==> x in xs
    ensures Distinct(r)
    ensures |r| <= |xs|
    ensures forall i, j :: 0 <= i < j < |r| ==> FirstIndex(xs, r[i]) < FirstIndex(xs, r[j])
    decreases |xs|
  {
    if xs == [] then []
    else
      var init := xs[..|xs| - 1];
      var x := xs[|xs| - 1];
      var d := Dedup(init);
      assert xs == init + [x];
      DedupAppend(init, x, d);
      if x in d then d else d + [x]
  }

  /** The inductive step of Dedup: inserting `x` into the Set built from
      `init` keeps every property of the result. */
  lemma DedupAppend<T(!new)>(init: seq<T>, x: T, d: seq<T>)
    requires forall y :: y in d <==> y in init
    requires Distinct(d)
    requires forall i, j :: 0 <= i < j < |d| ==> FirstIndex(init, d[i]) < FirstIndex(init, d[j])
    ensures var r := if x in d then d else d + [x];
      && (forall y :: y in r <==> y in init + [x])
      && Distinct(r)
      && forall i, j :: 0 <= i < j < |r| ==> FirstIndex(init + [x], r[i]) < FirstIndex(init + [x], r[j])
  {
    var xs := init + [x];
    forall i | 0 <= i < |d|
      ensures FirstIndex(xs, d[i]) == FirstIndex(init, d[i])
    {
      var k := FirstIndex(init, d[i]);
      assert xs[..k] == init[..k];
      FirstIndexUnique(xs, d[i], k);
    }
    if x !in d {
      assert xs[..|init|] == init;
      FirstIndexUnique(xs, x, |init|);
      var r := d + [x];
      forall i, j | 0 <= i < j < |r|
        ensures FirstIndex(xs, r[i]) < FirstIndex(xs, r[j])
      {
        if j == |d| {
          assert FirstIndex(xs, r[i]) == FirstIndex(init, d[i]) < |init|;
        }
      }
    }
  }

  /** A list without repeats is its own set of values, in the same order. */
  lemma {:induction false} DedupOfDistinct<T(!new)>(xs: seq<T>)
    requires Distinct(xs)
    ensures Dedup(xs) == xs
    decreases |xs|
  {
    if xs != [] {
      var init, x := xs[..|xs| - 1], xs[|xs| - 1];
      assert Distinct(init);
      DedupOfDistinct(init);
      assert Dedup(xs) == Dedup(init) + [x];
      assert xs == init + [x];
    }
  }
}
