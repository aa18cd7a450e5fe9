/** Order-preserving selection on sequences: the model of `Array.prototype.filter`,
    which every list screen of the app uses to drop or keep users. */
module Seqs {

  /** `sub` is obtained from `xs` by deleting some elements and keeping the order of the rest. */
  predicate IsSubsequence<T(==)>(sub: seq<T>, xs: seq<T>)
    decreases |xs|
  {
    if sub == [] then true
    else if xs == [] then false
    else (sub[0] == xs[0] && IsSubsequence(sub[1..], xs[1..])) || IsSubsequence(sub, xs[1..])
  }

  /** The elements of `xs` that satisfy `p`, in their original order. */
  function Keep<T(==)>(xs: seq<T>, p: T -> bool): (r: seq<T>)
    ensures |r| <= |xs|
    ensures forall i :: 0 <= i < |r| ==> r[i] in xs && p(r[i])
    ensures forall i :: 0 <= i < |xs| && p(xs[i]) ==> xs[i] in r
  {
    if xs == [] then []
    else if p(xs[0]) then [xs[0]] + Keep(xs[1..], p)
    else Keep(xs[1..], p)
  }

  /** The filtered sequence is a subsequence of the input. */
  lemma {:induction false} KeepIsSubsequence<T>(xs: seq<T>, p: T -> bool)
    ensures IsSubsequence(Keep(xs, p), xs)
  {
    if xs != [] {
      KeepIsSubsequence(xs[1..], p);
    }
  }

  /** Every occurrence of a kept value survives and every occurrence of a dropped one goes:
      together with the subsequence property this determines `Keep` completely. */
  lemma {:induction false} KeepCount<T>(xs: seq<T>, p: T -> bool, x: T)
    ensures multiset(Keep(xs, p))[x] == if p(x) then multiset(xs)[x] else 0
  {
    if xs != [] {
      KeepCount(xs[1..], p, x);
      assert xs == [xs[0]] + xs[1..];
    }
  }

  lemma KeepCounts<T>(xs: seq<T>, p: T -> bool)
    ensures forall x :: multiset(Keep(xs, p))[x] == if p(x) then multiset(xs)[x] else 0
  {
    forall x
      ensures multiset(Keep(xs, p))[x] == if p(x) then multiset(xs)[x] else 0
    {
      KeepCount(xs, p, x);
    }
  }

  /** When every element passes, filtering returns the sequence itself. */
  lemma {:induction false} KeepAll<T>(xs: seq<T>, p: T -> bool)
    requires forall i :: 0 <= i < |xs| ==> p(xs[i])
    ensures Keep(xs, p) == xs
  {
    if xs != [] {
      KeepAll(xs[1..], p);
    }
  }

  /** Filtering out at least one element makes the sequence strictly shorter. */
  lemma {:induction false} KeepShorter<T>(xs: seq<T>, p: T -> bool, i: nat)
    requires i < |xs| && !p(xs[i])
    ensures |Keep(xs, p)| < |xs|
  {
    if i > 0 {
      KeepShorter(xs[1..], p, i - 1);
    }
  }

  /** Filtering distributes over concatenation. */
  lemma {:induction false} KeepAppend<T>(a: seq<T>, b: seq<T>, p: T -> bool)
    ensures Keep(a + b, p) == Keep(a, p) + Keep(b, p)
  {
    if a == [] {
      assert a + b == b;
    } else {
      var ab := a + b;
      assert ab[0] == a[0];
      assert ab[1..] == a[1..] + b;
      KeepAppend(a[1..], b, p);
      assert Keep(ab, p) == (if p(a[0]) then [a[0]] else []) + Keep(ab[1..], p);
      assert Keep(a, p) == (if p(a[0]) then [a[0]] else []) + Keep(a[1..], p);
    }
  }

  /** Two predicates that agree on the elements of `xs` select the same elements. */
  lemma {:induction false} KeepCongruent<T>(xs: seq<T>, p: T -> bool, q: T -> bool)
    requires forall i :: 0 <= i < |xs| ==> p(xs[i]) == q(xs[i])
    ensures Keep(xs, p) == Keep(xs, q)
  {
    if xs != [] {
      KeepCongruent(xs[1..], p, q);
    }
  }

  /** Two successive filters may be applied in either order. */
  lemma {:induction false} KeepCommute<T>(xs: seq<T>, p: T -> bool, q: T -> bool)
    ensures Keep(Keep(xs, p), q) == Keep(Keep(xs, q), p)
  {
    if xs != [] {
      KeepCommute(xs[1..], p, q);
      var h, t := xs[0], xs[1..];
      if p(h) {
        KeepAppend([h], Keep(t, p), q);
      }
      if q(h) {
        KeepAppend([h], Keep(t, q), p);
      }
    }
  }
}
