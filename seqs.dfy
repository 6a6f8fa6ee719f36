/** `Array.prototype.filter`, `.length` of a filtered list and `.reduce` sums,
    with the facts every page relies on: a filter keeps exactly the elements
    that pass, in their original order. */
module Seqs {

  /** `s.filter(p)`. */
  function Filter<T>(s: seq<T>, p: T -> bool): (r: seq<T>)
    ensures |r| <= |s|
    ensures forall x :: x in r ==> x in s && p(x)
  {
    if s == [] then []
    else if p(s[0]) then [s[0]] + Filter(s[1..], p)
    else Filter(s[1..], p)
  }

  /** `a` can be obtained from `b` by deleting elements. */
  predicate IsSubsequence<T(==)>(a: seq<T>, b: seq<T>)
    decreases |b|
  {
    if a == [] then true
    else if b == [] then false
    else if a[0] == b[0] && IsSubsequence(a[1..], b[1..]) then true
    else IsSubsequence(a, b[1..])
  }

  lemma {:induction false} FilterKeepsPassing<T>(s: seq<T>, p: T -> bool, x: T)
    requires x in s && p(x)
    ensures x in Filter(s, p)
  {
    if s[0] != x {
      FilterKeepsPassing(s[1..], p, x);
    }
  }

  /** An element is in the filtered list exactly when it is in the list and passes. */
  lemma FilterMembership<T>(s: seq<T>, p: T -> bool, x: T)
    ensures x in Filter(s, p) <==> x in s && p(x)
  {
    if x in s && p(x) {
      FilterKeepsPassing(s, p, x);
    }
  }

  /** Filtering preserves relative order. */
  lemma {:induction false} FilterIsSubsequence<T>(s: seq<T>, p: T -> bool)
    ensures IsSubsequence(Filter(s, p), s)
  {
    if s != [] {
      FilterIsSubsequence(s[1..], p);
      if p(s[0]) {
        assert Filter(s, p)[1..] == Filter(s[1..], p);
      } else {
        var f := Filter(s, p);
        if f != [] {
          assert IsSubsequence(f, s[1..]);
        }
      }
    }
  }

  /** A filter every element passes returns the whole list. */
  lemma {:induction false} FilterAllPass<T>(s: seq<T>, p: T -> bool)
    requires forall i :: 0 <= i < |s| ==> p(s[i])
    ensures Filter(s, p) == s
  {
    if s != [] {
      FilterAllPass(s[1..], p);
    }
  }

  /** A filter no element passes returns the empty list. */
  lemma {:induction false} FilterNonePass<T>(s: seq<T>, p: T -> bool)
    requires forall i :: 0 <= i < |s| ==> !p(s[i])
    ensures Filter(s, p) == []
  {
    if s != [] {
      FilterNonePass(s[1..], p);
    }
  }

  /** Filters distribute over concatenation. */
  lemma {:induction false} FilterConcat<T>(a: seq<T>, b: seq<T>, p: T -> bool)
    ensures Filter(a + b, p) == Filter(a, p) + Filter(b, p)
  {
    if a != [] {
      var ab := a + b;
      assert ab[0] == a[0] && ab[1..] == a[1..] + b;
      FilterConcat(a[1..], b, p);
      if p(a[0]) {
        assert Filter(ab, p) == [a[0]] + Filter(ab[1..], p);
        assert Filter(a, p) + Filter(b, p) == [a[0]] + (Filter(a[1..], p) + Filter(b, p));
      } else {
        assert Filter(ab, p) == Filter(ab[1..], p);
      }
    } else {
      assert a + b == b;
    }
  }

  /** The filtered list is empty exactly when no element passes. */
  lemma FilterEmptyIff<T>(s: seq<T>, p: T -> bool)
    ensures Filter(s, p) == [] <==> forall i :: 0 <= i < |s| ==> !p(s[i])
  {
    if Filter(s, p) == [] {
      forall i | 0 <= i < |s| ensures !p(s[i]) {
        FilterMembership(s, p, s[i]);
      }
    } else {
      FilterNonePassContra(s, p);
    }
  }

  lemma FilterNonePassContra<T>(s: seq<T>, p: T -> bool)
    requires Filter(s, p) != []
    ensures exists i :: 0 <= i < |s| && p(s[i])
  {
    var x := Filter(s, p)[0];
    var i :| 0 <= i < |s| && s[i] == x;
  }

  /** Two distinct positions that pass put at least two elements in the filter. */
  lemma {:induction false} FilterAtLeastTwo<T>(s: seq<T>, p: T -> bool, i: int, j: int)
    requires 0 <= i < j < |s| && p(s[i]) && p(s[j])
    ensures |Filter(s, p)| >= 2
  {
    if i == 0 {
      FilterKeepsPassing(s[1..], p, s[j]);
    } else {
      FilterAtLeastTwo(s[1..], p, i - 1, j - 1);
    }
  }

  /** One position that fails makes the filter strictly shorter than the list. */
  lemma {:induction false} FilterShorterWhenOneFails<T>(s: seq<T>, p: T -> bool, k: nat)
    requires k < |s| && !p(s[k])
    ensures |Filter(s, p)| < |s|
  {
    if k > 0 {
      FilterShorterWhenOneFails(s[1..], p, k - 1);
    }
  }

  /** `s.reduce((sum, x) => sum + f(x), 0)`. */
  function Sum<T>(s: seq<T>, f: T -> int): int
  {
    if s == [] then 0 else f(s[0]) + Sum(s[1..], f)
  }

  /** Splitting a list by a test and its negation splits its sum: the two partial sums add up to the whole. */
  lemma {:induction false} SumPartition<T>(s: seq<T>, f: T -> int, p: T -> bool, q: T -> bool)
    requires forall x :: q(x) == !p(x)
    ensures Sum(Filter(s, p), f) + Sum(Filter(s, q), f) == Sum(s, f)
  {
    if s != [] {
      SumPartition(s[1..], f, p, q);
      if p(s[0]) {
        assert Filter(s, p) == [s[0]] + Filter(s[1..], p);
        assert Sum([s[0]] + Filter(s[1..], p), f) == f(s[0]) + Sum(Filter(s[1..], p), f);
      } else {
        assert Filter(s, q) == [s[0]] + Filter(s[1..], q);
        assert Sum([s[0]] + Filter(s[1..], q), f) == f(s[0]) + Sum(Filter(s[1..], q), f);
      }
    }
  }

  /** Adding one more element adds its value: the step of a running total. */
  lemma {:induction false} SumSnoc<T>(s: seq<T>, x: T, f: T -> int)
    ensures Sum(s + [x], f) == Sum(s, f) + f(x)
  {
    if s == [] {
      assert [] + [x] == [x];
    } else {
      assert (s + [x])[1..] == s[1..] + [x];
      SumSnoc(s[1..], x, f);
    }
  }

  /** When every value is 0 or 1 the sum is between 0 and the length. */
  lemma {:induction false} SumOfBits<T>(s: seq<T>, f: T -> int)
    requires forall k :: 0 <= k < |s| ==> 0 <= f(s[k]) <= 1
    ensures 0 <= Sum(s, f) <= |s|
  {
    if s != [] {
      assert forall k :: 0 <= k < |s[1..]| ==> s[1..][k] == s[k + 1];
      SumOfBits(s[1..], f);
    }
  }
}
