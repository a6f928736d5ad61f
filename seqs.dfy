/**
 * The array idioms the pages use, as functions on sequences: `filter`, `filter(..).length`,
 * a `reduce` that adds up one number per element, and the order-preserving sublists
 * that filtering produces.
 */
module Seqs {

  /** `s.filter(keep)`. */
  function Filter<T(==)>(s: seq<T>, keep: T -> bool): (r: seq<T>)
    ensures |r| <= |s|
    ensures forall i :: 0 <= i < |r| ==> r[i] in s && keep(r[i])
    ensures forall i :: 0 <= i < |s| && keep(s[i]) ==> s[i] in r
  {
    if s == [] then []
    else (if keep(s[0]) then [s[0]] else []) + Filter(s[1..], keep)
  }

  /** `r` is `s` with some elements left out and the rest in their original order. */
  predicate IsSubsequence<T(==)>(r: seq<T>, s: seq<T>)
    decreases |s|
  {
    if r == [] then true
    else if s == [] then false
    else (r[0] == s[0] && IsSubsequence(r[1..], s[1..])) || IsSubsequence(r, s[1..])
  }

  lemma {:induction false} FilterIsSubsequence<T>(s: seq<T>, keep: T -> bool)
    ensures IsSubsequence(Filter(s, keep), s)
  {
    if s != [] {
      FilterIsSubsequence(s[1..], keep);
      var r := Filter(s, keep);
      if keep(s[0]) {
        assert r[0] == s[0] && r[1..] == Filter(s[1..], keep);
      } else {
        assert r == Filter(s[1..], keep);
      }
    }
  }

  /** Filtering keeps every occurrence of a kept element and drops every other one. */
  lemma {:induction false} FilterMultiset<T>(s: seq<T>, keep: T -> bool, x: T)
    ensures multiset(Filter(s, keep))[x] == if keep(x) then multiset(s)[x] else 0
  {
    if s != [] {
      FilterMultiset(s[1..], keep, x);
      assert s == [s[0]] + s[1..];
    }
  }

  /** `FilterMultiset` for every element at once. */
  lemma FilterMultisets<T>(s: seq<T>, keep: T -> bool)
    ensures forall x :: multiset(Filter(s, keep))[x] == if keep(x) then multiset(s)[x] else 0
  {
    forall x {
      FilterMultiset(s, keep, x);
    }
  }

  /** Filtering twice with the same test is filtering once. */
  lemma {:induction false} FilterIdempotent<T>(s: seq<T>, keep: T -> bool)
    ensures Filter(Filter(s, keep), keep) == Filter(s, keep)
  {
    if s != [] {
      FilterIdempotent(s[1..], keep);
      FilterAppend((if keep(s[0]) then [s[0]] else []), Filter(s[1..], keep), keep);
    }
  }

  lemma {:induction false} FilterAppend<T>(a: seq<T>, b: seq<T>, keep: T -> bool)
    ensures Filter(a + b, keep) == Filter(a, keep) + Filter(b, keep)
  {
    if a != [] {
      assert (a + b)[1..] == a[1..] + b;
      FilterAppend(a[1..], b, keep);
    } else {
      assert a + b == b;
    }
  }

  /** A test every element passes leaves the list as it is. */
  lemma {:induction false} FilterKeepsAll<T>(s: seq<T>, keep: T -> bool)
    requires forall i :: 0 <= i < |s| ==> keep(s[i])
    ensures Filter(s, keep) == s
  {
    if s != [] {
      FilterKeepsAll(s[1..], keep);
      assert s == [s[0]] + s[1..];
    }
  }

  /** Two tests that agree on every element filter alike. */
  lemma {:induction false} FilterSameTests<T>(s: seq<T>, keep: T -> bool, keep': T -> bool)
    requires forall x :: keep(x) == keep'(x)
    ensures Filter(s, keep) == Filter(s, keep')
  {
    if s != [] {
      FilterSameTests(s[1..], keep, keep');
    }
  }

  /** Filtering by one test and then another is filtering by both at once. */
  lemma {:induction false} FilterFilter<T>(s: seq<T>, first: T -> bool, second: T -> bool, both: T -> bool)
    requires forall x :: both(x) == (first(x) && second(x))
    ensures Filter(Filter(s, first), second) == Filter(s, both)
  {
    if s != [] {
      FilterFilter(s[1..], first, second, both);
      FilterAppend((if first(s[0]) then [s[0]] else []), Filter(s[1..], first), second);
    }
  }

  /** `s.filter(test).length`. */
  function Count<T(==)>(s: seq<T>, test: T -> bool): (n: nat)
    ensures n <= |s|
    ensures n == |Filter(s, test)|
  {
    if s == [] then 0 else (if test(s[0]) then 1 else 0) + Count(s[1..], test)
  }

  /** `s.reduce((sum, x) => sum + amount(x), 0)`. */
  function Sum<T>(s: seq<T>, amount: T -> int): int {
    if s == [] then 0 else amount(s[0]) + Sum(s[1..], amount)
  }

  lemma {:induction false} SumAppend<T>(a: seq<T>, b: seq<T>, amount: T -> int)
    ensures Sum(a + b, amount) == Sum(a, amount) + Sum(b, amount)
  {
    if a != [] {
      assert (a + b)[1..] == a[1..] + b;
      SumAppend(a[1..], b, amount);
    } else {
      assert a + b == b;
    }
  }

  /** Replacing one element changes the sum by the difference of the two amounts. */
  lemma {:induction false} SumUpdate<T>(s: seq<T>, i: nat, x: T, amount: T -> int)
    requires i < |s|
    ensures Sum(s[i := x], amount) == Sum(s, amount) - amount(s[i]) + amount(x)
  {
    if i > 0 {
      assert s[i := x][1..] == s[1..][i - 1 := x];
      SumUpdate(s[1..], i - 1, x, amount);
    }
  }

  /** A sum of non-negative amounts is non-negative. */
  lemma {:induction false} SumNonNegative<T>(s: seq<T>, amount: T -> int)
    requires forall x :: x in s ==> amount(x) >= 0
    ensures Sum(s, amount) >= 0
  {
    if s != [] {
      SumNonNegative(s[1..], amount);
    }
  }

  /** The sum over a filtered list counts only the kept elements: the others add 0. */
  lemma {:induction false} SumFilter<T>(s: seq<T>, keep: T -> bool, amount: T -> int, masked: T -> int)
    requires forall x :: masked(x) == (if keep(x) then amount(x) else 0)
    ensures Sum(Filter(s, keep), amount) == Sum(s, masked)
  {
    if s != [] {
      SumFilter(s[1..], keep, amount, masked);
      SumAppend((if keep(s[0]) then [s[0]] else []), Filter(s[1..], keep), amount);
    }
  }

  /** Two amounts per element: summing their difference is subtracting their sums. */
  lemma {:induction false} SumDifference<T>(s: seq<T>, plus: T -> int, minus: T -> int, diff: T -> int)
    requires forall x :: diff(x) == plus(x) - minus(x)
    ensures Sum(s, diff) == Sum(s, plus) - Sum(s, minus)
  {
    if s != [] {
      SumDifference(s[1..], plus, minus, diff);
    }
  }

  /** `s.map(f)`. */
  function Map<T, U>(s: seq<T>, f: T -> U): (r: seq<U>)
    ensures |r| == |s|
    ensures forall i :: 0 <= i < |s| ==> r[i] == f(s[i])
  {
    seq(|s|, i requires 0 <= i < |s| => f(s[i]))
  }
}
