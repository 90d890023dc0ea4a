/**
 * Folds over sequences used by the dashboard aggregations. Every fold peels
 * off the LAST element, so that extending a sequence by one element is one
 * unfolding, and the append lemmas below follow by induction on the suffix.
 */
module Seqs {

  /** The number of elements of `s` that satisfy `p`. */
  function Count<T>(s: seq<T>, p: T -> bool): (n: nat)
    ensures n <= |s|
  {
    if |s| == 0 then 0
    else Count(s[..|s|-1], p) + (if p(s[|s|-1]) then 1 else 0)
  }

  /** The sum of `f` over the elements of `s`. */
  function Sum<T>(s: seq<T>, f: T -> int): int
  {
    if |s| == 0 then 0 else Sum(s[..|s|-1], f) + f(s[|s|-1])
  }

  /** The elements of `s` that satisfy `p`, in their original order. */
  function Filter<T>(s: seq<T>, p: T -> bool): (r: seq<T>)
    ensures |r| == Count(s, p)
    ensures forall i :: 0 <= i < |r| ==> p(r[i]) && r[i] in s
    ensures forall i :: 0 <= i < |s| && p(s[i]) ==> s[i] in r
  {
    if |s| == 0 then []
    else Filter(s[..|s|-1], p) + (if p(s[|s|-1]) then [s[|s|-1]] else [])
  }

  /** Counting the `q`-elements among the `p`-elements is counting the `p`-elements among the `q`-elements. */
  lemma {:induction false} CountFilterCommutes<T>(s: seq<T>, p: T -> bool, q: T -> bool)
    ensures Count(Filter(s, p), q) == Count(Filter(s, q), p)
  {
    if |s| > 0 {
      var init := s[..|s| - 1];
      var x := s[|s| - 1];
      CountFilterCommutes(init, p, q);
      CountAppend(Filter(init, p), if p(x) then [x] else [], q);
      CountAppend(Filter(init, q), if q(x) then [x] else [], p);
      assert [x][..0] == [];
    }
  }

  /** `f` applied to every element of `s`, in order. */
  function Map<T, U>(s: seq<T>, f: T -> U): (r: seq<U>)
    ensures |r| == |s|
    ensures forall i :: 0 <= i < |s| ==> r[i] == f(s[i])
  {
    seq(|s|, i requires 0 <= i < |s| => f(s[i]))
  }

  /** Nothing is counted when no element satisfies `p`. */
  lemma {:induction false} CountNone<T>(s: seq<T>, p: T -> bool)
    requires forall i :: 0 <= i < |s| ==> !p(s[i])
    ensures Count(s, p) == 0
  {
    if |s| > 0 {
      CountNone(s[..|s|-1], p);
    }
  }

  /** Everything is counted when every element satisfies `p`. */
  lemma {:induction false} CountAll<T>(s: seq<T>, p: T -> bool)
    requires forall i :: 0 <= i < |s| ==> p(s[i])
    ensures Count(s, p) == |s|
  {
    if |s| > 0 {
      CountAll(s[..|s|-1], p);
    }
  }

  lemma {:induction false} CountAppend<T>(a: seq<T>, b: seq<T>, p: T -> bool)
    ensures Count(a + b, p) == Count(a, p) + Count(b, p)
    decreases |b|
  {
    if |b| == 0 {
      assert a + b == a;
    } else {
      assert (a + b)[..|a + b| - 1] == a + b[..|b|-1];
      CountAppend(a, b[..|b|-1], p);
    }
  }

  lemma {:induction false} SumAppend<T>(a: seq<T>, b: seq<T>, f: T -> int)
    ensures Sum(a + b, f) == Sum(a, f) + Sum(b, f)
    decreases |b|
  {
    if |b| == 0 {
      assert a + b == a;
    } else {
      assert (a + b)[..|a + b| - 1] == a + b[..|b|-1];
      SumAppend(a, b[..|b|-1], f);
    }
  }

  /** Counting with `p` is summing its indicator. */
  lemma {:induction false} CountIsSum<T>(s: seq<T>, p: T -> bool)
    ensures Count(s, p) == Sum(s, x => if p(x) then 1 else 0)
  {
    if |s| > 0 {
      CountIsSum(s[..|s|-1], p);
    }
  }

  /** Counts under two predicates that never hold together add up to the count of their disjunction. */
  lemma {:induction false} CountDisjoint<T>(s: seq<T>, p: T -> bool, q: T -> bool)
    requires forall i :: 0 <= i < |s| ==> !(p(s[i]) && q(s[i]))
    ensures Count(s, p) + Count(s, q) == Count(s, x => p(x) || q(x))
  {
    if |s| > 0 {
      CountDisjoint(s[..|s|-1], p, q);
    }
  }

  /** If `p` implies `q` on every element, `p` is counted at most as often as `q`. */
  lemma {:induction false} CountMono<T>(s: seq<T>, p: T -> bool, q: T -> bool)
    requires forall i :: 0 <= i < |s| ==> p(s[i]) ==> q(s[i])
    ensures Count(s, p) <= Count(s, q)
  {
    if |s| > 0 {
      CountMono(s[..|s|-1], p, q);
    }
  }

  /** `f` is strictly increasing along `s`. */
  ghost predicate IncreasingBy<T>(s: seq<T>, f: T -> int) {
    forall i, j :: 0 <= i < j < |s| ==> f(s[i]) < f(s[j])
  }

  /** Filtering keeps a sequence that is strictly increasing under `f` strictly increasing. */
  lemma {:induction false} FilterKeepsIncreasing<T>(s: seq<T>, p: T -> bool, f: T -> int)
    requires IncreasingBy(s, f)
    ensures IncreasingBy(Filter(s, p), f)
  {
    if |s| > 0 {
      var init := s[..|s|-1];
      var last := s[|s|-1];
      assert IncreasingBy(init, f) by {
        forall i, j | 0 <= i < j < |init|
          ensures f(init[i]) < f(init[j])
        {
          assert init[i] == s[i] && init[j] == s[j];
        }
      }
      FilterKeepsIncreasing(init, p, f);
      var r0 := Filter(init, p);
      if p(last) {
        forall i | 0 <= i < |r0|
          ensures f(r0[i]) < f(last)
        {
          assert r0[i] in init;
          var k :| 0 <= k < |init| && init[k] == r0[i];
          assert init[k] == s[k];
        }
        var r := r0 + [last];
        assert Filter(s, p) == r;
        forall i, j | 0 <= i < j < |r|
          ensures f(r[i]) < f(r[j])
        {
          assert r[i] == r0[i];
          if j < |r0| {
            assert r[j] == r0[j];
          }
        }
      } else {
        assert Filter(s, p) == r0;
      }
    }
  }

  /** Sums of two functions that agree position by position over two sequences of the same length. */
  lemma {:induction false} SumPointwise<T, U>(a: seq<T>, f: T -> int, b: seq<U>, g: U -> int)
    requires |a| == |b|
    requires forall i :: 0 <= i < |a| ==> f(a[i]) == g(b[i])
    ensures Sum(a, f) == Sum(b, g)
  {
    if |a| > 0 {
      SumPointwise(a[..|a|-1], f, b[..|b|-1], g);
    }
  }

  /** Removing the element at position `j` removes one copy of it from the multiset and its term from the sum. */
  lemma {:induction false} SumRemove<T>(b: seq<T>, j: nat, f: T -> int)
    requires j < |b|
    ensures multiset(b[..j] + b[j+1..]) == multiset(b) - multiset{b[j]}
    ensures Sum(b, f) == Sum(b[..j] + b[j+1..], f) + f(b[j])
  {
    MultisetRemove(b, j);
    SumRemoveTerm(b, b[..j], b[j], b[j+1..], f);
  }

  lemma {:induction false} MultisetRemove<T>(b: seq<T>, j: nat)
    requires j < |b|
    ensures b == b[..j] + [b[j]] + b[j+1..]
    ensures multiset(b[..j] + b[j+1..]) == multiset(b) - multiset{b[j]}
  {
    assert b == b[..j] + [b[j]] + b[j+1..];
  }

  lemma {:induction false} SumRemoveTerm<T>(b: seq<T>, pre: seq<T>, x: T, post: seq<T>, f: T -> int)
    requires b == pre + [x] + post
    ensures Sum(b, f) == Sum(pre + post, f) + f(x)
  {
    SumAppend(pre + [x], post, f);
    SumAppend(pre, [x], f);
    SumAppend(pre, post, f);
    assert [x][..0] == [];
  }

  /** A sum does not depend on the order of the elements. */
  lemma {:induction false} SumPermutation<T>(a: seq<T>, b: seq<T>, f: T -> int)
    requires multiset(a) == multiset(b)
    ensures Sum(a, f) == Sum(b, f)
    decreases |a|
  {
    if |a| == 0 {
      assert |b| == |multiset(b)| == 0;
    } else {
      var x := a[|a|-1];
      var init := a[..|a|-1];
      assert a == init + [x];
      assert multiset(init) == multiset(a) - multiset{x};
      assert x in multiset(b);
      var j :| 0 <= j < |b| && b[j] == x;
      var rest := b[..j] + b[j+1..];
      SumRemove(b, j, f);
      assert multiset(init) == multiset(rest);
      SumPermutation(init, rest, f);
      assert Sum(a, f) == Sum(init, f) + f(x);
    }
  }

  /** No value occurs twice in `s`. */
  predicate Distinct<T(==)>(s: seq<T>) {
    forall i, j :: 0 <= i < j < |s| ==> s[i] != s[j]
  }

  lemma {:induction false} DistinctOccursOnce<T>(s: seq<T>, x: T)
    requires Distinct(s)
    ensures multiset(s)[x] <= 1
  {
    if |s| > 0 {
      var init := s[..|s|-1];
      assert s == init + [s[|s|-1]];
      assert Distinct(init) by {
        forall i, j | 0 <= i < j < |init|
          ensures init[i] != init[j]
        {
          assert init[i] == s[i] && init[j] == s[j];
        }
      }
      DistinctOccursOnce(init, x);
      if x == s[|s|-1] {
        assert x !in init by {
          forall i | 0 <= i < |init|
            ensures init[i] != x
          {
            assert init[i] == s[i];
          }
        }
      }
    }
  }

  /** A permutation of a sequence without repeats has no repeats either. */
  lemma {:induction false} DistinctPermutation<T>(a: seq<T>, b: seq<T>)
    requires multiset(a) == multiset(b)
    requires Distinct(a)
    ensures Distinct(b)
  {
    forall i, j | 0 <= i < j < |b|
      ensures b[i] != b[j]
    {
      DistinctOccursOnce(a, b[j]);
      assert b == b[..j] + [b[j]] + b[j+1..];
      assert multiset(b)[b[j]] == multiset(b[..j])[b[j]] + 1 + multiset(b[j+1..])[b[j]];
      assert b[j] !in b[..j];
      assert b[i] in b[..j];
    }
  }
}
