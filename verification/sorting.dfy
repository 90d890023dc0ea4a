/**
 * `Array.prototype.sort` with a comparator that orders by one key,
 * ascending or descending. The sort is stable, as JavaScript's is: elements
 * whose keys compare equal keep their relative order.
 */
module Sorting {
  import Text

  /** The value a comparator reads off an element: a string or a number. */
  datatype SortKey = Str(s: string) | Num(n: real)

  /**
   * JavaScript's `a < b` for two keys of the same kind. The comparators
   * never compare a string with a number; that case is ordered strings first
   * only so that the relation stays a strict total order.
   */
  predicate KeyLess(a: SortKey, b: SortKey) {
    match (a, b)
    case (Str(x), Str(y)) => Text.StrLess(x, y)
    case (Num(x), Num(y)) => x < y
    case (Str(_), Num(_)) => true
    case (Num(_), Str(_)) => false
  }

  /** The comparator returns a negative number for (a, b): `a < b` ascending, `a > b` descending. */
  predicate Before(a: SortKey, b: SortKey, desc: bool) {
    if desc then KeyLess(b, a) else KeyLess(a, b)
  }

  lemma {:induction false} KeyLessAsymmetric(a: SortKey, b: SortKey)
    ensures !(KeyLess(a, b) && KeyLess(b, a))
  {
    if a.Str? && b.Str? && Text.StrLess(a.s, b.s) {
      Text.StrLessAsymmetric(a.s, b.s);
    }
  }

  lemma {:induction false} KeyLessTrichotomy(a: SortKey, b: SortKey)
    ensures KeyLess(a, b) || KeyLess(b, a) || a == b
  {
    if a.Str? && b.Str? {
      Text.StrLessTrichotomy(a.s, b.s);
    }
  }

  lemma {:induction false} KeyLessTransitive(a: SortKey, b: SortKey, c: SortKey)
    requires KeyLess(a, b) && KeyLess(b, c)
    ensures KeyLess(a, c)
  {
    if a.Str? && b.Str? && c.Str? {
      Text.StrLessTransitive(a.s, b.s, c.s);
    }
  }

  /** "Not strictly after" on keys is transitive. */
  lemma {:induction false} KeyLeTransitive(a: SortKey, b: SortKey, c: SortKey)
    requires !KeyLess(b, a) && !KeyLess(c, b)
    ensures !KeyLess(c, a)
  {
    KeyLessTrichotomy(c, b);
    if KeyLess(b, c) && KeyLess(c, a) {
      KeyLessTransitive(b, c, a);
    }
  }

  /** "Not strictly before" is transitive, which is what makes a sorted sequence sorted pairwise. */
  lemma {:induction false} NotBeforeTransitive(a: SortKey, b: SortKey, c: SortKey, desc: bool)
    requires !Before(b, a, desc) && !Before(c, b, desc)
    ensures !Before(c, a, desc)
  {
    if desc {
      KeyLeTransitive(c, b, a);
    } else {
      KeyLeTransitive(a, b, c);
    }
  }

  /** No element is strictly before an element that precedes it. */
  ghost predicate SortedBy<T>(s: seq<T>, key: T -> SortKey, desc: bool) {
    forall i, j :: 0 <= i < j < |s| ==> !Before(key(s[j]), key(s[i]), desc)
  }

  /** Every prefix of a sorted sequence is sorted and is part of it. */
  lemma {:induction false} SortedPrefix<T>(s: seq<T>, n: nat, key: T -> SortKey, desc: bool)
    requires n <= |s| && SortedBy(s, key, desc)
    ensures SortedBy(s[..n], key, desc)
    ensures multiset(s[..n]) <= multiset(s)
  {
    assert s == s[..n] + s[n..];
    forall i, j | 0 <= i < j < n
      ensures !Before(key(s[..n][j]), key(s[..n][i]), desc)
    {
      assert s[..n][i] == s[i] && s[..n][j] == s[j];
    }
  }

  /** `x` inserted into `s` in front of the first element it is not strictly after. */
  function Insert<T>(x: T, s: seq<T>, key: T -> SortKey, desc: bool): seq<T>
  {
    if |s| == 0 then [x]
    else if Before(key(s[0]), key(x), desc) then [s[0]] + Insert(x, s[1..], key, desc)
    else [x] + s
  }

  lemma {:induction false} InsertPermutes<T>(x: T, s: seq<T>, key: T -> SortKey, desc: bool)
    ensures multiset(Insert(x, s, key, desc)) == multiset(s) + multiset{x}
  {
    if |s| > 0 && Before(key(s[0]), key(x), desc) {
      var t := Insert(x, s[1..], key, desc);
      InsertPermutes(x, s[1..], key, desc);
      assert Insert(x, s, key, desc) == [s[0]] + t;
      assert multiset([s[0]] + t) == multiset{s[0]} + multiset(t);
      assert s == [s[0]] + s[1..];
      assert multiset(s) == multiset{s[0]} + multiset(s[1..]);
    }
  }

  lemma {:induction false} InsertSorted<T>(x: T, s: seq<T>, key: T -> SortKey, desc: bool)
    requires SortedBy(s, key, desc)
    ensures SortedBy(Insert(x, s, key, desc), key, desc)
  {
    if |s| == 0 {
    } else if Before(key(s[0]), key(x), desc) {
      var tail := Insert(x, s[1..], key, desc);
      SortedTail(s, key, desc);
      InsertSorted(x, s[1..], key, desc);
      InsertPermutes(x, s[1..], key, desc);
      forall j | 0 <= j < |tail|
        ensures !Before(key(tail[j]), key(s[0]), desc)
      {
        assert tail[j] in multiset(s[1..]) + multiset{x};
        if tail[j] == x {
          KeyLessAsymmetric(key(s[0]), key(x));
        } else {
          assert tail[j] in s[1..];
          var k :| 0 <= k < |s[1..]| && s[1..][k] == tail[j];
          assert s[k+1] == tail[j];
        }
      }
      ConsSorted(s[0], tail, key, desc);
    } else {
      forall j | 0 <= j < |s|
        ensures !Before(key(s[j]), key(x), desc)
      {
        if j > 0 {
          NotBeforeTransitive(key(x), key(s[0]), key(s[j]), desc);
        }
      }
      ConsSorted(x, s, key, desc);
    }
  }

  /** The tail of a sorted sequence is sorted. */
  lemma {:induction false} SortedTail<T>(s: seq<T>, key: T -> SortKey, desc: bool)
    requires |s| > 0 && SortedBy(s, key, desc)
    ensures SortedBy(s[1..], key, desc)
  {
    forall i, j | 0 <= i < j < |s[1..]|
      ensures !Before(key(s[1..][j]), key(s[1..][i]), desc)
    {
      assert s[1..][j] == s[j+1] && s[1..][i] == s[i+1];
    }
  }

  /** A head that no element of a sorted tail is strictly before keeps the sequence sorted. */
  lemma {:induction false} ConsSorted<T>(h: T, t: seq<T>, key: T -> SortKey, desc: bool)
    requires SortedBy(t, key, desc)
    requires forall j :: 0 <= j < |t| ==> !Before(key(t[j]), key(h), desc)
    ensures SortedBy([h] + t, key, desc)
  {
    var r := [h] + t;
    forall i, j | 0 <= i < j < |r|
      ensures !Before(key(r[j]), key(r[i]), desc)
    {
      assert r[j] == t[j-1];
      if i > 0 {
        assert r[i] == t[i-1];
      }
    }
  }

  /**
   * The elements of `s` ordered by `key`, ascending or (with `desc`)
   * descending, equal keys in their original order.
   */
  function SortBy<T>(s: seq<T>, key: T -> SortKey, desc: bool): (r: seq<T>)
    ensures multiset(r) == multiset(s)
    ensures |r| == |s|
    ensures SortedBy(r, key, desc)
  {
    if |s| == 0 then []
    else
      var rest := SortBy(s[1..], key, desc);
      var r := Insert(s[0], rest, key, desc);
      InsertStep(s, rest, r, key, desc);
      r
  }

  /** Inserting the head of `s` into the sorted rest of `s` gives a sorted permutation of `s`. */
  lemma {:induction false} InsertStep<T>(s: seq<T>, rest: seq<T>, r: seq<T>, key: T -> SortKey, desc: bool)
    requires |s| > 0 && multiset(rest) == multiset(s[1..]) && SortedBy(rest, key, desc)
    requires r == Insert(s[0], rest, key, desc)
    ensures multiset(r) == multiset(s) && |r| == |s| && SortedBy(r, key, desc)
  {
    InsertSorted(s[0], rest, key, desc);
    InsertPermutes(s[0], rest, key, desc);
    assert s == [s[0]] + s[1..];
    assert multiset(r) == multiset(s);
    assert |r| == |multiset(r)| == |multiset(s)| == |s|;
  }

  /** The elements of `s` whose key is `k`, in their order in `s`. */
  function WithKey<T>(s: seq<T>, key: T -> SortKey, k: SortKey): (r: seq<T>)
    ensures forall i :: 0 <= i < |r| ==> key(r[i]) == k
  {
    if |s| == 0 then []
    else (if key(s[0]) == k then [s[0]] else []) + WithKey(s[1..], key, k)
  }

  /** No key is strictly before itself. */
  lemma {:induction false} BeforeIrreflexive(a: SortKey, b: SortKey, desc: bool)
    requires Before(a, b, desc)
    ensures a != b
  {
    KeyLessAsymmetric(a, b);
  }

  /** The elements with key `k` of a sequence with a given head. */
  lemma {:induction false} WithKeyCons<T>(y: T, t: seq<T>, key: T -> SortKey, k: SortKey)
    ensures WithKey([y] + t, key, k) == (if key(y) == k then [y] else []) + WithKey(t, key, k)
  {
    assert ([y] + t)[1..] == t;
  }

  /** Insertion only passes over elements strictly before `x`, so none of them has `x`'s key. */
  lemma {:induction false} InsertWithKey<T>(x: T, s: seq<T>, key: T -> SortKey, desc: bool, k: SortKey)
    ensures WithKey(Insert(x, s, key, desc), key, k)
            == (if key(x) == k then [x] else []) + WithKey(s, key, k)
  {
    if |s| == 0 {
      WithKeyCons(x, [], key, k);
    } else if Before(key(s[0]), key(x), desc) {
      InsertWithKey(x, s[1..], key, desc, k);
      InsertPastHead(x, s, key, desc, k);
    } else {
      WithKeyCons(x, s, key, k);
    }
  }

  /** The step of `InsertWithKey` where `x` moves past the head of `s`. */
  lemma {:induction false} InsertPastHead<T>(x: T, s: seq<T>, key: T -> SortKey, desc: bool, k: SortKey)
    requires |s| > 0 && Before(key(s[0]), key(x), desc)
    requires WithKey(Insert(x, s[1..], key, desc), key, k)
             == (if key(x) == k then [x] else []) + WithKey(s[1..], key, k)
    ensures WithKey(Insert(x, s, key, desc), key, k)
            == (if key(x) == k then [x] else []) + WithKey(s, key, k)
  {
    BeforeIrreflexive(key(s[0]), key(x), desc);
    var t := Insert(x, s[1..], key, desc);
    assert Insert(x, s, key, desc) == [s[0]] + t;
    WithKeyCons(s[0], t, key, k);
    WithKeyCons(s[0], s[1..], key, k);
    assert [s[0]] + s[1..] == s;
    var head := if key(s[0]) == k then [s[0]] else [];
    var mine := if key(x) == k then [x] else [];
    if key(x) == k {
      assert head == [];
    }
    assert head + (mine + WithKey(s[1..], key, k)) == mine + (head + WithKey(s[1..], key, k));
  }

  /**
   * The sort is stable: for every key, the elements with that key appear in
   * the result in the order they had in the input.
   */
  lemma {:induction false} SortByStable<T>(s: seq<T>, key: T -> SortKey, desc: bool, k: SortKey)
    ensures WithKey(SortBy(s, key, desc), key, k) == WithKey(s, key, k)
  {
    if |s| > 0 {
      SortByStable(s[1..], key, desc, k);
      InsertWithKey(s[0], SortBy(s[1..], key, desc), key, desc, k);
    }
  }
}
