/**
 * Grouping a sequence by a key in first-seen order, the way the dashboard
 * controllers fill a `Map` or a plain object while walking the rows: one
 * group per distinct key, groups ordered by the first row that carries the
 * key, each group holding its rows in their original order.
 */
module Grouping {
  import Seqs

  /** The position of the first element of `s` with key `k`, or `|s|` when there is none. */
  function FirstIndex<T, K(==)>(s: seq<T>, key: T -> K, k: K): (i: nat)
    ensures i <= |s|
    ensures i < |s| ==> key(s[i]) == k
    ensures forall j :: 0 <= j < i ==> key(s[j]) != k
  {
    if |s| == 0 then 0
    else if key(s[0]) == k then 0
    else
      var i := 1 + FirstIndex(s[1..], key, k);
      assert forall j :: 1 <= j < i ==> key(s[j]) != k by {
        forall j | 1 <= j < i ensures key(s[j]) != k {
          assert s[1..][j - 1] == s[j];
        }
      }
      i
  }

  /** An index holding `k` with no `k` before it is the first index of `k`. */
  lemma {:induction false} FirstIndexAt<T, K>(s: seq<T>, key: T -> K, k: K, i: nat)
    requires i < |s| && key(s[i]) == k
    requires forall j :: 0 <= j < i ==> key(s[j]) != k
    ensures FirstIndex(s, key, k) == i
  {
  }

  /** Appending an element does not move the first occurrence of a key already present. */
  lemma {:induction false} FirstIndexAppend<T, K>(s: seq<T>, x: T, key: T -> K, k: K)
    requires FirstIndex(s, key, k) < |s|
    ensures FirstIndex(s + [x], key, k) == FirstIndex(s, key, k)
  {
    var i := FirstIndex(s, key, k);
    assert forall j :: 0 <= j <= i ==> (s + [x])[j] == s[j];
    FirstIndexAt(s + [x], key, k, i);
  }

  /** A key that occurs in `s` has its first occurrence inside `s`. */
  lemma {:induction false} FirstIndexFound<T, K>(s: seq<T>, key: T -> K, k: K)
    requires k in Seqs.Map(s, key)
    ensures FirstIndex(s, key, k) < |s|
  {
    var i :| 0 <= i < |s| && Seqs.Map(s, key)[i] == k;
    assert key(s[i]) == k;
  }

  /** The distinct keys of `s`, in order of first occurrence. */
  function Keys<T, K(==)>(s: seq<T>, key: T -> K): (ks: seq<K>)
    ensures Seqs.Distinct(ks)
    ensures forall i :: 0 <= i < |s| ==> key(s[i]) in ks
    ensures forall j :: 0 <= j < |ks| ==> ks[j] in Seqs.Map(s, key)
  {
    if |s| == 0 then []
    else
      var init := s[..|s| - 1];
      var ks := Keys(init, key);
      var k := key(s[|s| - 1]);
      assert forall i :: 0 <= i < |init| ==> key(s[i]) in ks by {
        forall i | 0 <= i < |init| ensures key(s[i]) in ks {
          assert init[i] == s[i];
        }
      }
      assert forall j :: 0 <= j < |ks| ==> ks[j] in Seqs.Map(s, key) by {
        forall j | 0 <= j < |ks| ensures ks[j] in Seqs.Map(s, key) {
          var i :| 0 <= i < |init| && Seqs.Map(init, key)[i] == ks[j];
          assert Seqs.Map(s, key)[i] == ks[j];
        }
      }
      if k in ks then ks else ks + [k]
  }

  /** `ks` lists keys in the order of their first occurrences in `s`. */
  ghost predicate InFirstSeenOrder<T, K>(s: seq<T>, key: T -> K, ks: seq<K>) {
    forall i, j :: 0 <= i < j < |ks| ==> FirstIndex(s, key, ks[i]) < FirstIndex(s, key, ks[j])
  }

  /** The keys come in the order of their first occurrences in `s`. */
  lemma {:induction false} KeysInFirstSeenOrder<T, K>(s: seq<T>, key: T -> K)
    ensures InFirstSeenOrder(s, key, Keys(s, key))
  {
    if |s| > 0 {
      var init := s[..|s| - 1];
      var ks := Keys(init, key);
      var k := key(s[|s| - 1]);
      KeysInFirstSeenOrder(init, key);
      assert s == init + [s[|s| - 1]];
      OrderSurvivesAppend(init, s[|s| - 1], key, ks);
      if k !in ks {
        forall j | 0 <= j < |init| ensures key(s[j]) != k {
          assert init[j] == s[j];
        }
        FirstIndexAt(s, key, k, |init|);
        OrderExtends(s, key, ks, k);
        assert Keys(s, key) == ks + [k];
      } else {
        assert Keys(s, key) == ks;
      }
    }
  }

  /** Keys already present in `s` keep their relative order when an element is appended. */
  lemma {:induction false} OrderSurvivesAppend<T, K>(s: seq<T>, x: T, key: T -> K, ks: seq<K>)
    requires forall j :: 0 <= j < |ks| ==> ks[j] in Seqs.Map(s, key)
    requires InFirstSeenOrder(s, key, ks)
    ensures forall j :: 0 <= j < |ks| ==> FirstIndex(s + [x], key, ks[j]) < |s|
    ensures InFirstSeenOrder(s + [x], key, ks)
  {
    forall j | 0 <= j < |ks| ensures FirstIndex(s + [x], key, ks[j]) == FirstIndex(s, key, ks[j]) < |s| {
      FirstIndexFound(s, key, ks[j]);
      FirstIndexAppend(s, x, key, ks[j]);
    }
  }

  /** A key first seen after all of `ks` can follow them. */
  lemma {:induction false} OrderExtends<T, K>(s: seq<T>, key: T -> K, ks: seq<K>, k: K)
    requires InFirstSeenOrder(s, key, ks)
    requires forall j :: 0 <= j < |ks| ==> FirstIndex(s, key, ks[j]) < FirstIndex(s, key, k)
    ensures InFirstSeenOrder(s, key, ks + [k])
  {
    var r := ks + [k];
    forall i, j | 0 <= i < j < |r| ensures FirstIndex(s, key, r[i]) < FirstIndex(s, key, r[j]) {
      assert r[i] == ks[i];
      if j < |ks| {
        assert r[j] == ks[j];
      }
    }
  }

  /** The predicate "has key `k`". */
  function HasKey<T, K(==)>(key: T -> K, k: K): T -> bool {
    x => key(x) == k
  }

  /** The rows of the group with key `k`, in their original order. */
  function Members<T, K(==)>(s: seq<T>, key: T -> K, k: K): seq<T> {
    Seqs.Filter(s, HasKey(key, k))
  }

  /** A group starts with the first row that carries its key. */
  lemma {:induction false} MembersStartAtFirst<T, K>(s: seq<T>, key: T -> K, k: K)
    requires |Members(s, key, k)| > 0
    ensures FirstIndex(s, key, k) < |s|
    ensures Members(s, key, k)[0] == s[FirstIndex(s, key, k)]
  {
    var init := s[..|s| - 1];
    var x := s[|s| - 1];
    assert s == init + [x];
    assert Members(s, key, k) == Members(init, key, k) + (if key(x) == k then [x] else []);
    if |Members(init, key, k)| > 0 {
      MembersStartAtFirst(init, key, k);
      FirstIndexAppend(init, x, key, k);
    } else {
      forall j | 0 <= j < |init| ensures key(s[j]) != k {
        assert init[j] == s[j];
        var y := init[j];
        assert HasKey(key, k)(y) ==> y in Members(init, key, k);
      }
      FirstIndexAt(s, key, k, |init|);
    }
  }

  /** A key whose first occurrence is inside `s` has a non-empty group. */
  lemma {:induction false} FirstIndexHasMembers<T, K>(s: seq<T>, key: T -> K, k: K)
    requires FirstIndex(s, key, k) < |s|
    ensures |Members(s, key, k)| > 0
  {
    var y := s[FirstIndex(s, key, k)];
    assert HasKey(key, k)(y);
    assert y in Members(s, key, k);
  }

  /** The size of the group with key `k`, as a function of `k`. */
  function GroupSize<T, K(==)>(s: seq<T>, key: T -> K): K -> int {
    k => Seqs.Count(s, HasKey(key, k))
  }

  /** The predicate "equals `v`". */
  function EqualTo<K(==)>(v: K): K -> bool {
    k => k == v
  }

  /** A value occurs exactly once in a repeat-free sequence containing it. */
  lemma {:induction false} CountDistinctMember<K>(ks: seq<K>, v: K)
    requires Seqs.Distinct(ks)
    ensures Seqs.Count(ks, EqualTo(v)) == if v in ks then 1 else 0
  {
    if |ks| > 0 {
      var init := ks[..|ks| - 1];
      assert Seqs.Distinct(init) by {
        forall i, j | 0 <= i < j < |init| ensures init[i] != init[j] {
          assert init[i] == ks[i] && init[j] == ks[j];
        }
      }
      CountDistinctMember(init, v);
      assert ks == init + [ks[|ks| - 1]];
      if ks[|ks| - 1] == v {
        assert v !in init by {
          forall i | 0 <= i < |init| ensures init[i] != v {
            assert init[i] == ks[i];
          }
        }
      }
    }
  }

  /** Appending a row adds one to the size of its own group and nothing to the others. */
  lemma {:induction false} SumGroupSizesAppend<T, K>(ks: seq<K>, s: seq<T>, x: T, key: T -> K)
    ensures Seqs.Sum(ks, GroupSize(s + [x], key))
            == Seqs.Sum(ks, GroupSize(s, key)) + Seqs.Count(ks, EqualTo(key(x)))
  {
    if |ks| > 0 {
      SumGroupSizesAppend(ks[..|ks| - 1], s, x, key);
      assert (s + [x])[..|s + [x]| - 1] == s;
    }
  }

  /** The groups partition the rows: their sizes add up to the number of rows. */
  lemma {:induction false} GroupSizesSum<T, K>(s: seq<T>, key: T -> K)
    ensures Seqs.Sum(Keys(s, key), GroupSize(s, key)) == |s|
  {
    GroupSizesSumOver(Keys(s, key), s, key);
  }

  /** Every key found has at least one row. */
  lemma {:induction false} KeyHasMembers<T, K>(s: seq<T>, key: T -> K, j: nat)
    requires j < |Keys(s, key)|
    ensures Seqs.Count(s, HasKey(key, Keys(s, key)[j])) >= 1
  {
    var k := Keys(s, key)[j];
    assert k in Seqs.Map(s, key);
    var i :| 0 <= i < |s| && Seqs.Map(s, key)[i] == k;
    assert HasKey(key, k)(s[i]);
    assert s[i] in Members(s, key, k);
  }

  /** Group sizes add up to the number of rows over any repeat-free list of keys that covers every row. */
  lemma {:induction false} GroupSizesSumOver<T, K>(ks: seq<K>, s: seq<T>, key: T -> K)
    requires Seqs.Distinct(ks)
    requires forall i :: 0 <= i < |s| ==> key(s[i]) in ks
    ensures Seqs.Sum(ks, GroupSize(s, key)) == |s|
  {
    if |s| == 0 {
      assert forall k :: GroupSize(s, key)(k) == 0;
      ZeroSum(ks, GroupSize(s, key));
    } else {
      var init := s[..|s| - 1];
      var x := s[|s| - 1];
      assert s == init + [x];
      assert forall i :: 0 <= i < |init| ==> key(init[i]) in ks by {
        forall i | 0 <= i < |init| ensures key(init[i]) in ks {
          assert init[i] == s[i];
        }
      }
      GroupSizesSumOver(ks, init, key);
      SumGroupSizesAppend(ks, init, x, key);
      CountDistinctMember(ks, key(x));
    }
  }

  lemma {:induction false} ZeroSum<K>(ks: seq<K>, f: K -> int)
    requires forall k :: f(k) == 0
    ensures Seqs.Sum(ks, f) == 0
  {
    if |ks| > 0 {
      ZeroSum(ks[..|ks| - 1], f);
    }
  }

  /** The number of `p`-rows in the group with key `k`, as a function of `k`. */
  function GroupCount<T, K(==)>(s: seq<T>, key: T -> K, p: T -> bool): K -> int {
    k => Seqs.Count(Members(s, key, k), p)
  }

  /** Per-group counts of the rows that satisfy `p` add up to the count over all rows. */
  lemma {:induction false} FilteredGroupSizesSum<T, K>(s: seq<T>, key: T -> K, p: T -> bool)
    ensures Seqs.Sum(Keys(s, key), GroupCount(s, key, p)) == Seqs.Count(s, p)
  {
    var ks := Keys(s, key);
    var f := Seqs.Filter(s, p);
    forall j | 0 <= j < |ks|
      ensures GroupCount(s, key, p)(ks[j]) == GroupSize(f, key)(ks[j])
    {
      Seqs.CountFilterCommutes(s, HasKey(key, ks[j]), p);
    }
    Seqs.SumPointwise(ks, GroupCount(s, key, p), ks, GroupSize(f, key));
    forall i | 0 <= i < |f| ensures key(f[i]) in ks {
      var j :| 0 <= j < |s| && s[j] == f[i];
    }
    GroupSizesSumOver(ks, f, key);
  }
}
