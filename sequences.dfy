/** The two array operations the storefront's derivations are built from:
    `Array.prototype.filter` and the stable `Array.prototype.sort`
    (ECMA-262, section 23.1.3.30: elements that compare equal keep their
    original order). The product comparators subtract an integer key of one
    product from the other's, and the car comparator ranks the current car
    before every other car, which is an integer key of 0 or 1. So sorting is
    modelled as a stable sort by an integer key, ascending; a descending
    comparator is the ascending sort by the negated key. */
module Sequences {

  /** The elements satisfying `p`, in their original order. */
  function Filter<T>(s: seq<T>, p: T -> bool): (r: seq<T>)
    ensures |r| <= |s|
  {
    if s == [] then [] else (if p(s[0]) then [s[0]] else []) + Filter(s[1..], p)
  }

  /** The filtered elements are exactly the elements of `s` that satisfy `p`. */
  lemma {:induction false} FilterElements<T>(s: seq<T>, p: T -> bool)
    ensures forall i :: 0 <= i < |Filter(s, p)| ==> p(Filter(s, p)[i]) && Filter(s, p)[i] in s
    ensures forall i :: 0 <= i < |s| && p(s[i]) ==> s[i] in Filter(s, p)
  {
    if s != [] {
      FilterElements(s[1..], p);
      var r, t := Filter(s, p), Filter(s[1..], p);
      forall i | 0 <= i < |r| ensures p(r[i]) && r[i] in s {
        if p(s[0]) && i == 0 {
        } else {
          var j := if p(s[0]) then i - 1 else i;
          assert r[i] == t[j];
          assert t[j] in s[1..];
        }
      }
      forall i | 0 <= i < |s| && p(s[i]) ensures s[i] in r {
        if i > 0 {
          assert s[i] == s[1..][i - 1];
        }
      }
    }
  }

  /** `a` is `b` with some elements deleted and the rest in order. */
  predicate IsSubsequence<T(==)>(a: seq<T>, b: seq<T>)
  {
    if a == [] then true
    else if b == [] then false
    else if a[0] == b[0] then IsSubsequence(a[1..], b[1..])
    else IsSubsequence(a, b[1..])
  }

  /** Non-decreasing by `key`. */
  predicate SortedBy<T>(s: seq<T>, key: T -> int)
  {
    forall i, j :: 0 <= i < j < |s| ==> key(s[i]) <= key(s[j])
  }

  /** The elements of `s` whose key is `k`, in their order in `s`. */
  function KeyClass<T>(s: seq<T>, key: T -> int, k: int): seq<T>
  {
    Filter(s, x => key(x) == k)
  }

  /** Stability: among elements of equal key, `r` keeps the order of `s`. */
  ghost predicate SameKeyOrder<T>(r: seq<T>, s: seq<T>, key: T -> int)
  {
    forall k :: KeyClass(r, key, k) == KeyClass(s, key, k)
  }

  /** Inserts `x` in front of the first element whose key is not below its own. */
  function Insert<T>(x: T, t: seq<T>, key: T -> int): (r: seq<T>)
    ensures |r| == |t| + 1
  {
    if t == [] || key(x) <= key(t[0]) then [x] + t
    else [t[0]] + Insert(x, t[1..], key)
  }

  /** Stable sort by `key`, ascending. */
  function SortByKey<T>(s: seq<T>, key: T -> int): (r: seq<T>)
    ensures |r| == |s|
  {
    if s == [] then [] else Insert(s[0], SortByKey(s[1..], key), key)
  }

  // ----- Filter -----

  lemma {:induction false} FilterAppend<T>(a: seq<T>, b: seq<T>, p: T -> bool)
    ensures Filter(a + b, p) == Filter(a, p) + Filter(b, p)
  {
    if a == [] {
      assert a + b == b;
    } else {
      var h := if p(a[0]) then [a[0]] else [];
      assert (a + b)[0] == a[0];
      assert (a + b)[1..] == a[1..] + b;
      assert Filter(a + b, p) == h + Filter(a[1..] + b, p);
      FilterAppend(a[1..], b, p);
      SeqAssoc(h, Filter(a[1..], p), Filter(b, p));
    }
  }

  /** Filtering around one element: the kept part before it, then it if kept, then the kept part after it. */
  lemma FilterAround<T>(a: seq<T>, x: T, b: seq<T>, p: T -> bool)
    ensures Filter(a + [x] + b, p) == Filter(a, p) + (if p(x) then [x] else []) + Filter(b, p)
  {
    FilterAppend(a + [x], b, p);
    FilterAppend(a, [x], p);
    assert Filter([x], p) == if p(x) then [x] else [];
  }

  /** Filtering out exactly one element between two kept runs. */
  lemma FilterDropsOne<T>(a: seq<T>, x: T, b: seq<T>, p: T -> bool)
    requires forall i :: 0 <= i < |a| ==> p(a[i])
    requires !p(x)
    requires forall i :: 0 <= i < |b| ==> p(b[i])
    ensures Filter(a + [x] + b, p) == a + b
  {
    FilterAround(a, x, b, p);
    FilterKeepsAll(a, p);
    FilterKeepsAll(b, p);
    DropEmptyMiddle(a, b);
  }

  lemma DropEmptyMiddle<T>(a: seq<T>, b: seq<T>)
    ensures a + [] + b == a + b
  {
  }

  /** Filtering keeps exactly one element between two dropped runs. */
  lemma FilterKeepsOne<T>(a: seq<T>, x: T, b: seq<T>, p: T -> bool)
    requires forall i :: 0 <= i < |a| ==> !p(a[i])
    requires p(x)
    requires forall i :: 0 <= i < |b| ==> !p(b[i])
    ensures Filter(a + [x] + b, p) == [x]
  {
    FilterAround(a, x, b, p);
    FilterDropsAll(a, p);
    FilterDropsAll(b, p);
    OnlyMiddle(x);
  }

  lemma OnlyMiddle<T>(x: T)
    ensures [] + [x] + [] == [x]
  {
  }

  lemma {:induction false} FilterKeepsAll<T>(s: seq<T>, p: T -> bool)
    requires forall i :: 0 <= i < |s| ==> p(s[i])
    ensures Filter(s, p) == s
  {
    if s != [] {
      FilterKeepsAll(s[1..], p);
    }
  }

  lemma {:induction false} FilterDropsAll<T>(s: seq<T>, p: T -> bool)
    requires forall i :: 0 <= i < |s| ==> !p(s[i])
    ensures Filter(s, p) == []
  {
    if s != [] {
      FilterDropsAll(s[1..], p);
    }
  }

  lemma {:induction false} FilterIsSubsequence<T>(s: seq<T>, p: T -> bool)
    ensures IsSubsequence(Filter(s, p), s)
  {
    if s != [] {
      FilterIsSubsequence(s[1..], p);
      if p(s[0]) {
        var r := Filter(s, p);
        assert r == [s[0]] + Filter(s[1..], p);
        assert r[0] == s[0] && r[1..] == Filter(s[1..], p);
      } else {
        assert Filter(s, p) == Filter(s[1..], p);
        SubsequenceOfTail(Filter(s[1..], p), s);
      }
    }
  }

  lemma {:induction false} FilterMultiset<T>(s: seq<T>, p: T -> bool)
    ensures multiset(Filter(s, p)) <= multiset(s)
  {
    if s != [] {
      FilterMultiset(s[1..], p);
      assert s == [s[0]] + s[1..];
    }
  }

  /** Filtering twice with the same predicate changes nothing. */
  lemma FilterIdempotent<T>(s: seq<T>, p: T -> bool)
    ensures Filter(Filter(s, p), p) == Filter(s, p)
  {
    FilterElements(s, p);
    FilterKeepsAll(Filter(s, p), p);
  }

  // ----- Subsequences -----

  lemma {:induction false} SubsequenceOfTail<T>(a: seq<T>, b: seq<T>)
    requires b != [] && IsSubsequence(a, b[1..])
    ensures IsSubsequence(a, b)
  {
    if a != [] && a[0] == b[0] {
      // a[0] == b[0], so the greedy match uses b[0]; a[1..] must then fit in b[1..]
      SubsequenceDropHead(a, b[1..]);
    }
  }

  lemma {:induction false} SubsequenceDropHead<T>(a: seq<T>, b: seq<T>)
    requires a != [] && IsSubsequence(a, b)
    ensures IsSubsequence(a[1..], b)
  {
    if a[0] == b[0] {
      if a[1..] != [] {
        SubsequenceOfTail(a[1..], b);
      }
    } else {
      SubsequenceDropHead(a, b[1..]);
      if a[1..] != [] {
        SubsequenceOfTail(a[1..], b);
      }
    }
  }

  lemma {:induction false} PrefixIsSubsequence<T>(a: seq<T>, n: nat)
    requires n <= |a|
    ensures IsSubsequence(a[..n], a)
  {
    if n > 0 {
      assert a[..n][1..] == a[1..][..n - 1];
      PrefixIsSubsequence(a[1..], n - 1);
    }
  }

  lemma {:induction false} SubsequenceTransitive<T>(a: seq<T>, b: seq<T>, c: seq<T>)
    requires IsSubsequence(a, b) && IsSubsequence(b, c)
    ensures IsSubsequence(a, c)
    decreases |c|, |b|
  {
    if a != [] {
      assert b != [] && c != [];
      if b[0] == c[0] {
        if a[0] == b[0] {
          SubsequenceTransitive(a[1..], b[1..], c[1..]);
        } else {
          SubsequenceTransitive(a, b[1..], c[1..]);
          SubsequenceOfTail(a, c);
        }
      } else {
        SubsequenceTransitive(a, b, c[1..]);
        SubsequenceOfTail(a, c);
      }
    }
  }

  lemma {:induction false} SubsequenceElements<T>(a: seq<T>, b: seq<T>)
    requires IsSubsequence(a, b)
    ensures forall i :: 0 <= i < |a| ==> a[i] in b
  {
    if a != [] {
      if a[0] == b[0] {
        SubsequenceElements(a[1..], b[1..]);
      } else {
        SubsequenceElements(a, b[1..]);
      }
    }
  }

  // ----- Stable sort -----

  lemma {:induction false} InsertMultiset<T>(x: T, t: seq<T>, key: T -> int)
    ensures multiset(Insert(x, t, key)) == multiset(t) + multiset{x}
  {
    if t != [] && key(x) > key(t[0]) {
      InsertMultiset(x, t[1..], key);
      assert t == [t[0]] + t[1..];
    }
  }

  lemma {:induction false} InsertSorted<T>(x: T, t: seq<T>, key: T -> int)
    requires SortedBy(t, key)
    ensures SortedBy(Insert(x, t, key), key)
    ensures Insert(x, t, key) != [] && Insert(x, t, key)[0] == (if t == [] || key(x) <= key(t[0]) then x else t[0])
  {
    if t != [] && key(x) > key(t[0]) {
      var tail := t[1..];
      assert SortedBy(tail, key) by {
        forall i, j | 0 <= i < j < |tail| ensures key(tail[i]) <= key(tail[j]) {
          assert tail[i] == t[i + 1] && tail[j] == t[j + 1];
        }
      }
      InsertSorted(x, tail, key);
      var rest := Insert(x, tail, key);
      assert key(t[0]) <= key(rest[0]) by {
        if tail != [] {
          assert tail[0] == t[1];
        }
      }
      var r := Insert(x, t, key);
      assert r == [t[0]] + rest;
      forall i, j | 0 <= i < j < |r| ensures key(r[i]) <= key(r[j]) {
        assert r[j] == rest[j - 1];
        if i > 0 {
          assert r[i] == rest[i - 1];
        } else if j > 1 {
          assert key(rest[0]) <= key(rest[j - 1]);
        }
      }
    }
  }

  lemma {:induction false} InsertKeyClass<T>(x: T, t: seq<T>, key: T -> int, k: int)
    ensures KeyClass(Insert(x, t, key), key, k)
         == (if key(x) == k then [x] else []) + KeyClass(t, key, k)
  {
    if t == [] || key(x) <= key(t[0]) {
      assert Insert(x, t, key)[1..] == t;
    } else {
      InsertKeyClass(x, t[1..], key, k);
      assert Insert(x, t, key)[1..] == Insert(x, t[1..], key);
    }
  }

  /** The sorted sequence is a permutation of its input. */
  lemma {:induction false} SortByKeyPermutes<T>(s: seq<T>, key: T -> int)
    ensures multiset(SortByKey(s, key)) == multiset(s)
  {
    if s != [] {
      SortByKeyPermutes(s[1..], key);
      InsertMultiset(s[0], SortByKey(s[1..], key), key);
      assert s == [s[0]] + s[1..];
    }
  }

  /** Every element of the sorted sequence comes from the input. */
  lemma SortByKeyElements<T>(s: seq<T>, key: T -> int)
    ensures forall i :: 0 <= i < |SortByKey(s, key)| ==> SortByKey(s, key)[i] in s
  {
    var r := SortByKey(s, key);
    SortByKeyPermutes(s, key);
    forall i | 0 <= i < |r| ensures r[i] in s {
      assert r[i] in multiset(r);
    }
  }

  /** The sorted sequence is non-decreasing by key. */
  lemma {:induction false} SortByKeySorted<T>(s: seq<T>, key: T -> int)
    ensures SortedBy(SortByKey(s, key), key)
  {
    if s != [] {
      SortByKeySorted(s[1..], key);
      InsertSorted(s[0], SortByKey(s[1..], key), key);
    }
  }

  /** The sort is stable: each key class keeps the order it has in the input. */
  lemma {:induction false} SortByKeyStable<T>(s: seq<T>, key: T -> int)
    ensures SameKeyOrder(SortByKey(s, key), s, key)
  {
    forall k ensures KeyClass(SortByKey(s, key), key, k) == KeyClass(s, key, k) {
      SortByKeyClass(s, key, k);
    }
  }

  lemma {:induction false} SortByKeyClass<T>(s: seq<T>, key: T -> int, k: int)
    ensures KeyClass(SortByKey(s, key), key, k) == KeyClass(s, key, k)
  {
    if s != [] {
      SortByKeyClass(s[1..], key, k);
      InsertKeyClass(s[0], SortByKey(s[1..], key), key, k);
    }
  }

  /** Sorting a sequence that is already sorted returns it unchanged. */
  lemma {:induction false} SortByKeyOfSorted<T>(s: seq<T>, key: T -> int)
    requires SortedBy(s, key)
    ensures SortByKey(s, key) == s
  {
    if s != [] {
      assert SortedBy(s[1..], key);
      SortByKeyOfSorted(s[1..], key);
    }
  }

  /** Sorting twice is sorting once. */
  lemma SortByKeyIdempotent<T>(s: seq<T>, key: T -> int)
    ensures SortByKey(SortByKey(s, key), key) == SortByKey(s, key)
  {
    SortByKeySorted(s, key);
    SortByKeyOfSorted(SortByKey(s, key), key);
  }

  /** A stable sort is unique: any sorted sequence with the same key classes as
      `s` is `SortByKey(s, key)`. So the insertion sort above agrees with any
      conforming implementation of the language's stable sort. */
  lemma StableSortIsUnique<T>(s: seq<T>, r: seq<T>, key: T -> int)
    requires SortedBy(r, key) && SameKeyOrder(r, s, key)
    ensures r == SortByKey(s, key)
  {
    var t := SortByKey(s, key);
    SortByKeySorted(s, key);
    SortByKeyStable(s, key);
    SortedWithSameClassesEqual(r, t, key);
  }

  lemma KeyClassOfHead<T>(s: seq<T>, key: T -> int)
    requires s != []
    ensures KeyClass(s, key, key(s[0])) != []
  {
    KeyClassCons(s, key, key(s[0]));
  }

  lemma {:induction false} KeyClassCons<T>(s: seq<T>, key: T -> int, k: int)
    requires s != []
    ensures KeyClass(s, key, k) == (if key(s[0]) == k then [s[0]] else []) + KeyClass(s[1..], key, k)
  {
  }

  lemma {:induction false} SortedWithSameClassesEqual<T>(r: seq<T>, t: seq<T>, key: T -> int)
    requires SortedBy(r, key) && SortedBy(t, key)
    requires forall k :: KeyClass(r, key, k) == KeyClass(t, key, k)
    ensures r == t
    decreases |r|
  {
    if r == [] || t == [] {
      if r != [] {
        KeyClassOfHead(r, key);
      } else if t != [] {
        KeyClassOfHead(t, key);
      }
    } else {
      var m, n := key(r[0]), key(t[0]);
      KeyClassCons(r, key, m);
      KeyClassCons(t, key, n);
      KeyClassElements(t, key, m);
      KeyClassElements(r, key, n);
      assert r[0] in KeyClass(t, key, m);
      assert key(t[0]) <= m;
      assert t[0] in KeyClass(r, key, n);
      assert m <= key(t[0]);
      KeyClassCons(t, key, m);
      assert r[0] == KeyClass(r, key, m)[0] == KeyClass(t, key, m)[0] == t[0];
      forall k ensures KeyClass(r[1..], key, k) == KeyClass(t[1..], key, k) {
        KeyClassCons(r, key, k);
        KeyClassCons(t, key, k);
        var h := if key(r[0]) == k then [r[0]] else [];
        assert h + KeyClass(r[1..], key, k) == h + KeyClass(t[1..], key, k);
        assert KeyClass(r[1..], key, k) == (h + KeyClass(r[1..], key, k))[|h|..];
        assert KeyClass(t[1..], key, k) == (h + KeyClass(t[1..], key, k))[|h|..];
      }
      assert SortedBy(r[1..], key);
      assert SortedBy(t[1..], key);
      SortedWithSameClassesEqual(r[1..], t[1..], key);
      assert r == [r[0]] + r[1..];
      assert t == [t[0]] + t[1..];
    }
  }

  /** Sorting by a two-valued key (0 first, then 1) is a stable partition. */
  lemma {:induction false} SortByBinaryKeyPartitions<T>(s: seq<T>, key: T -> int)
    requires forall i :: 0 <= i < |s| ==> key(s[i]) == 0 || key(s[i]) == 1
    ensures SortByKey(s, key) == KeyClass(s, key, 0) + KeyClass(s, key, 1)
  {
    if s != [] {
      var tail := s[1..];
      assert forall i :: 0 <= i < |tail| ==> key(tail[i]) == 0 || key(tail[i]) == 1 by {
        forall i | 0 <= i < |tail| ensures key(tail[i]) == 0 || key(tail[i]) == 1 {
          assert tail[i] == s[i + 1];
        }
      }
      SortByBinaryKeyPartitions(tail, key);
      PartitionStep(s, key);
    }
  }

  lemma PartitionStep<T>(s: seq<T>, key: T -> int)
    requires s != [] && (key(s[0]) == 0 || key(s[0]) == 1)
    requires SortByKey(s[1..], key) == KeyClass(s[1..], key, 0) + KeyClass(s[1..], key, 1)
    ensures SortByKey(s, key) == KeyClass(s, key, 0) + KeyClass(s, key, 1)
  {
    var x, a, b := s[0], KeyClass(s[1..], key, 0), KeyClass(s[1..], key, 1);
    assert (forall i :: 0 <= i < |a| ==> key(a[i]) == 0) && (forall i :: 0 <= i < |b| ==> key(b[i]) == 1) by {
      KeyClassElements(s[1..], key, 0);
      KeyClassElements(s[1..], key, 1);
    }
    assert KeyClass(s, key, 0) == (if key(x) == 0 then [x] else []) + a by {
      KeyClassCons(s, key, 0);
    }
    assert KeyClass(s, key, 1) == (if key(x) == 1 then [x] else []) + b by {
      KeyClassCons(s, key, 1);
    }
    assert SortByKey(s, key) == Insert(x, a + b, key);
    PartitionCombine(x, a, b, key, SortByKey(s, key), KeyClass(s, key, 0), KeyClass(s, key, 1));
  }

  /** Inserting a 0- or 1-keyed element into a sequence of 0-keyed elements
      followed by 1-keyed ones lands it at the end of its own group. */
  lemma PartitionCombine<T>(x: T, a: seq<T>, b: seq<T>, key: T -> int, r: seq<T>, c0: seq<T>, c1: seq<T>)
    requires key(x) == 0 || key(x) == 1
    requires forall i :: 0 <= i < |a| ==> key(a[i]) == 0
    requires forall i :: 0 <= i < |b| ==> key(b[i]) == 1
    requires r == Insert(x, a + b, key)
    requires c0 == (if key(x) == 0 then [x] else []) + a
    requires c1 == (if key(x) == 1 then [x] else []) + b
    ensures r == c0 + c1
  {
    if key(x) == 0 {
      assert c0 == [x] + a && c1 == b;
      InsertFirst(x, a, b, key);
    } else {
      assert c0 == a && c1 == [x] + b;
      InsertAfterLowerKeys(x, a, b, key);
      SeqAssoc(a, [x], b);
    }
  }

  lemma SeqAssoc<T>(a: seq<T>, b: seq<T>, c: seq<T>)
    ensures a + b + c == a + (b + c)
  {
  }

  lemma InsertFirst<T>(x: T, a: seq<T>, b: seq<T>, key: T -> int)
    requires forall i :: 0 <= i < |a| ==> key(x) <= key(a[i])
    requires forall i :: 0 <= i < |b| ==> key(x) <= key(b[i])
    ensures Insert(x, a + b, key) == ([x] + a) + b
  {
    if a != [] {
      assert (a + b)[0] == a[0];
    } else if b != [] {
      assert (a + b)[0] == b[0];
    }
    assert [x] + (a + b) == ([x] + a) + b;
  }

  /** Every element of a key class has that key and comes from the sequence. */
  lemma {:induction false} KeyClassElements<T>(s: seq<T>, key: T -> int, k: int)
    ensures forall i :: 0 <= i < |KeyClass(s, key, k)| ==> key(KeyClass(s, key, k)[i]) == k && KeyClass(s, key, k)[i] in s
  {
    if s != [] {
      KeyClassElements(s[1..], key, k);
      KeyClassCons(s, key, k);
      var c, t := KeyClass(s, key, k), KeyClass(s[1..], key, k);
      forall i | 0 <= i < |c| ensures key(c[i]) == k && c[i] in s {
        if key(s[0]) != k || i > 0 {
          var j := if key(s[0]) == k then i - 1 else i;
          assert c[i] == t[j];
          assert t[j] in s[1..];
        }
      }
    }
  }

  lemma {:induction false} InsertAfterLowerKeys<T>(x: T, a: seq<T>, b: seq<T>, key: T -> int)
    requires forall i :: 0 <= i < |a| ==> key(a[i]) < key(x)
    requires forall i :: 0 <= i < |b| ==> key(x) <= key(b[i])
    ensures Insert(x, a + b, key) == a + [x] + b
  {
    if a == [] {
      assert a + b == b;
    } else {
      assert (a + b)[0] == a[0];
      assert (a + b)[1..] == a[1..] + b;
      InsertAfterLowerKeys(x, a[1..], b, key);
    }
  }
}
