/** Sequence queries the application delegates to the database or to
    `Array.prototype.filter`: keeping the elements that satisfy a predicate,
    ordering by a key descending (`orderBy: { createdAt: "desc" }`), and
    removing duplicates in first-occurrence order (`Array.from(new Set(...))`). */
module Queries {

  /** `r` is an order-preserving sublist of `s`. */
  predicate Sublist<T(==)>(r: seq<T>, s: seq<T>)
    decreases |s|
  {
    if r == [] then true
    else if s == [] then false
    else (r[0] == s[0] && Sublist(r[1..], s[1..])) || Sublist(r, s[1..])
  }

  /** Every sequence is a sublist of itself. */
  lemma {:induction false} SublistRefl<T>(s: seq<T>)
    ensures Sublist(s, s)
  {
    if s != [] {
      SublistRefl(s[1..]);
    }
  }

  /** A sublist holds only elements of the whole. */
  lemma {:induction false} SublistMembers<T>(r: seq<T>, s: seq<T>)
    requires Sublist(r, s)
    ensures forall x :: x in r ==> x in s
    decreases |s|
  {
    if r != [] && s != [] {
      if r[0] == s[0] && Sublist(r[1..], s[1..]) {
        SublistMembers(r[1..], s[1..]);
        assert forall x :: x in r ==> x == r[0] || x in r[1..];
      } else {
        SublistMembers(r, s[1..]);
      }
    }
  }

  /** A key that increases along a sequence increases along each of its
      sublists. */
  lemma {:induction false} SublistKeepsIncreasing<T>(r: seq<T>, s: seq<T>, f: T -> int)
    requires Sublist(r, s)
    requires forall i, j :: 0 <= i < j < |s| ==> f(s[i]) < f(s[j])
    ensures forall i, j :: 0 <= i < j < |r| ==> f(r[i]) < f(r[j])
    decreases |s|
  {
    if r != [] && s != [] {
      var t := s[1..];
      assert forall i, j :: 0 <= i < j < |t| ==> f(t[i]) < f(t[j]) by {
        forall i, j | 0 <= i < j < |t| ensures f(t[i]) < f(t[j]) {
          assert t[i] == s[i + 1] && t[j] == s[j + 1];
        }
      }
      if r[0] == s[0] && Sublist(r[1..], t) {
        SublistKeepsIncreasing(r[1..], t, f);
        SublistMembers(r[1..], t);
        forall i, j | 0 <= i < j < |r| ensures f(r[i]) < f(r[j]) {
          assert r[j] == r[1..][j - 1];
          if i == 0 {
            assert r[j] in r[1..];
            assert r[j] in t;
            var k :| 0 <= k < |t| && t[k] == r[j];
            assert s[k + 1] == r[j];
          } else {
            assert r[i] == r[1..][i - 1];
          }
        }
      } else {
        SublistKeepsIncreasing(r, t, f);
      }
    }
  }

  /** `s.filter(p)`. */
  function Filter<T(!new)>(s: seq<T>, p: T -> bool): (r: seq<T>)
    ensures |r| <= |s|
    ensures forall i :: 0 <= i < |r| ==> p(r[i])
    ensures forall x :: x in r <==> x in s && p(x)
  {
    if s == [] then [] else (if p(s[0]) then [s[0]] else []) + Filter(s[1..], p)
  }

  /** Filtering keeps the survivors in their original order. */
  lemma {:induction false} FilterSublist<T(!new)>(s: seq<T>, p: T -> bool)
    ensures Sublist(Filter(s, p), s)
  {
    if s != [] {
      FilterSublist(s[1..], p);
      var r, r1 := Filter(s, p), Filter(s[1..], p);
      if p(s[0]) {
        assert r == [s[0]] + r1;
        assert r[0] == s[0] && r[1..] == r1;
        assert Sublist(r[1..], s[1..]);
      } else {
        assert r == r1;
      }
    }
  }

  /** Filtering distributes over concatenation. */
  lemma {:induction false} FilterAppend<T(!new)>(a: seq<T>, b: seq<T>, p: T -> bool)
    ensures Filter(a + b, p) == Filter(a, p) + Filter(b, p)
  {
    if a != [] {
      FilterAppend(a[1..], b, p);
      var h := if p(a[0]) then [a[0]] else [];
      assert (a + b)[0] == a[0] && (a + b)[1..] == a[1..] + b;
      assert Filter(a + b, p) == h + Filter(a[1..] + b, p);
      assert Filter(a, p) == h + Filter(a[1..], p);
    } else {
      assert a + b == b;
    }
  }

  /** Filtering with a predicate every element satisfies changes nothing. */
  lemma {:induction false} FilterAll<T(!new)>(s: seq<T>, p: T -> bool)
    requires forall i :: 0 <= i < |s| ==> p(s[i])
    ensures Filter(s, p) == s
  {
    if s != [] {
      FilterAll(s[1..], p);
    }
  }

  /** Each element occurs in a filtered sequence as often as in the original
      when it passes, and not at all when it does not. */
  lemma {:induction false} FilterMultiset<T(!new)>(s: seq<T>, p: T -> bool, x: T)
    ensures multiset(Filter(s, p))[x] == if p(x) then multiset(s)[x] else 0
  {
    if s != [] {
      FilterMultiset(s[1..], p, x);
      assert s == [s[0]] + s[1..];
    }
  }

  predicate SortedDesc<T>(s: seq<T>, key: T -> int)
  {
    forall i, j :: 0 <= i < j < |s| ==> key(s[i]) >= key(s[j])
  }

  /** Inserts `x` in front of the first element whose key is not larger. */
  function InsertDesc<T>(x: T, s: seq<T>, key: T -> int): (r: seq<T>)
    requires SortedDesc(s, key)
    ensures |r| == |s| + 1 && (r[0] == x || (s != [] && r[0] == s[0]))
    ensures SortedDesc(r, key)
    ensures multiset(r) == multiset(s) + multiset{x}
  {
    if s == [] || key(x) >= key(s[0]) then [x] + s
    else
      assert s == [s[0]] + s[1..];
      [s[0]] + InsertDesc(x, s[1..], key)
  }

  /** The database's ordering: by `key` descending, equal keys in storage order. */
  function SortDesc<T>(s: seq<T>, key: T -> int): (r: seq<T>)
    ensures SortedDesc(r, key)
    ensures multiset(r) == multiset(s)
  {
    if s == [] then []
    else
      assert s == [s[0]] + s[1..];
      InsertDesc(s[0], SortDesc(s[1..], key), key)
  }

  /** The first element of a sorted sequence has the largest key. */
  lemma HeadIsLargest<T>(s: seq<T>, key: T -> int, y: T)
    requires SortedDesc(s, key) && y in s
    ensures key(s[0]) >= key(y)
  {
    var k :| 0 <= k < |s| && s[k] == y;
  }

  lemma {:induction false} FilterSorted<T(!new)>(s: seq<T>, key: T -> int, p: T -> bool)
    requires SortedDesc(s, key)
    ensures SortedDesc(Filter(s, p), key)
  {
    if s != [] {
      FilterSorted(s[1..], key, p);
      var f := Filter(s[1..], p);
      forall y | y in f ensures key(s[0]) >= key(y) {
        HeadIsLargest(s, key, y);
      }
    }
  }

  /** Inserting an element at the front of a sorted sequence commutes with filtering. */
  lemma FilterInsertFront<T(!new)>(x: T, s: seq<T>, key: T -> int, p: T -> bool)
    requires SortedDesc(s, key) && SortedDesc(Filter(s, p), key)
    requires s == [] || key(x) >= key(s[0])
    ensures Filter(InsertDesc(x, s, key), p)
      == if p(x) then InsertDesc(x, Filter(s, p), key) else Filter(s, p)
  {
    var f := Filter(s, p);
    assert InsertDesc(x, s, key) == [x] + s;
    FilterAppend([x], s, p);
    assert Filter([x], p) == if p(x) then [x] else [] by {
      assert [x][1..] == [];
    }
    if p(x) && f != [] {
      HeadIsLargest(s, key, f[0]);
    }
  }

  lemma {:induction false} FilterInsert<T(!new)>(x: T, s: seq<T>, key: T -> int, p: T -> bool)
    requires SortedDesc(s, key)
    ensures SortedDesc(Filter(s, p), key)
    ensures Filter(InsertDesc(x, s, key), p)
      == if p(x) then InsertDesc(x, Filter(s, p), key) else Filter(s, p)
  {
    FilterSorted(s, key, p);
    if s == [] || key(x) >= key(s[0]) {
      FilterInsertFront(x, s, key, p);
    } else {
      FilterInsert(x, s[1..], key, p);
      var t := InsertDesc(x, s[1..], key);
      var f1 := Filter(s[1..], p);
      assert InsertDesc(x, s, key) == [s[0]] + t;
      assert ([s[0]] + t)[0] == s[0] && ([s[0]] + t)[1..] == t;
      assert Filter([s[0]] + t, p) == (if p(s[0]) then [s[0]] else []) + Filter(t, p);
      if p(s[0]) {
        assert Filter(s, p) == [s[0]] + f1;
        if p(x) {
          assert ([s[0]] + f1)[0] == s[0] && ([s[0]] + f1)[1..] == f1;
          assert InsertDesc(x, [s[0]] + f1, key) == [s[0]] + InsertDesc(x, f1, key);
        }
      } else {
        assert Filter(s, p) == f1;
      }
    }
  }

  /** Filtering before or after the ordering gives the same sequence. */
  lemma {:induction false} FilterSortCommute<T(!new)>(s: seq<T>, key: T -> int, p: T -> bool)
    ensures Filter(SortDesc(s, key), p) == SortDesc(Filter(s, p), key)
  {
    if s != [] {
      FilterSortCommute(s[1..], key, p);
      FilterInsert(s[0], SortDesc(s[1..], key), key, p);
      var f1 := Filter(s[1..], p);
      assert SortDesc(s, key) == InsertDesc(s[0], SortDesc(s[1..], key), key);
      if p(s[0]) {
        assert Filter(s, p) == [s[0]] + f1;
        assert ([s[0]] + f1)[0] == s[0] && ([s[0]] + f1)[1..] == f1;
        assert SortDesc([s[0]] + f1, key) == InsertDesc(s[0], SortDesc(f1, key), key);
      } else {
        assert Filter(s, p) == f1;
      }
    }
  }

  predicate NoDuplicates<T(==)>(s: seq<T>)
  {
    forall i, j :: 0 <= i < j < |s| ==> s[i] != s[j]
  }

  /** The position of the first occurrence of `x` in `s`. */
  function FirstIndex<T(==)>(s: seq<T>, x: T): (k: nat)
    requires x in s
    ensures k < |s| && s[k] == x && x !in s[..k]
  {
    if s[0] == x then 0 else 1 + FirstIndex(s[1..], x)
  }

  lemma {:induction false} FirstIndexPrefix<T>(s: seq<T>, n: nat, x: T)
    requires n <= |s| && x in s[..n]
    ensures FirstIndex(s, x) == FirstIndex(s[..n], x)
  {
    if s[0] != x {
      assert s[1..][..n - 1] == s[..n][1..];
      FirstIndexPrefix(s[1..], n - 1, x);
    }
  }

  /** The position of the first occurrence of `x` in `s`, or `|s|` when `x`
      does not occur. */
  function Position<T(==)>(s: seq<T>, x: T): nat
  {
    if x in s then FirstIndex(s, x) else |s|
  }

  function PositionIn<T(==)>(s: seq<T>): T -> int
  {
    x => Position(s, x)
  }

  /** `Array.from(new Set(s))`: each distinct element once, in the order of
      its first occurrence. */
  function Distinct<T(==,!new)>(s: seq<T>): (r: seq<T>)
    ensures forall x :: x in r <==> x in s
    ensures NoDuplicates(r)
    ensures forall i, j :: 0 <= i < j < |r| ==> FirstIndex(s, r[i]) < FirstIndex(s, r[j])
    decreases |s|
  {
    if s == [] then []
    else
      var n := |s| - 1;
      var d := Distinct(s[..n]);
      assert forall x :: x in s <==> x in s[..n] || x == s[n] by {
        assert s == s[..n] + [s[n]];
      }
      forall x | x in s[..n] ensures FirstIndex(s, x) == FirstIndex(s[..n], x) {
        FirstIndexPrefix(s, n, x);
      }
      if s[n] in d then d
      else
        assert FirstIndex(s, s[n]) == n;
        d + [s[n]]
  }
}
