/** Optional values, and the stable descending sort that the run store and the router rely on. */
module Common {
  datatype Option<+T> = None | Some(value: T)

  function Filter<T(!new)>(s: seq<T>, p: T -> bool): (r: seq<T>)
    ensures forall x :: x in r <==> x in s && p(x)
    ensures |r| <= |s|
  {
    if s == [] then [] else if p(s[0]) then [s[0]] + Filter(s[1..], p) else Filter(s[1..], p)
  }

  function Take<T(!new)>(s: seq<T>, n: nat): seq<T> {
    if |s| <= n then s else s[..n]
  }

  /** Moving the first element of one list to the end of another before it. */
  lemma Regroup<T>(a: seq<T>, b: seq<T>)
    ensures a == [] ==> a + b == b
    ensures b == [] ==> a + b == a
    ensures b != [] ==> a + [b[0]] + b[1..] == a + b
  {
  }

  lemma FilterHead<T(!new)>(s: seq<T>, p: T -> bool)
    requires s != []
    ensures Filter(s, p) == (if p(s[0]) then [s[0]] else []) + Filter(s[1..], p)
  {
  }

  lemma {:induction false} FilterAppend<T(!new)>(a: seq<T>, b: seq<T>, p: T -> bool)
    ensures Filter(a + b, p) == Filter(a, p) + Filter(b, p)
  {
    if a == [] {
      assert a + b == b;
    } else {
      assert (a + b)[0] == a[0] && (a + b)[1..] == a[1..] + b;
      FilterHead(a + b, p);
      FilterHead(a, p);
      FilterAppend(a[1..], b, p);
    }
  }

  predicate Before<T(==)>(s: seq<T>, x: T, y: T) {
    exists k, n :: 0 <= k < n < |s| && s[k] == x && s[n] == y
  }

  /** The elements of one list are some of those of another, in the same order. */
  ghost predicate InOrderOf<T(!new)>(a: seq<T>, b: seq<T>) {
    && (forall x :: x in a ==> x in b)
    && forall i, j {:trigger Before(b, a[i], a[j])} :: 0 <= i < j < |a| ==> Before(b, a[i], a[j])
  }

  /** Selecting keeps the order. */
  lemma {:induction false} FilterKeepsOrder<T(!new)>(s: seq<T>, p: T -> bool)
    ensures InOrderOf(Filter(s, p), s)
  {
    var f := Filter(s, p);
    forall i, j | 0 <= i < j < |f| ensures Before(s, f[i], f[j]) {
      PairInOrder(s, p, i, j);
    }
  }

  lemma {:induction false} PairInOrder<T(!new)>(s: seq<T>, p: T -> bool, i: nat, j: nat)
    requires i < j < |Filter(s, p)|
    ensures Before(s, Filter(s, p)[i], Filter(s, p)[j])
  {
    var f, rest := Filter(s, p), Filter(s[1..], p);
    if p(s[0]) && i == 0 {
      assert f[j] == rest[j - 1] && rest[j - 1] in s[1..];
      var n :| 0 <= n < |s[1..]| && s[1..][n] == f[j];
      assert s[0] == f[0] && s[n + 1] == f[j];
    } else {
      var d := if p(s[0]) then 1 else 0;
      PairInOrder(s[1..], p, i - d, j - d);
      var k, n :| 0 <= k < n < |s[1..]| && s[1..][k] == rest[i - d] && s[1..][n] == rest[j - d];
      assert s[k + 1] == f[i] && s[n + 1] == f[j];
    }
  }

  lemma FilterTake<T(!new)>(s: seq<T>, n: nat, p: T -> bool)
    ensures Filter(Take(s, n), p) <= Filter(s, p)
  {
    if |s| > n {
      FilterAppend(s[..n], s[n..], p);
      assert s[..n] + s[n..] == s;
    }
  }

  lemma {:induction false} FilterAll<T(!new)>(s: seq<T>, p: T -> bool)
    requires forall x :: x in s ==> p(x)
    ensures Filter(s, p) == s
  {
    if s != [] { FilterAll(s[1..], p); }
  }

  lemma {:induction false} FilterTwice<T(!new)>(s: seq<T>, p: T -> bool, q: T -> bool)
    requires forall x :: x in s ==> q(x) ==> p(x)
    ensures Filter(Filter(s, p), q) == Filter(s, q)
  {
    if s != [] { FilterTwice(s[1..], p, q); }
  }

  // ---- Array.prototype.sort with a descending numeric key ----

  /** `x` goes before the first element that is not larger, so an earlier element stays ahead of its
      equals. */
  function InsertDesc<T(!new)>(x: T, s: seq<T>, key: T -> int): (r: seq<T>)
    ensures |r| == |s| + 1
    ensures forall y :: y in r <==> y == x || y in s
  {
    if s == [] || key(s[0]) <= key(x) then [x] + s else [s[0]] + InsertDesc(x, s[1..], key)
  }

  function SortDesc<T(!new)>(s: seq<T>, key: T -> int): (r: seq<T>)
    ensures |r| == |s|
    ensures forall y :: y in r <==> y in s
  {
    if s == [] then [] else InsertDesc(s[0], SortDesc(s[1..], key), key)
  }

  ghost predicate SortedDesc<T(!new)>(s: seq<T>, key: T -> int) {
    forall i, j :: 0 <= i < j < |s| ==> key(s[i]) >= key(s[j])
  }

  lemma PrependSorted<T(!new)>(x: T, s: seq<T>, key: T -> int)
    requires SortedDesc(s, key) && (s == [] || key(s[0]) <= key(x) || forall y :: y in s ==> key(y) <= key(x))
    ensures SortedDesc([x] + s, key)
  {
    var r := [x] + s;
    forall i, j | 0 <= i < j < |r| ensures key(r[i]) >= key(r[j]) {
      assert r[j] == s[j - 1] && s[j - 1] in s;
      assert i > 0 ==> r[i] == s[i - 1];
      assert key(s[0]) >= key(s[j - 1]);
    }
  }

  lemma {:induction false} InsertDescSorted<T(!new)>(x: T, s: seq<T>, key: T -> int)
    requires SortedDesc(s, key)
    ensures SortedDesc(InsertDesc(x, s, key), key)
  {
    if s != [] && key(s[0]) > key(x) {
      assert SortedDesc(s[1..], key);
      InsertDescSorted(x, s[1..], key);
      assert forall y :: y in s[1..] ==> key(y) <= key(s[0]);
      PrependSorted(s[0], InsertDesc(x, s[1..], key), key);
    } else {
      PrependSorted(x, s, key);
    }
  }

  lemma {:induction false} SortDescSorted<T(!new)>(s: seq<T>, key: T -> int)
    ensures SortedDesc(SortDesc(s, key), key)
  {
    if s != [] {
      SortDescSorted(s[1..], key);
      InsertDescSorted(s[0], SortDesc(s[1..], key), key);
    }
  }

  lemma {:induction false} SortDescPermutes<T(!new)>(s: seq<T>, key: T -> int)
    ensures multiset(SortDesc(s, key)) == multiset(s)
  {
    if s != [] {
      SortDescPermutes(s[1..], key);
      InsertDescAdds(s[0], SortDesc(s[1..], key), key);
      assert s == [s[0]] + s[1..];
    }
  }

  lemma {:induction false} InsertDescAdds<T(!new)>(x: T, s: seq<T>, key: T -> int)
    ensures multiset(InsertDesc(x, s, key)) == multiset(s) + multiset{x}
  {
    if s != [] && key(s[0]) > key(x) {
      InsertDescAdds(x, s[1..], key);
      assert s == [s[0]] + s[1..];
    }
  }

  lemma {:induction false} SortDescIdentity<T(!new)>(s: seq<T>, key: T -> int)
    requires SortedDesc(s, key)
    ensures SortDesc(s, key) == s
  {
    if s != [] {
      SortDescIdentity(s[1..], key);
    }
  }

  lemma {:induction false} FilterInsert<T(!new)>(x: T, s: seq<T>, key: T -> int, p: T -> bool)
    requires SortedDesc(s, key)
    ensures Filter(InsertDesc(x, s, key), p) == if p(x) then InsertDesc(x, Filter(s, p), key) else Filter(s, p)
  {
    if s == [] {
    } else if key(s[0]) <= key(x) {
      assert ([x] + s)[1..] == s;
      var f := Filter(s, p);
      if f != [] {
        assert f[0] in f && f[0] in s;
        assert key(f[0]) <= key(x) by {
          var i :| 0 <= i < |s| && s[i] == f[0];
        }
      }
    } else {
      FilterInsert(x, s[1..], key, p);
      assert InsertDesc(x, s, key)[1..] == InsertDesc(x, s[1..], key);
    }
  }

  /** Stability: sorting commutes with selecting elements by any property. In particular elements
      with equal keys keep their order. */
  lemma {:induction false} FilterSort<T(!new)>(s: seq<T>, key: T -> int, p: T -> bool)
    ensures Filter(SortDesc(s, key), p) == SortDesc(Filter(s, p), key)
  {
    if s != [] {
      FilterSort(s[1..], key, p);
      SortDescSorted(s[1..], key);
      FilterInsert(s[0], SortDesc(s[1..], key), key, p);
    }
  }

  /** The selector of the elements with one key. */
  function KeyIs<T(!new)>(key: T -> int, k: int): T -> bool { x => key(x) == k }

  /** Sorting only regroups: the elements of each key are the same, in the same order. */
  lemma SortKeepsGroups<T(!new)>(s: seq<T>, key: T -> int, k: int)
    ensures Filter(SortDesc(s, key), KeyIs(key, k)) == Filter(s, KeyIs(key, k))
  {
    FilterSort(s, key, KeyIs(key, k));
    var group := Filter(s, KeyIs(key, k));
    assert forall i :: 0 <= i < |group| ==> group[i] in group;
    SortDescIdentity(group, key);
  }

  /** A stable sort is determined by its order and its groups, however it is computed. */
  lemma {:induction false} StableSortUnique<T(!new)>(a: seq<T>, b: seq<T>, key: T -> int)
    requires SortedDesc(a, key) && SortedDesc(b, key)
    requires forall k :: Filter(a, KeyIs(key, k)) == Filter(b, KeyIs(key, k))
    ensures a == b
  {
    HeadInGroup(a, key);
    HeadInGroup(b, key);
    if a != [] {
      HeadIsLargest(a, b[0], key);
      HeadIsLargest(b, a[0], key);
      assert a[0] == Filter(a, KeyIs(key, key(a[0])))[0] == b[0];
      forall k ensures Filter(a[1..], KeyIs(key, k)) == Filter(b[1..], KeyIs(key, k)) {
        assert Filter(a, KeyIs(key, k)) == Filter(b, KeyIs(key, k));
        if key(a[0]) == k {
          assert Filter(a[1..], KeyIs(key, k)) == Filter(a, KeyIs(key, k))[1..];
          assert Filter(b[1..], KeyIs(key, k)) == Filter(b, KeyIs(key, k))[1..];
        }
      }
      StableSortUnique(a[1..], b[1..], key);
      assert a == [a[0]] + a[1..] && b == [b[0]] + b[1..];
    }
  }

  lemma HeadInGroup<T(!new)>(s: seq<T>, key: T -> int)
    ensures s != [] ==> s[0] in Filter(s, KeyIs(key, key(s[0])))
  {
  }

  lemma HeadIsLargest<T(!new)>(s: seq<T>, x: T, key: T -> int)
    requires SortedDesc(s, key) && x in s
    ensures key(s[0]) >= key(x)
  {
    var i :| 0 <= i < |s| && s[i] == x;
  }

  /** Re-sorting after each addition gives the same as sorting once at the end. */
  lemma ResortAfterPush<T(!new)>(s: seq<T>, x: T, key: T -> int)
    ensures SortDesc(SortDesc(s, key) + [x], key) == SortDesc(s + [x], key)
  {
    var a, b := SortDesc(s, key) + [x], s + [x];
    SortDescSorted(a, key);
    SortDescSorted(b, key);
    forall k ensures Filter(SortDesc(a, key), KeyIs(key, k)) == Filter(SortDesc(b, key), KeyIs(key, k)) {
      SortKeepsGroups(a, key, k);
      SortKeepsGroups(b, key, k);
      SortKeepsGroups(s, key, k);
      FilterAppend(SortDesc(s, key), [x], KeyIs(key, k));
      FilterAppend(s, [x], KeyIs(key, k));
    }
    StableSortUnique(SortDesc(a, key), SortDesc(b, key), key);
  }

  /** `k` is the earliest of the elements with the largest key among those selected. */
  ghost predicate EarliestLargest<T(!new)>(s: seq<T>, p: T -> bool, key: T -> int, k: nat) {
    && k < |s| && p(s[k])
    && (forall j :: 0 <= j < |s| && p(s[j]) ==> key(s[j]) <= key(s[k]))
    && (forall j :: 0 <= j < k && p(s[j]) ==> key(s[j]) < key(s[k]))
  }

  /** The first selected element of the sorted list is the earliest largest one of the original. */
  lemma {:induction false} FirstOfSorted<T(!new)>(s: seq<T>, p: T -> bool, key: T -> int) returns (k: nat)
    requires Filter(SortDesc(s, key), p) != []
    ensures EarliestLargest(s, p, key, k) && Filter(SortDesc(s, key), p)[0] == s[k]
  {
    FilterSort(s, key, p);
    var rest := SortDesc(Filter(s[1..], p), key);
    FilterSort(s[1..], key, p);
    if rest == [] {
      assert forall x :: x in s[1..] ==> !p(x) by {
        assert forall x :: x in s[1..] && p(x) ==> x in Filter(s[1..], p) && x in rest;
      }
      k := 0;
      assert forall j :: 0 < j < |s| ==> s[j] in s[1..];
    } else {
      var n := FirstOfSorted(s[1..], p, key);
      assert forall j :: 0 < j < |s| ==> s[j] == s[1..][j - 1];
      k := if p(s[0]) && key(s[n + 1]) <= key(s[0]) then 0 else n + 1;
    }
  }
}
