/**
 * `Array.prototype.filter`, `Array.prototype.map` and `Array.prototype.sort` as the source
 * uses them.
 * Every comparator in the source is `key(b) - key(a)` for an integer key (or has the
 * same sign as one), and the built-in sort is stable, so a sort call is the stable
 * descending sort by that key: an insertion sort here.
 */
module Sorting {

  /** `s.filter(p)`: the elements that satisfy `p`, in their original order. */
  function Filter<T>(s: seq<T>, p: T -> bool): (r: seq<T>)
    ensures |r| <= |s|
    ensures forall x :: x in r ==> x in s && p(x)
  {
    if s == [] then [] else (if p(s[0]) then [s[0]] else []) + Filter(s[1..], p)
  }

  /** Filtering keeps no element more often than it occurs. */
  lemma {:induction false} FilterSub<T>(s: seq<T>, p: T -> bool)
    ensures multiset(Filter(s, p)) <= multiset(s)
  {
    if s != [] {
      var h, t := s[0], s[1..];
      var kept := if p(h) then [h] else [];
      FilterSub(t, p);
      assert s == [h] + t;
      assert Filter(s, p) == kept + Filter(t, p);
      assert multiset(s) == multiset{h} + multiset(t);
      assert multiset(Filter(s, p)) == multiset(kept) + multiset(Filter(t, p));
    }
  }

  /** Filtering keeps every occurrence of a kept element and none of the others. */
  lemma {:induction false} FilterCounts<T>(s: seq<T>, p: T -> bool)
    ensures multiset(Filter(s, p)) <= multiset(s)
    ensures forall x :: x in s ==> multiset(Filter(s, p))[x] == if p(x) then multiset(s)[x] else 0
  {
    FilterSub(s, p);
    if s != [] {
      var h, t := s[0], s[1..];
      var kept := if p(h) then [h] else [];
      FilterCounts(t, p);
      assert s == [h] + t;
      assert Filter(s, p) == kept + Filter(t, p);
      assert multiset(s) == multiset{h} + multiset(t);
      assert multiset(Filter(s, p)) == multiset(kept) + multiset(Filter(t, p));
      forall x | x in s ensures multiset(Filter(s, p))[x] == if p(x) then multiset(s)[x] else 0 {
        if x !in t {
          assert multiset(t)[x] == 0;
        }
      }
    }
  }

  lemma {:induction false} FilterContains<T>(s: seq<T>, p: T -> bool, x: T)
    ensures x in Filter(s, p) <==> x in s && p(x)
  {
    if s != [] {
      FilterContains(s[1..], p, x);
      assert s == [s[0]] + s[1..];
    }
  }

  /** Filtering distributes over concatenation. */
  lemma {:induction false} FilterConcat<T>(a: seq<T>, b: seq<T>, p: T -> bool)
    ensures Filter(a + b, p) == Filter(a, p) + Filter(b, p)
  {
    if a == [] {
      assert a + b == b;
    } else {
      var h := if p(a[0]) then [a[0]] else [];
      var fa, fb := Filter(a[1..], p), Filter(b, p);
      assert (a + b)[0] == a[0] && (a + b)[1..] == a[1..] + b;
      calc {
        Filter(a + b, p);
        h + Filter(a[1..] + b, p);
        { FilterConcat(a[1..], b, p); }
        h + (fa + fb);
        (h + fa) + fb;
      }
    }
  }

  /** Filtering a sequence with one element more in front. */
  lemma FilterCons<T>(x: T, s: seq<T>, p: T -> bool)
    ensures Filter([x] + s, p) == (if p(x) then [x] else []) + Filter(s, p)
  {
    assert ([x] + s)[1..] == s;
  }

  /** Filtering keeps the order: two kept elements come out with the kept elements between them in between. */
  lemma FilterKeepsOrder<T>(a: seq<T>, x: T, b: seq<T>, y: T, c: seq<T>, p: T -> bool)
    requires p(x) && p(y)
    ensures Filter(a + [x] + b + [y] + c, p) == Filter(a, p) + [x] + Filter(b, p) + [y] + Filter(c, p)
  {
    FilterConcat(a + [x] + b + [y], c, p);
    FilterConcat(a + [x] + b, [y], p);
    FilterConcat(a + [x], b, p);
    FilterConcat(a, [x], p);
    FilterCons(x, [], p);
    FilterCons(y, [], p);
    assert [x] + [] == [x] && [y] + [] == [y];
  }

  /** When every element satisfies `p`, filtering keeps the whole sequence. */
  lemma {:induction false} FilterKeepsAll<T>(s: seq<T>, p: T -> bool)
    requires forall x :: x in s ==> p(x)
    ensures Filter(s, p) == s
  {
    if s != [] {
      FilterKeepsAll(s[1..], p);
      assert s == [s[0]] + s[1..];
    }
  }

  /** When no element satisfies `p`, filtering keeps nothing. */
  lemma {:induction false} FilterKeepsNone<T>(s: seq<T>, p: T -> bool)
    requires forall x :: x in s ==> !p(x)
    ensures Filter(s, p) == []
  {
    if s != [] {
      FilterKeepsNone(s[1..], p);
    }
  }

  /** The key of every element is at least the key of every later element. */
  predicate SortedDesc<T>(s: seq<T>, key: T -> int) {
    forall i, j :: 0 <= i < j < |s| ==> key(s[i]) >= key(s[j])
  }

  lemma SortedTail<T>(s: seq<T>, key: T -> int)
    requires SortedDesc(s, key) && s != []
    ensures SortedDesc(s[1..], key)
  {
    forall i, j | 0 <= i < j < |s| - 1 ensures key(s[1..][i]) >= key(s[1..][j]) {
      assert s[1..][i] == s[i + 1] && s[1..][j] == s[j + 1];
    }
  }

  /** Putting an element in front of a sorted sequence whose keys do not exceed its own. */
  lemma SortedCons<T>(x: T, s: seq<T>, key: T -> int)
    requires SortedDesc(s, key)
    requires forall y :: y in s ==> key(x) >= key(y)
    ensures SortedDesc([x] + s, key)
  {
    var r := [x] + s;
    forall i, j | 0 <= i < j < |r| ensures key(r[i]) >= key(r[j]) {
      assert r[j] == s[j - 1];
      if i > 0 { assert r[i] == s[i - 1]; }
    }
  }

  /** Insert `x` in front of the first element whose key is not greater than its own. */
  function Insert<T>(x: T, s: seq<T>, key: T -> int): (r: seq<T>)
    ensures multiset(r) == multiset(s) + multiset{x}
    ensures |r| == |s| + 1
  {
    if s == [] || key(x) >= key(s[0]) then [x] + s
    else
      assert s == [s[0]] + s[1..];
      [s[0]] + Insert(x, s[1..], key)
  }

  lemma {:induction false} InsertSorted<T>(x: T, s: seq<T>, key: T -> int)
    requires SortedDesc(s, key)
    ensures SortedDesc(Insert(x, s, key), key)
  {
    if s == [] || key(x) >= key(s[0]) {
      forall y | y in s ensures key(x) >= key(y) {
        var j :| 0 <= j < |s| && s[j] == y;
        assert j == 0 || key(s[0]) >= key(s[j]);
      }
      SortedCons(x, s, key);
    } else {
      SortedTail(s, key);
      InsertSorted(x, s[1..], key);
      var rest := Insert(x, s[1..], key);
      assert s == [s[0]] + s[1..];
      forall y | y in rest ensures key(s[0]) >= key(y) {
        assert y in multiset(rest);
        if y != x {
          assert y in multiset(s[1..]);
          var j :| 0 <= j < |s[1..]| && s[1..][j] == y;
          assert s[j + 1] == y;
        }
      }
      SortedCons(s[0], rest, key);
    }
  }

  /** The stable sort by descending key: a permutation of the input, in non-increasing key order. */
  function SortDesc<T>(s: seq<T>, key: T -> int): (r: seq<T>)
    ensures SortedDesc(r, key)
    ensures multiset(r) == multiset(s)
    ensures |r| == |s|
  {
    if s == [] then []
    else
      var rest := SortDesc(s[1..], key);
      InsertSorted(s[0], rest, key);
      assert s == [s[0]] + s[1..];
      Insert(s[0], rest, key)
  }

  /** The elements whose key is `k`. */
  function KeyIs<T>(key: T -> int, k: int): T -> bool {
    x => key(x) == k
  }

  lemma {:induction false} InsertKeepsOrderOfEqualKeys<T>(x: T, s: seq<T>, key: T -> int, k: int)
    requires SortedDesc(s, key)
    ensures Filter(Insert(x, s, key), KeyIs(key, k))
         == (if key(x) == k then [x] else []) + Filter(s, KeyIs(key, k))
  {
    var p := KeyIs(key, k);
    if s == [] || key(x) >= key(s[0]) {
      FilterCons(x, s, p);
    } else {
      var rest := Insert(x, s[1..], key);
      SortedTail(s, key);
      InsertKeepsOrderOfEqualKeys(x, s[1..], key, k);
      FilterCons(s[0], rest, p);
      FilterCons(s[0], s[1..], p);
      assert s == [s[0]] + s[1..];
      assert key(x) == k ==> !p(s[0]);
    }
  }

  /** Stability: among elements of equal key, the sort keeps the input order. */
  lemma {:induction false} SortIsStable<T>(s: seq<T>, key: T -> int, k: int)
    ensures Filter(SortDesc(s, key), KeyIs(key, k)) == Filter(s, KeyIs(key, k))
  {
    if s != [] {
      var p := KeyIs(key, k);
      SortIsStable(s[1..], key, k);
      InsertKeepsOrderOfEqualKeys(s[0], SortDesc(s[1..], key), key, k);
      FilterCons(s[0], s[1..], p);
      assert s == [s[0]] + s[1..];
    }
  }

  /** `s.map(f)`. */
  function Map<T, U>(s: seq<T>, f: T -> U): (r: seq<U>)
    ensures |r| == |s|
    ensures forall i :: 0 <= i < |s| ==> r[i] == f(s[i])
  {
    if s == [] then [] else [f(s[0])] + Map(s[1..], f)
  }

  lemma MapCons<T, U>(x: T, s: seq<T>, f: T -> U)
    ensures Map([x] + s, f) == [f(x)] + Map(s, f)
  {
    assert ([x] + s)[1..] == s;
  }

  /** Mapping commutes with inserting, when the key of every element is the key of its image. */
  lemma {:induction false} MapInsert<T, U>(x: T, s: seq<T>, f: T -> U, key: T -> int, imageKey: U -> int)
    requires forall y: T :: key(y) == imageKey(f(y))
    ensures Map(Insert(x, s, key), f) == Insert(f(x), Map(s, f), imageKey)
  {
    var ms := Map(s, f);
    if s == [] || key(x) >= key(s[0]) {
      MapCons(x, s, f);
    } else {
      var y, t := s[0], s[1..];
      assert s == [y] + t;
      MapCons(y, t, f);
      assert ms[0] == f(y) && ms[1..] == Map(t, f);
      calc {
        Map(Insert(x, s, key), f);
        { assert Insert(x, s, key) == [y] + Insert(x, t, key); }
        Map([y] + Insert(x, t, key), f);
        { MapCons(y, Insert(x, t, key), f); }
        [f(y)] + Map(Insert(x, t, key), f);
        { MapInsert(x, t, f, key, imageKey); }
        [f(y)] + Insert(f(x), Map(t, f), imageKey);
        Insert(f(x), ms, imageKey);
      }
    }
  }

  /** Mapping commutes with sorting, when the key of every element is the key of its image. */
  lemma {:induction false} MapSortDesc<T, U>(s: seq<T>, f: T -> U, key: T -> int, imageKey: U -> int)
    requires forall y: T :: key(y) == imageKey(f(y))
    ensures Map(SortDesc(s, key), f) == SortDesc(Map(s, f), imageKey)
  {
    if s != [] {
      var x, t := s[0], s[1..];
      var rest := SortDesc(t, key);
      var ms := Map(s, f);
      assert s == [x] + t;
      MapCons(x, t, f);
      assert ms != [] && ms[0] == f(x) && ms[1..] == Map(t, f);
      calc {
        Map(SortDesc(s, key), f);
        Map(Insert(x, rest, key), f);
        { MapInsert(x, rest, f, key, imageKey); }
        Insert(f(x), Map(rest, f), imageKey);
        { MapSortDesc(t, f, key, imageKey); }
        Insert(f(x), SortDesc(Map(t, f), imageKey), imageKey);
        SortDesc(ms, imageKey);
      }
    }
  }
}
