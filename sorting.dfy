/**
 * `Array.prototype.sort` with a consistent comparator. Every comparator the
 * catalogue passes to `sort` orders its elements by a key made of a number
 * and a string: the number compared first, the string (through
 * `localeCompare`) breaking ties. Such a comparator is a total preorder, and
 * a stable sort by a total preorder has exactly one result; `SortByRank`
 * computes it by insertion. `JsSort` adds what the built-in does before it
 * calls the comparator at all: `undefined` elements are moved to the end.
 */
module Sorting {
  import opened Js
  import opened Seqs

  /** A sort key: `major` ascending, then `minor` in code-unit order. */
  datatype Rank = Rank(major: real, minor: string)

  /** `a.localeCompare(b) <= 0`, modelled as code-unit lexicographic order. */
  predicate StrLe(a: string, b: string) {
    if a == [] then true
    else if b == [] then false
    else if a[0] != b[0] then a[0] < b[0]
    else StrLe(a[1..], b[1..])
  }

  /** The comparator returns a value `<= 0` for `(x, y)`: `x` may stay before `y`. */
  predicate RankLe(x: Rank, y: Rank) {
    x.major < y.major || (x.major == y.major && StrLe(x.minor, y.minor))
  }

  /** Every element's key is at most the key of every later element. */
  predicate SortedBy<T>(s: seq<T>, key: T -> Rank) {
    forall i, j :: 0 <= i < j < |s| ==> RankLe(key(s[i]), key(s[j]))
  }

  /** The elements of `s` whose key is `k`, in their order in `s`. */
  function WithKey<T>(s: seq<T>, key: T -> Rank, k: Rank): (r: seq<T>)
    ensures forall i :: 0 <= i < |r| ==> key(r[i]) == k
  {
    Filter(s, x => key(x) == k)
  }

  /** Insert `x` into `t` after every element whose key is at most `x`'s. */
  function Insert<T>(t: seq<T>, x: T, key: T -> Rank): (r: seq<T>)
    ensures |r| == |t| + 1
  {
    if t == [] then [x]
    else if RankLe(key(t[|t| - 1]), key(x)) then t + [x]
    else Insert(t[..|t| - 1], x, key) + [t[|t| - 1]]
  }

  /** The stable sort of `s` by `key`. */
  function SortByRank<T>(s: seq<T>, key: T -> Rank): (r: seq<T>)
    ensures |r| == |s|
  {
    if s == [] then [] else Insert(SortByRank(s[..|s| - 1], key), s[|s| - 1], key)
  }

  /** `s.sort(cmp)`: the defined elements sorted, then the `undefined` ones. */
  function JsSort(s: seq<Value>, key: Value -> Rank): (r: seq<Value>)
    ensures |r| == |s|
  {
    FilterLength(s, IsDefined, IsUndefined);
    SortByRank(Filter(s, IsDefined), key) + Filter(s, IsUndefined)
  }

  // ---------------------------------------------------------------------------
  // The string order and the key order are total preorders

  lemma {:induction false} StrLeReflexive(a: string)
    ensures StrLe(a, a)
  {
    if a != [] {
      StrLeReflexive(a[1..]);
    }
  }

  lemma {:induction false} StrLeTotal(a: string, b: string)
    ensures StrLe(a, b) || StrLe(b, a)
  {
    if a != [] && b != [] && a[0] == b[0] {
      StrLeTotal(a[1..], b[1..]);
    }
  }

  lemma {:induction false} StrLeTransitive(a: string, b: string, c: string)
    requires StrLe(a, b) && StrLe(b, c)
    ensures StrLe(a, c)
  {
    if a != [] && b != [] && c != [] && a[0] == b[0] && b[0] == c[0] {
      StrLeTransitive(a[1..], b[1..], c[1..]);
    }
  }

  lemma {:induction false} StrLeAntisymmetric(a: string, b: string)
    requires StrLe(a, b) && StrLe(b, a)
    ensures a == b
  {
    if a != [] && b != [] {
      StrLeAntisymmetric(a[1..], b[1..]);
      assert a == [a[0]] + a[1..] && b == [b[0]] + b[1..];
    }
  }

  lemma RankLeReflexive(x: Rank)
    ensures RankLe(x, x)
  {
    StrLeReflexive(x.minor);
  }

  lemma RankLeTotal(x: Rank, y: Rank)
    ensures RankLe(x, y) || RankLe(y, x)
  {
    StrLeTotal(x.minor, y.minor);
  }

  lemma RankLeTransitive(x: Rank, y: Rank, z: Rank)
    requires RankLe(x, y) && RankLe(y, z)
    ensures RankLe(x, z)
  {
    if x.major == y.major == z.major {
      StrLeTransitive(x.minor, y.minor, z.minor);
    }
  }

  /** Two keys that each may precede the other are the same key. */
  lemma RankLeAntisymmetric(x: Rank, y: Rank)
    requires RankLe(x, y) && RankLe(y, x)
    ensures x == y
  {
    StrLeAntisymmetric(x.minor, y.minor);
  }

  // ---------------------------------------------------------------------------
  // Insertion

  lemma {:induction false} InsertMultiset<T>(t: seq<T>, x: T, key: T -> Rank)
    ensures multiset(Insert(t, x, key)) == multiset(t) + multiset{x}
  {
    if t != [] && !RankLe(key(t[|t| - 1]), key(x)) {
      InsertMultiset(t[..|t| - 1], x, key);
      assert t == t[..|t| - 1] + [t[|t| - 1]];
    }
  }

  lemma {:induction false} InsertSorted<T>(t: seq<T>, x: T, key: T -> Rank)
    requires SortedBy(t, key)
    ensures SortedBy(Insert(t, x, key), key)
  {
    if t != [] {
      var last := t[|t| - 1];
      var r := Insert(t, x, key);
      if RankLe(key(last), key(x)) {
        forall i, j | 0 <= i < j < |r|
          ensures RankLe(key(r[i]), key(r[j]))
        {
          if j == |t| && i < |t| - 1 {
            RankLeTransitive(key(t[i]), key(last), key(x));
          }
        }
      } else {
        var p := t[..|t| - 1];
        var q := Insert(p, x, key);
        InsertSorted(p, x, key);
        InsertMultiset(p, x, key);
        RankLeTotal(key(last), key(x));
        assert r == q + [last];
        forall i | 0 <= i < |q|
          ensures RankLe(key(q[i]), key(last))
        {
          assert q[i] in multiset(q);
          if q[i] != x {
            assert q[i] in multiset(p);
            var k :| 0 <= k < |p| && p[k] == q[i];
            assert t[k] == q[i];
          }
        }
      }
    }
  }

  /** Inserting `x` keeps the relative order of each key class and puts `x` last in its own. */
  lemma {:induction false} InsertWithKey<T>(t: seq<T>, x: T, key: T -> Rank, k: Rank)
    ensures WithKey(Insert(t, x, key), key, k) == WithKey(t, key, k) + WithKey([x], key, k)
  {
    var f := (e: T) => key(e) == k;
    if t == [] {
      assert Insert(t, x, key) == [x];
    } else if RankLe(key(t[|t| - 1]), key(x)) {
      FilterConcat(t, [x], f);
    } else {
      var p := t[..|t| - 1];
      var last := t[|t| - 1];
      InsertWithKey(p, x, key, k);
      FilterConcat(Insert(p, x, key), [last], f);
      FilterConcat(p, [last], f);
      assert t == p + [last];
      if key(x) == k && key(last) == k {
        RankLeReflexive(k);
        assert false;
      }
    }
  }

  // ---------------------------------------------------------------------------
  // What the sort promises

  /** The result is a rearrangement of the input. */
  lemma {:induction false} SortPermutes<T>(s: seq<T>, key: T -> Rank)
    ensures multiset(SortByRank(s, key)) == multiset(s)
  {
    if s != [] {
      SortPermutes(s[..|s| - 1], key);
      InsertMultiset(SortByRank(s[..|s| - 1], key), s[|s| - 1], key);
      assert s == s[..|s| - 1] + [s[|s| - 1]];
    }
  }

  /** The result is in key order. */
  lemma {:induction false} SortSorts<T>(s: seq<T>, key: T -> Rank)
    ensures SortedBy(SortByRank(s, key), key)
  {
    if s != [] {
      SortSorts(s[..|s| - 1], key);
      InsertSorted(SortByRank(s[..|s| - 1], key), s[|s| - 1], key);
    }
  }

  /** Elements with equal keys keep their input order: the sort is stable. */
  lemma {:induction false} SortStable<T>(s: seq<T>, key: T -> Rank, k: Rank)
    ensures WithKey(SortByRank(s, key), key, k) == WithKey(s, key, k)
  {
    if s != [] {
      var p := s[..|s| - 1];
      SortStable(p, key, k);
      InsertWithKey(SortByRank(p, key), s[|s| - 1], key, k);
      FilterConcat(p, [s[|s| - 1]], x => key(x) == k);
      assert s == p + [s[|s| - 1]];
    }
  }

  /** Sorting a list already in key order leaves it as it is. */
  lemma {:induction false} SortOfSorted<T>(s: seq<T>, key: T -> Rank)
    requires SortedBy(s, key)
    ensures SortByRank(s, key) == s
  {
    if s != [] {
      var p := s[..|s| - 1];
      assert SortedBy(p, key);
      SortOfSorted(p, key);
      if |p| > 0 {
        assert RankLe(key(p[|p| - 1]), key(s[|s| - 1]));
      }
      assert s == p + [s[|s| - 1]];
    }
  }

  /** A constant key (and so any comparator that always answers 0) keeps the order. */
  lemma SortByConstant<T>(s: seq<T>, key: T -> Rank, k: Rank)
    requires forall x :: key(x) == k
    ensures SortByRank(s, key) == s
  {
    RankLeReflexive(k);
    SortOfSorted(s, key);
  }

  /** Sorting twice is sorting once. */
  lemma SortIdempotent<T>(s: seq<T>, key: T -> Rank)
    ensures SortByRank(SortByRank(s, key), key) == SortByRank(s, key)
  {
    SortSorts(s, key);
    SortOfSorted(SortByRank(s, key), key);
  }

  /**
   * A key that tells apart all the elements fixes the sorted order: two
   * rearrangements of the same elements that are both in key order are equal.
   */
  lemma {:induction false} SortedUnique<T>(a: seq<T>, b: seq<T>, key: T -> Rank)
    requires multiset(a) == multiset(b)
    requires SortedBy(a, key) && SortedBy(b, key)
    requires forall x, y :: x in a && y in a && key(x) == key(y) ==> x == y
    ensures a == b
  {
    if a == [] {
      assert |b| == |multiset(b)| == 0;
    } else {
      assert |b| == |multiset(b)| == |a|;
      SortedSameHead(a, b, key);
      MultisetTail(a, b);
      SortedTail(a, key);
      SortedTail(b, key);
      forall x, y | x in a[1..] && y in a[1..] && key(x) == key(y)
        ensures x == y
      {
        assert x in a && y in a;
      }
      SortedUnique(a[1..], b[1..], key);
      assert a == [a[0]] + a[1..] && b == [b[0]] + b[1..];
    }
  }

  /** Both sorted rearrangements start with the element of least key. */
  lemma SortedSameHead<T>(a: seq<T>, b: seq<T>, key: T -> Rank)
    requires a != [] && b != [] && multiset(a) == multiset(b)
    requires SortedBy(a, key) && SortedBy(b, key)
    requires forall x, y :: x in a && y in a && key(x) == key(y) ==> x == y
    ensures a[0] == b[0]
  {
    assert b[0] in multiset(a) && a[0] in multiset(b);
    var i :| 0 <= i < |a| && a[i] == b[0];
    var j :| 0 <= j < |b| && b[j] == a[0];
    if a[0] != b[0] {
      assert RankLe(key(a[0]), key(a[i]));
      assert RankLe(key(b[0]), key(b[j]));
      RankLeAntisymmetric(key(a[0]), key(b[0]));
      assert false;
    }
  }

  lemma MultisetTail<T>(a: seq<T>, b: seq<T>)
    requires a != [] && b != [] && multiset(a) == multiset(b) && a[0] == b[0]
    ensures multiset(a[1..]) == multiset(b[1..])
  {
    assert a == [a[0]] + a[1..] && b == [b[0]] + b[1..];
    assert multiset(a[1..]) == multiset(a) - multiset{a[0]};
    assert multiset(b[1..]) == multiset(b) - multiset{a[0]};
  }

  lemma SortedTail<T>(s: seq<T>, key: T -> Rank)
    requires s != [] && SortedBy(s, key)
    ensures SortedBy(s[1..], key)
  {
    forall i, j | 0 <= i < j < |s[1..]|
      ensures RankLe(key(s[1..][i]), key(s[1..][j]))
    {
      assert s[1..][i] == s[i + 1] && s[1..][j] == s[j + 1];
    }
  }

  /**
   * `JsSort` is a rearrangement; its defined elements come first, in key
   * order and stable, and its `undefined` elements last.
   */
  lemma JsSortSpec(s: seq<Value>, key: Value -> Rank, k: Rank)
    ensures multiset(JsSort(s, key)) == multiset(s)
    ensures JsSort(s, key) == SortByRank(Filter(s, IsDefined), key) + Filter(s, IsUndefined)
    ensures SortedBy(JsSort(s, key)[..|Filter(s, IsDefined)|], key)
    ensures forall i :: |Filter(s, IsDefined)| <= i < |s| ==> JsSort(s, key)[i] == Undefined
    ensures WithKey(JsSort(s, key)[..|Filter(s, IsDefined)|], key, k) == WithKey(Filter(s, IsDefined), key, k)
  {
    var d := Filter(s, IsDefined);
    var u := Filter(s, IsUndefined);
    FilterLength(s, IsDefined, IsUndefined);
    SortPermutes(d, key);
    SortSorts(d, key);
    SortStable(d, key, k);
    var r := JsSort(s, key);
    assert r[..|d|] == SortByRank(d, key);
    forall x
      ensures multiset(r)[x] == multiset(s)[x]
    {
      FilterMultiset(s, IsDefined, x);
      FilterMultiset(s, IsUndefined, x);
    }
    assert multiset(r) == multiset(s);
  }

  /** When no element is `undefined`, `JsSort` is the plain stable sort. */
  lemma JsSortAllDefined(s: seq<Value>, key: Value -> Rank)
    requires forall i :: 0 <= i < |s| ==> s[i] != Undefined
    ensures JsSort(s, key) == SortByRank(s, key)
  {
    FilterAllPass(s, IsDefined);
    FilterNonePass(s, IsUndefined);
  }

  /** Two complementary filters split the sequence between them. */
  lemma {:induction false} FilterLength<T>(s: seq<T>, f: T -> bool, g: T -> bool)
    requires forall x :: g(x) == !f(x)
    ensures |Filter(s, f)| + |Filter(s, g)| == |s|
  {
    if s != [] {
      FilterLength(s[1..], f, g);
    }
  }
}
