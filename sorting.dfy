/** The stable sort of `Array.prototype.sort` with a comparator, as an
    insertion sort: `le(a, b)` holds when `a` may stay in front of `b`, and an
    element is inserted behind every element it does not have to precede, so
    elements that compare equal keep their order. */
module Sorting {

  ghost predicate Total<T(!new)>(le: (T, T) -> bool) {
    forall a, b :: le(a, b) || le(b, a)
  }

  ghost predicate Transitive<T(!new)>(le: (T, T) -> bool) {
    forall a, b, c :: le(a, b) && le(b, c) ==> le(a, c)
  }

  ghost predicate SortedBy<T>(s: seq<T>, le: (T, T) -> bool) {
    forall i, j :: 0 <= i < j < |s| ==> le(s[i], s[j])
  }

  /** The number of leading elements of `s` that may stay in front of `x`. */
  function InsertionPoint<T>(s: seq<T>, x: T, le: (T, T) -> bool): (p: nat)
    ensures p <= |s|
    ensures forall i :: 0 <= i < p ==> le(s[i], x)
    ensures p == |s| || !le(s[p], x)
  {
    if s == [] || !le(s[0], x) then 0 else 1 + InsertionPoint(s[1..], x, le)
  }

  /** Inserts `x` behind the leading elements that may stay in front of it. */
  function InsertBy<T>(s: seq<T>, x: T, le: (T, T) -> bool): (r: seq<T>)
    ensures multiset(r) == multiset(s) + multiset{x}
  {
    var p := InsertionPoint(s, x, le);
    assert s == s[..p] + s[p..];
    s[..p] + [x] + s[p..]
  }

  /** The sorted copy `[...s].sort(cmp)`. */
  function SortBy<T>(s: seq<T>, le: (T, T) -> bool): (r: seq<T>)
    ensures multiset(r) == multiset(s)
    ensures |r| == |s|
  {
    if s == [] then []
    else
      assert s == s[..|s| - 1] + [s[|s| - 1]];
      InsertBy(SortBy(s[..|s| - 1], le), s[|s| - 1], le)
  }

  lemma InsertBySorted<T(!new)>(s: seq<T>, x: T, le: (T, T) -> bool)
    requires Total(le) && Transitive(le)
    requires SortedBy(s, le)
    ensures SortedBy(InsertBy(s, x, le), le)
  {
    var p := InsertionPoint(s, x, le);
    var r := InsertBy(s, x, le);
    forall i, j | 0 <= i < j < |r| ensures le(r[i], r[j]) {
      if j < p || i > p {
      } else if j == p {
      } else if i == p {
        assert le(x, s[p]);
      } else {
        assert r[i] == s[i] && r[j] == s[j - 1];
      }
    }
  }

  /** The result of `SortBy` is ordered by `le`. */
  lemma {:induction false} SortBySorted<T(!new)>(s: seq<T>, le: (T, T) -> bool)
    requires Total(le) && Transitive(le)
    ensures SortedBy(SortBy(s, le), le)
  {
    if s != [] {
      SortBySorted(s[..|s| - 1], le);
      InsertBySorted(SortBy(s[..|s| - 1], le), s[|s| - 1], le);
    }
  }

  /** Sorting keeps membership: an element is in the sorted copy exactly
      when it is in the input. */
  lemma SortByPermutes<T>(s: seq<T>, le: (T, T) -> bool, x: T)
    ensures x in SortBy(s, le) <==> x in s
  {
    assert x in SortBy(s, le) <==> x in multiset(SortBy(s, le));
  }

  /** A sequence already ordered by `le` is left as it is: every element
      goes in behind the ones before it. */
  lemma {:induction false} SortBySortedIsIdentity<T(!new)>(s: seq<T>, le: (T, T) -> bool)
    requires SortedBy(s, le)
    ensures SortBy(s, le) == s
  {
    if s != [] {
      var init := s[..|s| - 1];
      assert SortedBy(init, le);
      SortBySortedIsIdentity(init, le);
      InsertionPointAll(init, s[|s| - 1], le);
      assert init[..|init|] + [s[|s| - 1]] + init[|init|..] == s;
    }
  }

  /** Every element of `s` may stay in front of `x`, so `x` goes last. */
  lemma {:induction false} InsertionPointAll<T>(s: seq<T>, x: T, le: (T, T) -> bool)
    requires forall i :: 0 <= i < |s| ==> le(s[i], x)
    ensures InsertionPoint(s, x, le) == |s|
  {
    if s != [] {
      InsertionPointAll(s[1..], x, le);
    }
  }

  /** Two orders that agree on every pair of different elements of `s`
      sort `s` alike when `s` has no repeats: insertion only ever compares
      the element being inserted with a different one. */
  lemma {:induction false} SortByAgree<T>(s: seq<T>, le1: (T, T) -> bool, le2: (T, T) -> bool)
    requires forall i, j :: 0 <= i < j < |s| ==> s[i] != s[j]
    requires forall a, b :: a in s && b in s && a != b ==> le1(a, b) == le2(a, b)
    ensures SortBy(s, le1) == SortBy(s, le2)
  {
    if s != [] {
      var init, x := s[..|s| - 1], s[|s| - 1];
      SortByAgree(init, le1, le2);
      var t := SortBy(init, le1);
      forall y | y in t ensures y in init && y != x {
        SortByPermutes(init, le1, y);
      }
      InsertionPointAgree(t, x, le1, le2);
    }
  }

  lemma {:induction false} InsertionPointAgree<T>(t: seq<T>, x: T, le1: (T, T) -> bool, le2: (T, T) -> bool)
    requires forall y :: y in t ==> le1(y, x) == le2(y, x)
    ensures InsertionPoint(t, x, le1) == InsertionPoint(t, x, le2)
  {
    if t != [] {
      assert t[0] in t;
      InsertionPointAgree(t[1..], x, le1, le2);
    }
  }
}
