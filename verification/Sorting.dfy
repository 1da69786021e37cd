/** Stable sorting by a key, as Python's `sorted` does it. */
module Sorting {
  import opened Basics

  ghost predicate TotalPreorder<T(!new)>(le: (T, T) -> bool) {
    && (forall a, b :: le(a, b) || le(b, a))
    && (forall a, b, c :: le(a, b) && le(b, c) ==> le(a, c))
  }

  ghost predicate Sorted<T>(s: seq<T>, le: (T, T) -> bool) {
    forall i, j :: 0 <= i < j < |s| ==> le(s[i], s[j])
  }

  /** Puts `x` behind everything that is not greater, starting from the end. */
  function Insert<T>(s: seq<T>, x: T, le: (T, T) -> bool): seq<T> {
    if s == [] || le(s[|s| - 1], x) then s + [x]
    else Insert(s[..|s| - 1], x, le) + [s[|s| - 1]]
  }

  function SortBy<T>(s: seq<T>, le: (T, T) -> bool): seq<T> {
    if s == [] then [] else Insert(SortBy(s[..|s| - 1], le), s[|s| - 1], le)
  }

  lemma TotalAt<T(!new)>(le: (T, T) -> bool, a: T, b: T)
    requires TotalPreorder(le)
    ensures le(a, b) || le(b, a)
  {}

  lemma TransitiveAt<T(!new)>(le: (T, T) -> bool, a: T, b: T, c: T)
    requires TotalPreorder(le) && le(a, b) && le(b, c)
    ensures le(a, c)
  {}

  lemma {:induction false} InsertMembers<T>(s: seq<T>, x: T, le: (T, T) -> bool)
    ensures multiset(Insert(s, x, le)) == multiset(s) + multiset{x}
  {
    if !(s == [] || le(s[|s| - 1], x)) {
      InsertMembers(s[..|s| - 1], x, le);
      assert s == s[..|s| - 1] + [s[|s| - 1]];
    }
  }

  lemma {:induction false} InsertSorted<T(!new)>(s: seq<T>, x: T, le: (T, T) -> bool)
    requires TotalPreorder(le) && Sorted(s, le)
    ensures Sorted(Insert(s, x, le), le)
  {
    hide TotalPreorder;
    if s == [] {
    } else if le(s[|s| - 1], x) {
      forall i | 0 <= i < |s| ensures le(s[i], x) {
        if i < |s| - 1 { TransitiveAt(le, s[i], s[|s| - 1], x); }
      }
    } else {
      var front, last := s[..|s| - 1], s[|s| - 1];
      var r := Insert(front, x, le);
      InsertSorted(front, x, le);
      InsertMembers(front, x, le);
      TotalAt(le, x, last);
      forall i | 0 <= i < |r| ensures le(r[i], last) {
        assert r[i] in multiset(r);
        if r[i] != x {
          assert r[i] in front;
          var j :| 0 <= j < |front| && front[j] == r[i];
          assert s[j] == front[j];
        }
      }
    }
  }

  lemma {:induction false} SortMultiset<T>(s: seq<T>, le: (T, T) -> bool)
    ensures multiset(SortBy(s, le)) == multiset(s)
  {
    if s != [] {
      hide Insert;
      SortMultiset(s[..|s| - 1], le);
      InsertMembers(SortBy(s[..|s| - 1], le), s[|s| - 1], le);
      assert s == s[..|s| - 1] + [s[|s| - 1]];
    }
  }

  /** The result is ordered and is a rearrangement of the input. */
  lemma {:induction false} SortIsSortedPermutation<T(!new)>(s: seq<T>, le: (T, T) -> bool)
    requires TotalPreorder(le)
    ensures Sorted(SortBy(s, le), le)
    ensures multiset(SortBy(s, le)) == multiset(s)
  {
    SortMultiset(s, le);
    if s != [] {
      hide TotalPreorder, Sorted, Insert;
      SortIsSortedPermutation(s[..|s| - 1], le);
      InsertSorted(SortBy(s[..|s| - 1], le), s[|s| - 1], le);
    } else {
      assert SortBy(s, le) == [];
    }
  }

  lemma {:induction false} InsertIsStable<T>(s: seq<T>, x: T, le: (T, T) -> bool, tied: T -> bool)
    requires forall y :: y in s && tied(y) && tied(x) ==> le(y, x)
    ensures Filter(Insert(s, x, le), tied) == if tied(x) then Filter(s, tied) + [x] else Filter(s, tied)
  {
    if s == [] || le(s[|s| - 1], x) {
      assert (s + [x])[..|s|] == s;
    } else {
      var front, last := s[..|s| - 1], s[|s| - 1];
      InsertIsStable(front, x, le, tied);
      var r := Insert(front, x, le);
      assert (r + [last])[..|r|] == r;
      assert last in s;
    }
  }

  lemma {:induction false} SortMembers<T>(s: seq<T>, le: (T, T) -> bool)
    ensures multiset(SortBy(s, le)) == multiset(s)
    ensures forall y :: y in SortBy(s, le) <==> y in s
  {
    SortMultiset(s, le);
    hide SortBy;
    assert forall y :: y in SortBy(s, le) <==> y in multiset(SortBy(s, le));
    assert forall y :: y in s <==> y in multiset(s);
  }

  /** Elements that tie keep their order. */
  lemma {:induction false} SortIsStable<T>(s: seq<T>, le: (T, T) -> bool, tied: T -> bool)
    requires forall x, y :: x in s && y in s && tied(x) && tied(y) ==> le(x, y)
    ensures Filter(SortBy(s, le), tied) == Filter(s, tied)
  {
    if s != [] {
      var front, last := s[..|s| - 1], s[|s| - 1];
      assert forall x :: x in front ==> x in s;
      SortIsStable(front, le, tied);
      SortMembers(front, le);
      assert last in s;
      InsertIsStable(SortBy(front, le), last, le, tied);
    }
  }

  /** Rearranging a sequence does not change how many satisfy a predicate. */
  lemma {:induction false} PermutationCounts<T>(s: seq<T>, t: seq<T>, p: T -> bool)
    requires multiset(s) == multiset(t)
    ensures Count(s, p) == Count(t, p)
  {
    if s == [] {
      assert |t| == |multiset(t)| == 0;
    } else {
      hide Count;
      var front, last := s[..|s| - 1], s[|s| - 1];
      var j := TakeOut(s, t);
      PermutationCounts(front, t[..j] + t[j + 1..], p);
      CountWithout(t, j, p);
      CountWithout(s, |front|, p);
      assert s[..|front|] + s[|front| + 1..] == front;
    }
  }

  /** Where the last element of a rearrangement can be taken out of the other. */
  lemma TakeOut<T>(s: seq<T>, t: seq<T>) returns (j: nat)
    requires multiset(s) == multiset(t) && s != []
    ensures j < |t| && t[j] == s[|s| - 1]
    ensures multiset(s[..|s| - 1]) == multiset(t[..j] + t[j + 1..])
  {
    var front, last := s[..|s| - 1], s[|s| - 1];
    assert s == front + [last];
    assert last in multiset(t);
    j :| 0 <= j < |t| && t[j] == last;
    assert t == t[..j] + [last] + t[j + 1..];
    assert multiset(front) == multiset(s) - multiset{last};
    assert multiset(t[..j] + t[j + 1..]) == multiset(t) - multiset{last};
  }

  lemma {:induction false} CountPrefix<T>(s: seq<T>, p: T -> bool, n: nat)
    requires n <= |s|
    requires forall i :: 0 <= i < n ==> p(s[i])
    ensures Count(s, p) >= n
    decreases |s|
  {
    if s != [] && n > 0 { CountPrefix(s[..|s| - 1], p, if n == |s| then n - 1 else n); }
  }

  lemma {:induction false} CountSuffix<T>(s: seq<T>, p: T -> bool, n: nat)
    requires n <= |s|
    requires forall i :: n <= i < |s| ==> !p(s[i])
    ensures Count(s, p) <= n
    decreases |s|
  {
    if n < |s| { CountSuffix(s[..|s| - 1], p, n); } else { CountAtMostLength(s, p); }
  }

  /** Two sorted arrangements of the same elements tie position by position. */
  lemma {:induction false} SortedArrangementsTie<T(!new)>(s: seq<T>, t: seq<T>, le: (T, T) -> bool)
    requires TotalPreorder(le) && Sorted(s, le) && Sorted(t, le) && multiset(s) == multiset(t)
    ensures |s| == |t|
    ensures forall i :: 0 <= i < |s| ==> le(s[i], t[i]) && le(t[i], s[i])
  {
    assert |s| == |multiset(s)| == |multiset(t)| == |t|;
    forall i | 0 <= i < |s| ensures le(s[i], t[i]) && le(t[i], s[i]) {
      NotAbove(s, t, le, i);
      NotAbove(t, s, le, i);
    }
  }

  lemma {:induction false} NotAbove<T(!new)>(s: seq<T>, t: seq<T>, le: (T, T) -> bool, i: nat)
    requires TotalPreorder(le) && Sorted(s, le) && Sorted(t, le) && multiset(s) == multiset(t)
    requires i < |s| && i < |t|
    ensures le(t[i], s[i])
  {
    if !le(t[i], s[i]) {
      var below := (x: T) => le(x, s[i]);
      CountPrefix(s, below, i + 1);
      forall j | i <= j < |t| ensures !below(t[j]) { assert le(t[i], t[j]); }
      CountSuffix(t, below, i);
      PermutationCounts(s, t, below);
      assert false;
    }
  }

  /** When no two different elements tie there is only one sorted arrangement. */
  lemma {:induction false} SortedArrangementUnique<T(!new)>(s: seq<T>, t: seq<T>, le: (T, T) -> bool)
    requires TotalPreorder(le) && Sorted(s, le) && Sorted(t, le) && multiset(s) == multiset(t)
    requires forall x, y :: x in s && y in s && le(x, y) && le(y, x) ==> x == y
    ensures s == t
  {
    SortedArrangementsTie(s, t, le);
    forall i | 0 <= i < |s| ensures s[i] == t[i] {
      assert s[i] in s;
      assert t[i] in multiset(t);
      assert t[i] in s;
    }
  }

  // ---- Who comes before whom ------------------------------------------------------------------

  ghost predicate Before<T>(s: seq<T>, x: T, y: T) { exists i, j :: 0 <= i < j < |s| && s[i] == x && s[j] == y }

  lemma BeforeMembers<T>(s: seq<T>, x: T, y: T)
    requires Before(s, x, y)
    ensures x in s && y in s
  {}

  /** Of two members of a sequence without duplicates, one comes before the other. */
  lemma OneBeforeTheOther<T>(s: seq<T>, x: T, y: T)
    requires NoDuplicates(s) && x in s && y in s && x != y
    ensures Before(s, x, y) <==> !Before(s, y, x)
  {
    var i :| 0 <= i < |s| && s[i] == x;
    var j :| 0 <= j < |s| && s[j] == y;
  }

  lemma {:induction false} FilterKeepsOrder<T>(s: seq<T>, p: T -> bool, x: T, y: T)
    requires p(x) && p(y)
    ensures Before(Filter(s, p), x, y) <==> Before(s, x, y)
  {
    if s != [] {
      var front, last := s[..|s| - 1], s[|s| - 1];
      FilterKeepsOrder(front, p, x, y);
      BeforeLast(front, last, x, y);
      if p(last) { BeforeLast(Filter(front, p), last, x, y); }
      assert s == front + [last];
    }
  }

  lemma BeforeLast<T>(s: seq<T>, last: T, x: T, y: T)
    ensures Before(s + [last], x, y) <==> Before(s, x, y) || (x in s && last == y)
  {
    var t := s + [last];
    if Before(s, x, y) {
      var i, j :| 0 <= i < j < |s| && s[i] == x && s[j] == y;
      assert t[i] == x && t[j] == y;
    }
    if x in s && last == y {
      var i :| 0 <= i < |s| && s[i] == x;
      assert t[i] == x && t[|s|] == y;
    }
    if Before(t, x, y) {
      var i, j :| 0 <= i < j < |t| && t[i] == x && t[j] == y;
      assert s[i] == x;
    }
  }

  /** Sorting puts `x` before `y` exactly when `y` is not below `x`, or they tie
      and `x` came first. */
  lemma {:induction false} SortOrders<T(!new)>(s: seq<T>, le: (T, T) -> bool, x: T, y: T)
    requires TotalPreorder(le) && NoDuplicates(s) && x in s && y in s && x != y
    ensures Before(SortBy(s, le), x, y) <==> !le(y, x) || (le(x, y) && Before(s, x, y))
  {
    hide Filter, Before, SortBy, NoDuplicates;
    var t := SortBy(s, le);
    SortIsSortedPermutation(s, le);
    SortMembers(s, le);
    MultisetNoDuplicates(s, t);
    OneBeforeTheOther(t, x, y);
    TotalAt(le, x, y);
    if le(x, y) && le(y, x) {
      var tied := (z: T) => z == x || z == y;
      SortIsStable(s, le, tied);
      FilterKeepsOrder(t, tied, x, y);
      FilterKeepsOrder(s, tied, x, y);
    } else {
      if Before(t, x, y) { SortedBefore(t, le, x, y); }
      if Before(t, y, x) { SortedBefore(t, le, y, x); }
    }
  }

  lemma SortedBefore<T>(s: seq<T>, le: (T, T) -> bool, x: T, y: T)
    requires Sorted(s, le) && Before(s, x, y)
    ensures le(x, y)
  {}

  lemma SortOfTwo<T>(a: T, b: T, le: (T, T) -> bool)
    requires !le(a, b)
    ensures SortBy([a, b], le) == [b, a]
  {
    assert [a, b][..1] == [a] && [a][..0] == [];
    assert SortBy([], le) == [] && Insert([], a, le) == [a];
    assert SortBy([a], le) == [a];
    assert Insert([a], b, le) == Insert([], b, le) + [a] == [b] + [a];
  }
}
