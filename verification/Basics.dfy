/** Small building blocks shared by the model: options, bounded integers, and
    filtering, counting and summing over sequences. */
module Basics {

  datatype Option<+T> = None | Some(value: T)

  /** Microseconds on one linear clock. */
  type Micros = int

  /** Identifiers (UUIDs in the source) are only ever compared for equality. */
  type Id = nat

  function Max(a: int, b: int): int { if a >= b then a else b }

  function Min(a: int, b: int): int { if a <= b then a else b }

  function Filter<T>(s: seq<T>, p: T -> bool): (r: seq<T>)
    ensures forall x :: x in r ==> x in s && p(x)
    ensures forall x :: x in s && p(x) ==> x in r
    ensures |r| <= |s|
  {
    if s == [] then []
    else if p(s[|s| - 1]) then Filter(s[..|s| - 1], p) + [s[|s| - 1]]
    else Filter(s[..|s| - 1], p)
  }

  function Count<T>(s: seq<T>, p: T -> bool): nat {
    if s == [] then 0
    else Count(s[..|s| - 1], p) + (if p(s[|s| - 1]) then 1 else 0)
  }

  function SumOf<T>(s: seq<T>, f: T -> int): int {
    if s == [] then 0 else SumOf(s[..|s| - 1], f) + f(s[|s| - 1])
  }

  lemma {:induction false} FilterConcat<T>(a: seq<T>, b: seq<T>, p: T -> bool)
    ensures Filter(a + b, p) == Filter(a, p) + Filter(b, p)
  {
    if b == [] {
      assert a + b == a;
    } else {
      assert (a + b)[..|a + b| - 1] == a + b[..|b| - 1];
      FilterConcat(a, b[..|b| - 1], p);
    }
  }

  lemma {:induction false} CountConcat<T>(a: seq<T>, b: seq<T>, p: T -> bool)
    ensures Count(a + b, p) == Count(a, p) + Count(b, p)
  {
    if b == [] {
      assert a + b == a;
    } else {
      assert (a + b)[..|a + b| - 1] == a + b[..|b| - 1];
      CountConcat(a, b[..|b| - 1], p);
    }
  }

  lemma {:induction false} SumConcat<T>(a: seq<T>, b: seq<T>, f: T -> int)
    ensures SumOf(a + b, f) == SumOf(a, f) + SumOf(b, f)
  {
    if b == [] {
      assert a + b == a;
    } else {
      assert (a + b)[..|a + b| - 1] == a + b[..|b| - 1];
      SumConcat(a, b[..|b| - 1], f);
    }
  }

  /** Taking one element out of a sequence takes its term out of the sum. */
  lemma {:induction false} SumWithout<T>(s: seq<T>, i: nat, f: T -> int)
    requires i < |s|
    ensures SumOf(s[..i] + s[i + 1..], f) == SumOf(s, f) - f(s[i])
  {
    var a, x, b := s[..i], [s[i]], s[i + 1..];
    SumConcat(a, b, f);
    SumConcat(a, x, f);
    SumConcat(a + x, b, f);
    assert s == a + x + b;
    assert x[..0] == [];
  }

  /** Taking one element out of a sequence takes it out of the count. */
  lemma {:induction false} CountWithout<T>(s: seq<T>, i: nat, p: T -> bool)
    requires i < |s|
    ensures Count(s[..i] + s[i + 1..], p) == Count(s, p) - (if p(s[i]) then 1 else 0)
  {
    var a, x, b := s[..i], [s[i]], s[i + 1..];
    CountConcat(a, b, p);
    CountConcat(a, x, p);
    CountConcat(a + x, b, p);
    assert s == a + x + b;
    assert x[..0] == [];
  }

  /** Replacing one element replaces its term in the sum. */
  lemma {:induction false} SumUpdate<T>(s: seq<T>, i: nat, x: T, f: T -> int)
    requires i < |s|
    ensures SumOf(s[i := x], f) == SumOf(s, f) - f(s[i]) + f(x)
  {
    var a, b := s[..i], s[i + 1..];
    SumConcat(a, [s[i]], f);
    SumConcat(a + [s[i]], b, f);
    SumConcat(a, [x], f);
    SumConcat(a + [x], b, f);
    assert s == a + [s[i]] + b && s[i := x] == a + [x] + b;
    assert [x][..0] == [] && [s[i]][..0] == [];
  }

  /** Replacing one element replaces its share of the count. */
  lemma {:induction false} CountUpdate<T>(s: seq<T>, i: nat, x: T, p: T -> bool)
    requires i < |s|
    ensures Count(s[i := x], p) == Count(s, p) - (if p(s[i]) then 1 else 0) + (if p(x) then 1 else 0)
  {
    CountWithout(s, i, p);
    CountWithout(s[i := x], i, p);
    assert s[i := x][..i] + s[i := x][i + 1..] == s[..i] + s[i + 1..];
  }

  lemma {:induction false} CountAtMostLength<T>(s: seq<T>, p: T -> bool)
    ensures Count(s, p) <= |s|
  {
    if s != [] { CountAtMostLength(s[..|s| - 1], p); }
  }

  /** Pointwise equal predicates count alike. */
  lemma {:induction false} CountSame<T>(s: seq<T>, p: T -> bool, q: T -> bool)
    requires forall x :: x in s ==> p(x) == q(x)
    ensures Count(s, p) == Count(s, q)
  {
    if s != [] { CountSame(s[..|s| - 1], p, q); }
  }

  /** Pointwise equal terms sum alike. */
  lemma {:induction false} SumSame<T>(s: seq<T>, f: T -> int, g: T -> int)
    requires forall x :: x in s ==> f(x) == g(x)
    ensures SumOf(s, f) == SumOf(s, g)
  {
    if s != [] { SumSame(s[..|s| - 1], f, g); }
  }

  lemma OneMoreTime(x: int, n: nat)
    ensures x * (n + 1) == x * n + x
  {}

  lemma {:induction false} SumBounds<T>(s: seq<T>, f: T -> int, lo: int, hi: int)
    requires forall x :: x in s ==> lo <= f(x) <= hi
    ensures lo * |s| <= SumOf(s, f) <= hi * |s|
  {
    if s != [] {
      var n := |s| - 1;
      SumBounds(s[..n], f, lo, hi);
      assert s[n] in s;
      OneMoreTime(lo, n);
      OneMoreTime(hi, n);
    }
  }

  // ---- Sequences without duplicates ------------------------------------------------------

  ghost predicate NoDuplicates<T>(s: seq<T>) { forall i, j :: 0 <= i < j < |s| ==> s[i] != s[j] }

  /** A rearrangement has no duplicates either. */
  lemma MultisetNoDuplicates<T>(s: seq<T>, t: seq<T>)
    requires NoDuplicates(s) && multiset(s) == multiset(t)
    ensures NoDuplicates(t)
  {
    forall i, j | 0 <= i < j < |t| ensures t[i] != t[j] {
      if t[i] == t[j] {
        assert t == t[..i] + [t[i]] + t[i + 1..j] + [t[j]] + t[j + 1..];
        assert multiset(t)[t[i]] >= 2;
        AtMostOnce(s, t[i]);
      }
    }
  }

  lemma {:induction false} AtMostOnce<T>(s: seq<T>, x: T)
    requires NoDuplicates(s)
    ensures multiset(s)[x] <= 1
  {
    if s != [] {
      AtMostOnce(s[..|s| - 1], x);
      assert s == s[..|s| - 1] + [s[|s| - 1]];
      if s[|s| - 1] == x { assert x !in s[..|s| - 1]; }
    }
  }
}
