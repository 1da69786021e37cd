/** Reciprocal rank fusion of two rankings (`rrf_fuse`,
    backend/app/knowledge/retrieval_postprocessing.py), over exact reals. */
module RankFusion {
  import opened Basics
  import opened Sorting

  /** The share of one rank. */
  function Share(k: nat, rank: nat): real { 1.0 / (k + rank + 1) as real }

  /** What a ranking contributes to the score of a chunk. */
  function Points(ranking: seq<Id>, k: nat, x: Id): real {
    if ranking == [] then 0.0
    else
      var rank := |ranking| - 1;
      Points(ranking[..rank], k, x) + (if ranking[rank] == x then Share(k, rank) else 0.0)
  }

  function Score(vector: seq<Id>, fts: seq<Id>, k: nat, x: Id): real { Points(vector, k, x) + Points(fts, k, x) }

  /** The distinct ids in the order in which they were first seen. */
  function Seen(ids: seq<Id>): seq<Id> {
    if ids == [] then []
    else
      var front, x := Seen(ids[..|ids| - 1]), ids[|ids| - 1];
      if x in front then front else front + [x]
  }

  function HigherScore(vector: seq<Id>, fts: seq<Id>, k: nat): (Id, Id) -> bool {
    (a: Id, b: Id) => Score(vector, fts, k, a) >= Score(vector, fts, k, b)
  }

  function Ranked(vector: seq<Id>, fts: seq<Id>, k: nat): seq<Id> {
    SortBy(Seen(vector + fts), HigherScore(vector, fts, k))
  }

  function Fused(vector: seq<Id>, fts: seq<Id>, k: nat, topK: nat): seq<Id> {
    var ranked := Ranked(vector, fts, k);
    ranked[..Min(topK, |ranked|)]
  }

  // ---- The loops --------------------------------------------------------------------------

  lemma NoPoints(k: nat, x: Id)
    ensures Points([], k, x) == 0.0
  {}

  lemma OneMorePoint(ranking: seq<Id>, k: nat, rank: nat, x: Id)
    requires rank < |ranking|
    ensures Points(ranking[..rank + 1], k, x) == Points(ranking[..rank], k, x) +
        (if ranking[rank] == x then Share(k, rank) else 0.0)
  {
    assert ranking[..rank + 1][..rank] == ranking[..rank];
  }

  lemma OneMoreSeen(before: seq<Id>, ranking: seq<Id>, rank: nat)
    requires rank < |ranking|
    ensures var seen := Seen(before + ranking[..rank]);
            Seen(before + ranking[..rank + 1]) == if ranking[rank] in seen then seen else seen + [ranking[rank]]
  {
    assert (before + ranking[..rank + 1])[..|before| + rank] == before + ranking[..rank];
  }

  /** One of the two accumulating loops. */
  method AddRanks(ranking: seq<Id>, k: nat, scores: map<Id, real>, order: seq<Id>, ghost before: seq<Id>)
      returns (newScores: map<Id, real>, newOrder: seq<Id>)
    requires order == Seen(before) && forall x :: x in scores <==> x in order
    ensures newOrder == Seen(before + ranking)
    ensures forall x :: x in newScores <==> x in newOrder
    ensures forall x :: x in newScores ==>
              newScores[x] == (if x in scores then scores[x] else 0.0) + Points(ranking, k, x)
    ensures forall x :: x !in newScores ==> Points(ranking, k, x) == 0.0
  {
    hide Points, Seen, Share;
    newScores, newOrder := scores, order;
    var rank := 0;
    assert before + ranking[..0] == before && ranking[..0] == [];
    forall x ensures Points([], k, x) == 0.0 { NoPoints(k, x); }
    while rank < |ranking|
      invariant 0 <= rank <= |ranking|
      invariant newOrder == Seen(before + ranking[..rank])
      invariant forall x :: x in newScores <==> x in newOrder
      invariant forall x :: x in scores ==> x in newScores
      invariant forall x :: x in newScores ==>
                  newScores[x] == (if x in scores then scores[x] else 0.0) + Points(ranking[..rank], k, x)
      invariant forall x :: x !in newScores ==> Points(ranking[..rank], k, x) == 0.0
    {
      var x := ranking[rank];
      OneMoreSeen(before, ranking, rank);
      forall y ensures Points(ranking[..rank + 1], k, y) == Points(ranking[..rank], k, y) +
          (if y == x then Share(k, rank) else 0.0) {
        OneMorePoint(ranking, k, rank, y);
      }
      var soFar := if x in newScores then newScores[x] else 0.0;
      if x !in newScores { newOrder := newOrder + [x]; }
      newScores := newScores[x := soFar + Share(k, rank)];
      rank := rank + 1;
    }
    assert ranking[..rank] == ranking;
  }

  method Fuse(vector: seq<Id>, fts: seq<Id>, k: nat, topK: nat) returns (result: seq<Id>)
    ensures result == Fused(vector, fts, k, topK)
  {
    var scores, order := AddRanks(vector, k, map[], [], []);
    ghost var first := scores;
    assert [] + vector == vector;
    scores, order := AddRanks(fts, k, scores, order, vector);
    forall x | x in order ensures scores[x] == Score(vector, fts, k, x) {
      if x !in first { assert Points(vector, k, x) == 0.0; }
    }
    var higher := (a: Id, b: Id) => a in scores && b in scores && scores[a] >= scores[b];
    SortAlike(order, higher, HigherScore(vector, fts, k));
    var sortedIds := SortBy(order, higher);
    result := if topK < |sortedIds| then sortedIds[..topK] else sortedIds;
  }

  /** Orders that agree on the elements sort them alike. */
  lemma {:induction false} SortAlike<T>(s: seq<T>, le: (T, T) -> bool, other: (T, T) -> bool)
    requires forall a, b :: a in s && b in s ==> le(a, b) == other(a, b)
    ensures SortBy(s, le) == SortBy(s, other)
  {
    if s != [] {
      var front := s[..|s| - 1];
      SortAlike(front, le, other);
      SortMembers(front, le);
      forall a | a in SortBy(front, le) ensures a in s {
        assert a in multiset(SortBy(front, le)) && a in multiset(front);
      }
      assert s[|s| - 1] in s;
      InsertAlike(SortBy(front, le), s[|s| - 1], le, other);
    }
  }

  lemma {:induction false} InsertAlike<T>(s: seq<T>, x: T, le: (T, T) -> bool, other: (T, T) -> bool)
    requires forall a :: a in s ==> le(a, x) == other(a, x)
    ensures Insert(s, x, le) == Insert(s, x, other)
  {
    if s != [] && !le(s[|s| - 1], x) { InsertAlike(s[..|s| - 1], x, le, other); }
  }

  // ---- What fusing gives -------------------------------------------------------------------

  lemma {:induction false} SeenFacts(ids: seq<Id>)
    ensures NoDuplicates(Seen(ids))
    ensures forall x :: x in Seen(ids) <==> x in ids
  {
    if ids != [] {
      SeenFacts(ids[..|ids| - 1]);
      assert ids == ids[..|ids| - 1] + [ids[|ids| - 1]];
    }
  }

  lemma HigherScoreIsTotal(vector: seq<Id>, fts: seq<Id>, k: nat)
    ensures TotalPreorder(HigherScore(vector, fts, k))
  {}

  lemma {:induction false} RankedFacts(vector: seq<Id>, fts: seq<Id>, k: nat)
    ensures Sorted(Ranked(vector, fts, k), HigherScore(vector, fts, k))
    ensures forall x :: x in Ranked(vector, fts, k) <==> x in vector || x in fts
    ensures NoDuplicates(Ranked(vector, fts, k))
  {
    hide TotalPreorder, Sorted, Seen, HigherScore;
    var seen := Seen(vector + fts);
    SeenFacts(vector + fts);
    HigherScoreIsTotal(vector, fts, k);
    SortIsSortedPermutation(seen, HigherScore(vector, fts, k));
    SortMembers(seen, HigherScore(vector, fts, k));
    MultisetNoDuplicates(seen, Ranked(vector, fts, k));
  }

  lemma LastIsNew(s: seq<Id>)
    requires s != [] && NoDuplicates(s)
    ensures s[|s| - 1] !in s[..|s| - 1]
  {}

  lemma LeftOutIsLater(s: seq<Id>, n: nat, j: nat)
    requires j < |s| && n <= |s| && s[j] !in s[..n]
    ensures j >= n
  {}

  lemma HigherIsEarlier(s: seq<Id>, le: (Id, Id) -> bool, i: nat, j: nat)
    requires Sorted(s, le) && i < |s| && j < |s| && !le(s[j], s[i])
    ensures i <= j
  {}

  /** The fused list holds as many of the chunks as asked for, each once, best score
      first, and none of the chunks left out scores higher than one that is kept. */
  lemma {:induction false} FusedIsTheBest(vector: seq<Id>, fts: seq<Id>, k: nat, topK: nat)
    ensures var r := Fused(vector, fts, k, topK);
            && NoDuplicates(r) && |r| == Min(topK, |Seen(vector + fts)|)
            && (forall x :: x in r ==> x in vector || x in fts)
            && (forall i, j :: 0 <= i < j < |r| ==> Score(vector, fts, k, r[i]) >= Score(vector, fts, k, r[j]))
            && (forall x, y :: x in r && (y in vector || y in fts) && y !in r ==>
                  Score(vector, fts, k, x) >= Score(vector, fts, k, y))
  {
    hide Points, Seen, Score;
    var ranked, r := Ranked(vector, fts, k), Fused(vector, fts, k, topK);
    RankedFacts(vector, fts, k);
    SortMembers(Seen(vector + fts), HigherScore(vector, fts, k));
    assert |ranked| == |multiset(ranked)| == |Seen(vector + fts)|;
    forall x, y | x in r && (y in vector || y in fts) && y !in r ensures Score(vector, fts, k, x) >=
        Score(vector, fts, k, y) {
      var i :| 0 <= i < |r| && r[i] == x;
      var j :| 0 <= j < |ranked| && ranked[j] == y;
      LeftOutIsLater(ranked, |r|, j);
      assert HigherScore(vector, fts, k)(ranked[i], ranked[j]);
    }
  }

  /** `a` is ahead of `b` in a ranking, or `b` is not in it. */
  ghost predicate Ahead(ranking: seq<Id>, a: Id, b: Id) {
    forall j :: 0 <= j < |ranking| && ranking[j] == b ==> exists i :: 0 <= i < j && ranking[i] == a
  }

  lemma {:induction false} PointsOf(ranking: seq<Id>, k: nat, x: Id)
    requires NoDuplicates(ranking)
    ensures x !in ranking ==> Points(ranking, k, x) == 0.0
    ensures forall i :: 0 <= i < |ranking| && ranking[i] == x ==> Points(ranking, k, x) == Share(k, i)
  {
    if ranking != [] {
      var front := ranking[..|ranking| - 1];
      PointsOf(front, k, x);
      assert forall i :: 0 <= i < |front| ==> front[i] == ranking[i];
      LastIsNew(ranking);
    }
  }

  lemma SharesFall(k: nat, i: nat, j: nat)
    requires i < j
    ensures Share(k, i) > Share(k, j) > 0.0
  {
    var p, q := (k + i + 1) as real, (k + j + 1) as real;
    assert 0.0 < p < q;
    assert 1.0 / p - 1.0 / q == (q - p) / (p * q);
  }

  lemma PointsNotNegative(ranking: seq<Id>, k: nat, x: Id)
    requires NoDuplicates(ranking)
    ensures Points(ranking, k, x) >= 0.0
  {}

  lemma {:induction false} AheadScoresMore(ranking: seq<Id>, k: nat, a: Id, b: Id)
    requires NoDuplicates(ranking) && Ahead(ranking, a, b)
    ensures Points(ranking, k, a) >= Points(ranking, k, b)
    ensures b in ranking ==> Points(ranking, k, a) > Points(ranking, k, b)
  {
    PointsOf(ranking, k, a);
    PointsOf(ranking, k, b);
    PointsNotNegative(ranking, k, a);
    if b in ranking {
      var j :| 0 <= j < |ranking| && ranking[j] == b;
      var i :| 0 <= i < j && ranking[i] == a;
      SharesFall(k, i, j);
    }
  }

  /** A chunk that is ahead of another in every ranking that contains the other is
      fused ahead of it, and is kept whenever the other is. */
  lemma {:induction false} DominanceIsKept(vector: seq<Id>, fts: seq<Id>, k: nat, topK: nat, a: Id, b: Id)
    requires NoDuplicates(vector) && NoDuplicates(fts)
    requires Ahead(vector, a, b) && Ahead(fts, a, b)
    requires b in Fused(vector, fts, k, topK)
    ensures var r := Fused(vector, fts, k, topK);
            exists i, j :: 0 <= i < j < |r| && r[i] == a && r[j] == b
  {
    hide Points, Seen;
    var ranked, r := Ranked(vector, fts, k), Fused(vector, fts, k, topK);
    RankedFacts(vector, fts, k);
    assert b in vector || b in fts by { assert b in ranked; }
    AheadScoresMore(vector, k, a, b);
    AheadScoresMore(fts, k, a, b);
    if b in vector { AheadIsPresent(vector, a, b); } else { AheadIsPresent(fts, a, b); }
    var j :| 0 <= j < |r| && r[j] == b;
    var i :| 0 <= i < |ranked| && ranked[i] == a;
    HigherIsEarlier(ranked, HigherScore(vector, fts, k), i, j);
    assert r[i] == a;
  }

  lemma AheadIsPresent(ranking: seq<Id>, a: Id, b: Id)
    requires Ahead(ranking, a, b) && b in ranking
    ensures a in ranking
  {}

  // ---- The scores and the ties -----------------------------------------------------------------

  /** Being at position `n`, counted from one, of either ranking is worth 1 / (k + n),
      and nothing else is worth anything. */
  lemma {:induction false} OneMoreRank(vector: seq<Id>, fts: seq<Id>, k: nat, y: Id, x: Id)
    ensures Score([], [], k, x) == 0.0
    ensures Score(vector + [y], fts, k, x) ==
            Score(vector, fts, k, x) + (if y == x then 1.0 / (k + |vector + [y]|) as real else 0.0)
    ensures Score(vector, fts + [y], k, x) ==
            Score(vector, fts, k, x) + (if y == x then 1.0 / (k + |fts + [y]|) as real else 0.0)
  {
    assert (vector + [y])[..|vector|] == vector && (fts + [y])[..|fts|] == fts;
    NoPoints(k, x);
  }

  /** `x` comes up in the ids before `y` first does. */
  ghost predicate SeenBefore(ids: seq<Id>, x: Id, y: Id) {
    exists a :: 0 <= a < |ids| && ids[a] == x && y !in ids[..a + 1]
  }

  lemma {:induction false} SeenInOrder(ids: seq<Id>, i: nat, j: nat)
    requires i < j < |Seen(ids)|
    ensures SeenBefore(ids, Seen(ids)[i], Seen(ids)[j])
  {
    var front, x := ids[..|ids| - 1], ids[|ids| - 1];
    SeenFacts(front);
    if j < |Seen(front)| {
      SeenInOrder(front, i, j);
      var a :| 0 <= a < |front| && front[a] == Seen(front)[i] && Seen(front)[j] !in front[..a + 1];
      assert ids[..a + 1] == front[..a + 1];
    } else {
      assert Seen(front)[i] in front;
      var a :| 0 <= a < |front| && front[a] == Seen(front)[i];
      assert ids[a] == front[a];
      forall b | 0 <= b <= a ensures ids[b] != x { assert ids[b] == front[b] && front[b] in front; }
    }
  }

  /** Of two chunks with the same score the one that comes up first is fused first,
      the vector ranking being read before the other. */
  lemma {:induction false} TiesKeepFirstSeen(vector: seq<Id>, fts: seq<Id>, k: nat, topK: nat, i: nat, j: nat)
    requires i < j < |Fused(vector, fts, k, topK)|
    ensures var r := Fused(vector, fts, k, topK);
            Score(vector, fts, k, r[i]) == Score(vector, fts, k, r[j]) ==> SeenBefore(vector + fts, r[i], r[j])
  {
    hide Points, Seen, Score, TotalPreorder, Sorted, SeenBefore;
    var seen, ranked, le := Seen(vector + fts), Ranked(vector, fts, k), HigherScore(vector, fts, k);
    var x, y := ranked[i], ranked[j];
    RankedFacts(vector, fts, k);
    SeenFacts(vector + fts);
    HigherScoreIsTotal(vector, fts, k);
    assert x in ranked && y in ranked && x != y;
    SortOrders(seen, le, x, y);
    assert Before(ranked, x, y);
    if Score(vector, fts, k, x) == Score(vector, fts, k, y) {
      var a, b :| 0 <= a < b < |seen| && seen[a] == x && seen[b] == y;
      SeenInOrder(vector + fts, a, b);
    }
  }
}
