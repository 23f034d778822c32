/** Ranking by descending score: the stable sort, truncation, and reciprocal rank fusion (`crates/search/src/hybrid.rs`). */
module Ranking {
  import opened Collections
  import opened Tables
  import opened Hits
  import opened RealArith

  // The stable descending sort, by insertion behind all entries that score at least as much.
  function InsertDesc(s: seq<Ranked>, x: Ranked): seq<Ranked> {
    if s == [] || s[|s| - 1].score >= x.score then s + [x]
    else InsertDesc(s[..|s| - 1], x) + [s[|s| - 1]]
  }

  function SortDesc(s: seq<Ranked>): seq<Ranked> {
    if s == [] then [] else InsertDesc(SortDesc(s[..|s| - 1]), s[|s| - 1])
  }

  lemma {:induction false} InsertAddsOne(s: seq<Ranked>, x: Ranked)
    ensures multiset(InsertDesc(s, x)) == multiset(s) + multiset{x}
  {
    if s != [] && s[|s| - 1].score < x.score {
      InsertAddsOne(s[..|s| - 1], x);
      assert s == s[..|s| - 1] + [s[|s| - 1]];
    }
  }

  lemma SameLength(s: seq<Ranked>, t: seq<Ranked>)
    requires multiset(s) == multiset(t)
    ensures |s| == |t|
  {
    assert |multiset(s)| == |s| && |multiset(t)| == |t|;
  }

  lemma {:induction false} InsertKeepsOrder(s: seq<Ranked>, x: Ranked)
    requires Descending(s)
    ensures Descending(InsertDesc(s, x))
  {
    if s != [] && s[|s| - 1].score < x.score {
      var (front, last) := (s[..|s| - 1], s[|s| - 1]);
      InsertKeepsOrder(front, x);
      InsertAddsOne(front, x);
      forall y | y in InsertDesc(front, x)
        ensures last.score <= y.score
      {
        assert y in multiset(front) + multiset{x};
      }
    }
  }

  /** Sorting orders by descending score and keeps every entry as often as it occurred. */
  lemma {:induction false} SortIsDescending(s: seq<Ranked>)
    ensures Descending(SortDesc(s)) && multiset(SortDesc(s)) == multiset(s) && |SortDesc(s)| == |s|
  {
    if s != [] {
      var k := |s| - 1;
      SortIsDescending(s[..k]);
      InsertKeepsOrder(SortDesc(s[..k]), s[k]);
      InsertAddsOne(SortDesc(s[..k]), s[k]);
      assert s == s[..k] + [s[k]];
    }
    SameLength(SortDesc(s), s);
  }

  lemma SortKeepsMembers(s: seq<Ranked>)
    ensures forall x :: x in SortDesc(s) <==> x in s
  {
    SortIsDescending(s);
    forall x
      ensures x in SortDesc(s) <==> x in s
    {
      assert x in SortDesc(s) <==> x in multiset(SortDesc(s));
      assert x in s <==> x in multiset(s);
    }
  }

  ghost function IdSet(s: seq<Ranked>): set<Id> {
    set i | 0 <= i < |s| :: s[i].id
  }

  lemma {:induction false} DistinctIdCount(s: seq<Ranked>)
    ensures |IdSet(s)| <= |s|
    ensures DistinctIds(s) <==> |IdSet(s)| == |s|
  {
    if s != [] {
      var (front, last) := (s[..|s| - 1], s[|s| - 1]);
      DistinctIdCount(front);
      assert IdSet(s) == IdSet(front) + {last.id};
      assert DistinctIds(s) <==> DistinctIds(front) && last.id !in IdSet(front);
    }
  }

  /** Sorting keeps ids distinct. */
  lemma SortKeepsDistinctIds(s: seq<Ranked>)
    requires DistinctIds(s)
    ensures DistinctIds(SortDesc(s)) && IdSet(SortDesc(s)) == IdSet(s)
  {
    SortIsDescending(s);
    SortKeepsMembers(s);
    forall id
      ensures id in IdSet(SortDesc(s)) <==> id in IdSet(s)
    {
      if id in IdSet(SortDesc(s)) {
        var i :| 0 <= i < |SortDesc(s)| && SortDesc(s)[i].id == id;
        assert SortDesc(s)[i] in s;
      }
      if id in IdSet(s) {
        var i :| 0 <= i < |s| && s[i].id == id;
        assert s[i] in SortDesc(s);
      }
    }
    assert IdSet(SortDesc(s)) == IdSet(s);
    DistinctIdCount(s);
    DistinctIdCount(SortDesc(s));
  }

  function Truncate(s: seq<Ranked>, limit: nat): seq<Ranked> {
    if |s| <= limit then s else s[..limit]
  }

  // `top` is the best `limit` of `pool`: ranked, and nothing left out scores higher.
  ghost predicate IsTop(pool: seq<Ranked>, top: seq<Ranked>, limit: nat) {
    && |top| == (if |pool| <= limit then |pool| else limit)
    && Descending(top) && DistinctIds(top)
    && (forall i :: 0 <= i < |top| ==> top[i] in pool)
    && (forall x, i :: x in pool && x !in top && 0 <= i < |top| ==> x.score <= top[i].score)
  }

  /** Sort and truncate returns distinct ids in descending score and omits nothing that outscores a result. */
  lemma TruncatedSortIsTop(pool: seq<Ranked>, limit: nat)
    requires DistinctIds(pool)
    ensures IsTop(pool, Truncate(SortDesc(pool), limit), limit)
  {
    SortIsDescending(pool);
    SortKeepsMembers(pool);
    SortKeepsDistinctIds(pool);
    PrefixIsTop(pool, SortDesc(pool), limit);
  }

  lemma PrefixIsTop(pool: seq<Ranked>, sorted: seq<Ranked>, limit: nat)
    requires Descending(sorted) && DistinctIds(sorted) && |sorted| == |pool| && forall x :: x in sorted <==> x in pool
    ensures IsTop(pool, Truncate(sorted, limit), limit)
  {
    var top := Truncate(sorted, limit);
    forall i | 0 <= i < |top|
      ensures top[i] in pool
    {
      assert top[i] == sorted[i] && sorted[i] in sorted;
    }
    forall x, i | x in pool && x !in top && 0 <= i < |top|
      ensures x.score <= top[i].score
    {
      var j :| 0 <= j < |sorted| && sorted[j] == x;
      assert top[i] == sorted[i];
    }
  }

  // -------------------------------------------------------------------------
  // Reciprocal rank fusion
  // -------------------------------------------------------------------------

  datatype RankedHit = RankedHit(id: Id, rank: nat)

  function Contribution(k: nat, rank: nat): (c: real)
    ensures c > 0.0
  {
    1.0 / (k + rank + 1) as real
  }

  function ListScore(list: seq<RankedHit>, k: nat, id: Id): real {
    if list == [] then 0.0
    else
      var h := list[|list| - 1];
      ListScore(list[..|list| - 1], k, id) + if h.id == id then Contribution(k, h.rank) else 0.0
  }

  function FusedScore(lists: seq<seq<RankedHit>>, k: nat, id: Id): real {
    if lists == [] then 0.0
    else FusedScore(lists[..|lists| - 1], k, id) + ListScore(lists[|lists| - 1], k, id)
  }

  ghost predicate InList(list: seq<RankedHit>, id: Id) {
    exists i :: 0 <= i < |list| && list[i].id == id
  }

  ghost predicate InLists(lists: seq<seq<RankedHit>>, id: Id) {
    exists l :: 0 <= l < |lists| && InList(lists[l], id)
  }

  // The scores accumulated from the first lists are exactly the fused scores of the ids in them.
  ghost predicate Accumulated(scores: map<Id, real>, lists: seq<seq<RankedHit>>, k: nat) {
    && (forall id :: id in scores <==> InLists(lists, id))
    && (forall id :: id in scores ==> scores[id] == FusedScore(lists, k, id))
  }

  lemma {:induction false} AbsentScoresNothing(list: seq<RankedHit>, k: nat, id: Id)
    requires !InList(list, id)
    ensures ListScore(list, k, id) == 0.0
  {
    if list != [] {
      var front := list[..|list| - 1];
      assert list[|list| - 1].id != id;
      AbsentScoresNothing(front, k, id);
    }
  }

  lemma {:induction false} AbsentEverywhereScoresNothing(lists: seq<seq<RankedHit>>, k: nat, id: Id)
    requires !InLists(lists, id)
    ensures FusedScore(lists, k, id) == 0.0
  {
    if lists != [] {
      var n := |lists| - 1;
      assert !InList(lists[n], id);
      assert !InLists(lists[..n], id) by {
        forall l | 0 <= l < n
          ensures !InList(lists[..n][l], id)
        {
          assert !InList(lists[l], id);
        }
      }
      AbsentEverywhereScoresNothing(lists[..n], k, id);
      AbsentScoresNothing(lists[n], k, id);
    }
  }

  // The inner loop: the scores of the lists before, plus what one list adds.
  method AddList(scores0: map<Id, real>, list: seq<RankedHit>, k: nat) returns (scores: map<Id, real>)
    ensures forall id :: id in scores <==> id in scores0 || InList(list, id)
    ensures forall id :: id in scores ==> scores[id] == (if id in scores0 then scores0[id] else 0.0) + ListScore(list, k, id)
  {
    scores := scores0;
    for i := 0 to |list|
      invariant forall id :: id in scores <==> id in scores0 || InList(list[..i], id)
      invariant forall id :: id in scores ==> scores[id] == (if id in scores0 then scores0[id] else 0.0) + ListScore(list[..i], k, id)
    {
      var h := list[i];
      assert list[..i + 1][..i] == list[..i];
      forall id
        ensures InList(list[..i + 1], id) <==> InList(list[..i], id) || id == h.id
      {
        if InList(list[..i], id) {
          var j :| 0 <= j < i && list[..i][j].id == id;
          assert list[..i + 1][j].id == id;
        }
        if id == h.id {
          assert list[..i + 1][i].id == id;
        }
      }
      if h.id !in scores {
        AbsentScoresNothing(list[..i], k, h.id);
      }
      scores := scores[h.id := (if h.id in scores then scores[h.id] else 0.0) + Contribution(k, h.rank)];
    }
    assert list[..|list|] == list;
  }

  lemma AccumulateOne(scores0: map<Id, real>, scores: map<Id, real>, lists: seq<seq<RankedHit>>, n: nat, k: nat)
    requires n < |lists| && Accumulated(scores0, lists[..n], k)
    requires forall id :: id in scores <==> id in scores0 || InList(lists[n], id)
    requires forall id :: id in scores ==> scores[id] == (if id in scores0 then scores0[id] else 0.0) + ListScore(lists[n], k, id)
    ensures Accumulated(scores, lists[..n + 1], k)
  {
    var (before, after) := (lists[..n], lists[..n + 1]);
    assert after[..n] == before && after[n] == lists[n];
    forall id
      ensures InLists(after, id) <==> InLists(before, id) || InList(lists[n], id)
      ensures id in scores ==> scores[id] == FusedScore(after, k, id)
    {
      if InLists(before, id) {
        var l :| 0 <= l < n && InList(before[l], id);
        assert InList(after[l], id);
      } else {
        AbsentEverywhereScoresNothing(before, k, id);
      }
      if InList(lists[n], id) {
        assert InList(after[n], id);
      }
      if InLists(after, id) && !InList(lists[n], id) {
        var l :| 0 <= l < |after| && InList(after[l], id);
        assert InList(before[l], id);
      }
    }
  }

  /** Every id of the lists once, with its fused score, best first. */
  method ReciprocalRankFusion(lists: seq<seq<RankedHit>>, k: nat) returns (fused: seq<Ranked>)
    ensures Descending(fused) && DistinctIds(fused)
    ensures forall id :: id in IdSet(fused) <==> InLists(lists, id)
    ensures forall i :: 0 <= i < |fused| ==> fused[i].source == Direct && fused[i].score == FusedScore(lists, k, fused[i].id)
  {
    var scores: map<Id, real> := map[];
    for n := 0 to |lists|
      invariant Accumulated(scores, lists[..n], k)
    {
      ghost var before := scores;
      scores := AddList(scores, lists[n], k);
      AccumulateOne(before, scores, lists, n, k);
    }
    assert lists[..|lists|] == lists;
    var ids := Enumerate(scores.Keys);
    assert forall i :: 0 <= i < |ids| ==> ids[i] in ids;
    var entries := seq(|ids|, i requires 0 <= i < |ids| => Ranked(ids[i], scores[ids[i]], Direct));
    fused := SortDesc(entries);
    FusionOrder(entries, ids, lists, k);
  }

  lemma FusionOrder(entries: seq<Ranked>, ids: seq<Id>, lists: seq<seq<RankedHit>>, k: nat)
    requires |entries| == |ids| && NoDup(ids) && forall id :: id in ids <==> InLists(lists, id)
    requires forall i :: 0 <= i < |ids| ==> entries[i] == Ranked(ids[i], FusedScore(lists, k, ids[i]), Direct)
    ensures var fused := SortDesc(entries);
            && Descending(fused) && DistinctIds(fused)
            && (forall id :: id in IdSet(fused) <==> InLists(lists, id))
            && (forall i :: 0 <= i < |fused| ==> fused[i].source == Direct && fused[i].score == FusedScore(lists, k, fused[i].id))
  {
    SortIsDescending(entries);
    SortKeepsMembers(entries);
    SortKeepsDistinctIds(entries);
    forall id
      ensures id in IdSet(entries) <==> InLists(lists, id)
    {
      if InLists(lists, id) {
        assert id in ids;
        var i :| 0 <= i < |ids| && ids[i] == id;
        assert entries[i].id == id;
      }
    }
    forall i | 0 <= i < |entries|
      ensures var x := SortDesc(entries)[i]; x.source == Direct && x.score == FusedScore(lists, k, x.id)
    {
      assert SortDesc(entries)[i] in entries;
    }
  }

  // In this list `b` occurs at most once, and where it does `a` is ranked no worse.
  ghost predicate NoWorse(list: seq<RankedHit>, a: Id, b: Id) {
    && (forall i, j :: 0 <= i < j < |list| && list[i].id == b ==> list[j].id != b)
    && (forall j :: 0 <= j < |list| && list[j].id == b ==> exists i :: 0 <= i < |list| && list[i].id == a && list[i].rank <= list[j].rank)
  }

  lemma {:induction false} ListScoreAtLeast(list: seq<RankedHit>, k: nat, id: Id, i: nat)
    requires i < |list| && list[i].id == id
    ensures ListScore(list, k, id) >= Contribution(k, list[i].rank)
  {
    var n := |list| - 1;
    ListScoreNonNegative(list[..n], k, id);
    if i < n {
      ListScoreAtLeast(list[..n], k, id, i);
    }
  }

  lemma {:induction false} ListScoreNonNegative(list: seq<RankedHit>, k: nat, id: Id)
    ensures ListScore(list, k, id) >= 0.0
  {
    if list != [] {
      ListScoreNonNegative(list[..|list| - 1], k, id);
    }
  }

  lemma {:induction false} ListScoreOfSingle(list: seq<RankedHit>, k: nat, id: Id, i: nat)
    requires i < |list| && list[i].id == id && forall j :: 0 <= j < |list| && j != i ==> list[j].id != id
    ensures ListScore(list, k, id) == Contribution(k, list[i].rank)
  {
    var n := |list| - 1;
    if i < n {
      ListScoreOfSingle(list[..n], k, id, i);
    } else {
      assert !InList(list[..n], id);
      AbsentScoresNothing(list[..n], k, id);
    }
  }

  lemma BetterRankContributesMore(k: nat, r: nat, r': nat)
    requires r <= r'
    ensures Contribution(k, r') <= Contribution(k, r)
  {
    DivisionIsMonotone(1.0, 1.0, (k + r + 1) as real, (k + r' + 1) as real);
  }

  lemma ListMonotone(list: seq<RankedHit>, k: nat, a: Id, b: Id)
    requires NoWorse(list, a, b)
    ensures ListScore(list, k, b) <= ListScore(list, k, a)
  {
    ListScoreNonNegative(list, k, a);
    if InList(list, b) {
      var j :| 0 <= j < |list| && list[j].id == b;
      var i :| 0 <= i < |list| && list[i].id == a && list[i].rank <= list[j].rank;
      ListScoreOfSingle(list, k, b, j);
      ListScoreAtLeast(list, k, a, i);
      BetterRankContributesMore(k, list[i].rank, list[j].rank);
    } else {
      AbsentScoresNothing(list, k, b);
    }
  }

  /** An id ranked no worse than another in every list containing the other never gets a lower fused score. */
  lemma {:induction false} FusionIsMonotone(lists: seq<seq<RankedHit>>, k: nat, a: Id, b: Id)
    requires forall l :: 0 <= l < |lists| ==> NoWorse(lists[l], a, b)
    ensures FusedScore(lists, k, b) <= FusedScore(lists, k, a)
  {
    if lists != [] {
      FusionIsMonotone(lists[..|lists| - 1], k, a, b);
      ListMonotone(lists[|lists| - 1], k, a, b);
    }
  }
}
