/**
  Which links a request leaves, told by the positions of the memories it names: co-retrieval by a
  search, co-creation by a batch, and the link and unlink requests, in every run.
 */
module PairLinks {
  import opened Lifecycle
  import opened Collections
  import opened Tables
  import opened Associations
  import opened Ingest
  import opened Retrieval
  import opened Requests
  import opened Steps
  import R = Runs

  // -------------------------------------------------------------------------
  // Lists of pairs
  // -------------------------------------------------------------------------

  // Pairs of different ids, no two of which join the same two.
  ghost predicate Simple(pairs: seq<(Id, Id)>) {
    && (forall i :: 0 <= i < |pairs| ==> pairs[i].0 != pairs[i].1)
    && (forall i, j :: 0 <= i < j < |pairs| ==> !SameTwo(pairs[i], pairs[j]))
  }

  predicate SameTwo(p: (Id, Id), q: (Id, Id)) {
    p == q || p == (q.1, q.0)
  }

  ghost predicate Joins(pairs: seq<(Id, Id)>, e: (Id, Id)) {
    exists i :: 0 <= i < |pairs| && SameTwo(pairs[i], e)
  }

  // `e` joins two different members of the list.
  ghost predicate AmongTwo(ids: seq<Id>, e: (Id, Id)) {
    exists i, j :: 0 <= i < |ids| && 0 <= j < |ids| && i != j && e == (ids[i], ids[j])
  }

  ghost function HeadPairs(ids: seq<Id>): seq<(Id, Id)>
    requires ids != []
  {
    seq(|ids| - 1, k requires 0 <= k < |ids| - 1 => (ids[0], ids[k + 1]))
  }

  // Every pair is of two positions, the earlier one first.
  lemma {:induction false} PairsComeFromPositions(ids: seq<Id>, k: nat) returns (i: nat, j: nat)
    requires k < |PairsOf(ids)|
    ensures i < j < |ids| && PairsOf(ids)[k] == (ids[i], ids[j])
  {
    if k < |ids| - 1 {
      i, j := 0, k + 1;
    } else {
      i, j := PairsComeFromPositions(ids[1..], k - (|ids| - 1));
      i, j := i + 1, j + 1;
    }
  }

  lemma {:induction false} PositionsArePaired(ids: seq<Id>, i: nat, j: nat) returns (k: nat)
    requires i < j < |ids|
    ensures k < |PairsOf(ids)| && PairsOf(ids)[k] == (ids[i], ids[j])
  {
    if i == 0 {
      k := j - 1;
    } else {
      k := PositionsArePaired(ids[1..], i - 1, j - 1);
      k := |ids| - 1 + k;
    }
  }

  lemma PairsJoinExactly(ids: seq<Id>, e: (Id, Id))
    ensures Joins(PairsOf(ids), e) <==> AmongTwo(ids, e)
  {
    if Joins(PairsOf(ids), e) {
      var k :| 0 <= k < |PairsOf(ids)| && SameTwo(PairsOf(ids)[k], e);
      var i, j := PairsComeFromPositions(ids, k);
      assert e == (ids[i], ids[j]) || e == (ids[j], ids[i]);
    }
    if AmongTwo(ids, e) {
      var i, j :| 0 <= i < |ids| && 0 <= j < |ids| && i != j && e == (ids[i], ids[j]);
      var k := PositionsArePaired(ids, if i < j then i else j, if i < j then j else i);
      assert SameTwo(PairsOf(ids)[k], e);
    }
  }

  lemma {:induction false} PairsAreSimple(ids: seq<Id>)
    requires NoDup(ids)
    ensures Simple(PairsOf(ids))
  {
    if ids != [] {
      var (head, rest) := (HeadPairs(ids), PairsOf(ids[1..]));
      PairsAreSimple(ids[1..]);
      assert PairsOf(ids) == head + rest;
      forall a, b | 0 <= a < |head| && 0 <= b < |rest|
        ensures !SameTwo(head[a], rest[b])
      {
        var i, j := PairsComeFromPositions(ids[1..], b);
        assert ids[1..][i] == ids[i + 1] && ids[1..][j] == ids[j + 1];
      }
      JoinSimple(head, rest);
    }
  }

  lemma JoinSimple(a: seq<(Id, Id)>, b: seq<(Id, Id)>)
    requires Simple(a) && Simple(b) && forall i, j :: 0 <= i < |a| && 0 <= j < |b| ==> !SameTwo(a[i], b[j])
    ensures Simple(a + b)
  {
    var all := a + b;
    forall i, j | 0 <= i < j < |all|
      ensures !SameTwo(all[i], all[j])
    {
      if j >= |a| && i < |a| {
        assert all[i] == a[i] && all[j] == b[j - |a|];
      }
    }
  }

  // -------------------------------------------------------------------------
  // Two ways of bumping both directions of every pair
  // -------------------------------------------------------------------------

  // The edge after a bump by `amount`.
  function BumpedEdge(assoc: Links, e: (Id, Id), amount: real, now: int): Edge {
    Edge(Clamp01(if e in assoc then assoc[e].weight + amount else amount), Some(now))
  }

  // Exactly the links that satisfy `hit` were bumped; all others are as they were.
  ghost predicate BumpedWhere(before: Links, after: Links, hit: ((Id, Id)) -> bool, amount: real, now: int) {
    forall e :: if hit(e) then e in after && after[e] == BumpedEdge(before, e, amount, now)
                else (e in after <==> e in before) && (e in before ==> after[e] == before[e])
  }

  // A search's upserts leave a weight below zero as it comes out; weights are never below zero.
  lemma UpsertIsBump(assoc: Links, a: Id, b: Id, amount: real, now: int)
    requires amount >= 0.0 && ((a, b) in assoc ==> assoc[(a, b)].weight >= 0.0)
    ensures Upsert(assoc, a, b, amount, now) == assoc[(a, b) := BumpedEdge(assoc, (a, b), amount, now)]
  {
  }

  ghost predicate NotNegative(assoc: Links) {
    forall e :: e in assoc ==> assoc[e].weight >= 0.0
  }

  lemma {:induction false} StrengthenAllBumps(assoc: Links, pairs: seq<(Id, Id)>, amount: real, now: int)
    requires Simple(pairs) && amount >= 0.0 && NotNegative(assoc)
    ensures BumpedWhere(assoc, StrengthenAll(assoc, pairs, amount, now), e => Joins(pairs, e), amount, now)
    ensures NotNegative(StrengthenAll(assoc, pairs, amount, now))
  {
    if pairs != [] {
      var (front, last) := (pairs[..|pairs| - 1], pairs[|pairs| - 1]);
      StrengthenAllBumps(assoc, front, amount, now);
      var mid := StrengthenAll(assoc, front, amount, now);
      UpsertIsBump(mid, last.0, last.1, amount, now);
      UpsertIsBump(Upsert(mid, last.0, last.1, amount, now), last.1, last.0, amount, now);
      OnePairMore(assoc, mid, StrengthenAll(assoc, pairs, amount, now), pairs, amount, now);
    }
  }

  // The last of the pairs is bumped once, both ways, after the others.
  lemma OnePairMore(before: Links, mid: Links, after: Links, pairs: seq<(Id, Id)>, amount: real, now: int)
    requires pairs != [] && Simple(pairs)
    requires BumpedWhere(before, mid, e => Joins(pairs[..|pairs| - 1], e), amount, now)
    requires BumpedWhere(mid, after, e => SameTwo(pairs[|pairs| - 1], e), amount, now)
    ensures BumpedWhere(before, after, e => Joins(pairs, e), amount, now)
  {
    var (front, last) := (pairs[..|pairs| - 1], pairs[|pairs| - 1]);
    forall e
      ensures Joins(pairs, e) <==> Joins(front, e) || SameTwo(last, e)
      ensures !(Joins(front, e) && SameTwo(last, e))
    {
      JoinsLast(pairs, e);
    }
    assert forall e {:trigger Joins(front, e)} :: (e => Joins(front, e))(e) == Joins(front, e);
  }

  lemma JoinsLast(pairs: seq<(Id, Id)>, e: (Id, Id))
    requires pairs != []
    ensures Joins(pairs, e) <==> Joins(pairs[..|pairs| - 1], e) || SameTwo(pairs[|pairs| - 1], e)
    ensures Simple(pairs) ==> !(Joins(pairs[..|pairs| - 1], e) && SameTwo(pairs[|pairs| - 1], e))
  {
    var front := pairs[..|pairs| - 1];
    if Joins(front, e) {
      var i :| 0 <= i < |front| && SameTwo(front[i], e);
      assert SameTwo(pairs[i], e);
    }
  }

  lemma LinkBothBumps(db: Db, p: (Id, Id), bump: real, now: int)
    requires p.0 != p.1 && EndpointsExist(db, p.0, p.1)
    ensures var after := LinkBoth(db, p.0, p.1, bump, now);
            after == db.(assoc := after.assoc) && BumpedWhere(db.assoc, after.assoc, e => SameTwo(p, e), bump, now)
  {
    var mid := CreateOrStrengthen(db, p.0, p.1, bump, now);
    assert mid.assoc == db.assoc[p := BumpedEdge(db.assoc, p, bump, now)];
    var back := (p.1, p.0);
    assert LinkBoth(db, p.0, p.1, bump, now).assoc == mid.assoc[back := BumpedEdge(db.assoc, back, bump, now)];
  }

  lemma {:induction false} LinkPairsBumps(db: Db, pairs: seq<(Id, Id)>, bump: real, now: int)
    requires Simple(pairs) && AllEndpointsExist(db, pairs)
    ensures var after := LinkPairs(db, pairs, bump, now);
            after == db.(assoc := after.assoc) && BumpedWhere(db.assoc, after.assoc, e => Joins(pairs, e), bump, now)
  {
    if pairs != [] {
      var (front, last) := (pairs[..|pairs| - 1], pairs[|pairs| - 1]);
      assert last in pairs;
      LinkPairsBumps(db, front, bump, now);
      var mid := LinkPairs(db, front, bump, now);
      LinkBothBumps(mid, last, bump, now);
      OnePairMore(db.assoc, mid.assoc, LinkPairs(db, pairs, bump, now).assoc, pairs, bump, now);
    }
  }

  // -------------------------------------------------------------------------
  // Searches
  // -------------------------------------------------------------------------

  // The edge after a co-retrieval: a tenth more, at most one, dated now; a new link starts at a tenth.
  function CoRetrievedEdge(before: Links, e: (Id, Id), now: int): Edge {
    Edge(if e !in before then 0.1 else if before[e].weight <= 0.9 then before[e].weight + 0.1 else 1.0, Some(now))
  }

  // The positions whose results a search links: the first ten.
  predicate TopPosition(results: seq<Retrieved>, i: nat) {
    i < |results| && i < 10
  }

  // Any two of the first ten results are linked in both directions; no other link changes.
  ghost predicate CoRetrieved(before: Links, after: Links, results: seq<Retrieved>, now: int) {
    && (forall i: nat, j: nat :: TopPosition(results, i) && TopPosition(results, j) && i != j ==>
          var e := (results[i].id, results[j].id);
          e in after && after[e] == CoRetrievedEdge(before, e, now))
    && (forall e :: (forall i: nat, j: nat :: TopPosition(results, i) && TopPosition(results, j) && i != j ==>
                       e != (results[i].id, results[j].id)) ==>
          (e in after <==> e in before) && (e in before ==> after[e] == before[e]))
  }

  lemma TopIsOwned(db: Db, user: string, results: seq<Retrieved>)
    requires DistinctRows(db, user, results)
    ensures NoDup(TopTen(IdsOf(results))) && AllEndpointsExist(db, PairsOf(TopTen(IdsOf(results))))
  {
    var ids := TopTen(IdsOf(results));
    assert forall i :: 0 <= i < |ids| ==> ids[i] == results[i].id;
    forall p | p in PairsOf(ids)
      ensures EndpointsExist(db, p.0, p.1)
    {
      PairsAreDrawnFrom(ids);
    }
  }

  lemma TopPairs(results: seq<Retrieved>, e: (Id, Id))
    ensures AmongTwo(TopTen(IdsOf(results)), e) <==>
            exists i: nat, j: nat :: TopPosition(results, i) && TopPosition(results, j) && i != j && e == (results[i].id, results[j].id)
  {
    var ids := TopTen(IdsOf(results));
    assert forall i :: 0 <= i < |ids| ==> ids[i] == results[i].id;
    if AmongTwo(ids, e) {
      var i, j :| 0 <= i < |ids| && 0 <= j < |ids| && i != j && e == (ids[i], ids[j]);
      assert TopPosition(results, i) && TopPosition(results, j);
    }
    if i: nat, j: nat :| TopPosition(results, i) && TopPosition(results, j) && i != j && e == (results[i].id, results[j].id) {
      assert e == (ids[i], ids[j]);
    }
  }

  lemma BumpedIsCoRetrieved(before: Links, after: Links, results: seq<Retrieved>, now: int)
    requires forall e :: e in before ==> 0.0 <= before[e].weight <= 1.0
    requires BumpedWhere(before, after, e => Joins(PairsOf(TopTen(IdsOf(results))), e), 0.1, now)
    ensures CoRetrieved(before, after, results, now)
  {
    var pairs := PairsOf(TopTen(IdsOf(results)));
    forall i: nat, j: nat | TopPosition(results, i) && TopPosition(results, j) && i != j
      ensures var e := (results[i].id, results[j].id); e in after && after[e] == CoRetrievedEdge(before, e, now)
    {
      var e := (results[i].id, results[j].id);
      TopPairs(results, e);
      PairsJoinExactly(TopTen(IdsOf(results)), e);
      assert (e => Joins(pairs, e))(e);
    }
    forall e | forall i: nat, j: nat :: TopPosition(results, i) && TopPosition(results, j) && i != j ==> e != (results[i].id, results[j].id)
      ensures (e in after <==> e in before) && (e in before ==> after[e] == before[e])
    {
      TopPairs(results, e);
      PairsJoinExactly(TopTen(IdsOf(results)), e);
      assert !(e => Joins(pairs, e))(e);
    }
  }

  lemma TopIsLinked(mid: Db, results: seq<Retrieved>, now: int)
    requires WeightsInRange(mid) && NoDup(TopTen(IdsOf(results)))
    requires AllEndpointsExist(mid, PairsOf(TopTen(IdsOf(results))))
    ensures CoRetrieved(mid.assoc, StrengthenPairs(mid, PairsOf(TopTen(IdsOf(results))), ASSOCIATION_STRENGTHEN_AMOUNT, now).assoc,
                        results, now)
  {
    PairsAreSimple(TopTen(IdsOf(results)));
    StrengthenAllBumps(mid.assoc, PairsOf(TopTen(IdsOf(results))), 0.1, now);
    BumpedIsCoRetrieved(mid.assoc, StrengthenAll(mid.assoc, PairsOf(TopTen(IdsOf(results))), 0.1, now), results, now);
  }

  // Restoring and boosting rows touch neither links nor keys.
  lemma BeforeLinking(db: Db, user: string, results: seq<Retrieved>, deepRecall: bool, now: int, cfg: Config)
    requires cfg.intervalDays != 0.0 && SoundTables(db)
    ensures var mid := StrengthenRows(Restored(db, user, results, deepRecall), user, results, now, cfg);
            mid.assoc == db.assoc && mid.mem.Keys == db.mem.Keys
  {
  }

  lemma EndpointsStay(db: Db, mid: Db, pairs: seq<(Id, Id)>)
    requires AllEndpointsExist(db, pairs) && mid.mem.Keys == db.mem.Keys
    ensures AllEndpointsExist(mid, pairs)
  {
    forall p | p in pairs
      ensures EndpointsExist(mid, p.0, p.1)
    {
      assert EndpointsExist(db, p.0, p.1);
    }
  }

  lemma SearchLinks(db: Db, user: string, results: seq<Retrieved>, deepRecall: bool, now: int, cfg: Config)
    requires cfg.intervalDays != 0.0 && SoundTables(db) && DistinctRows(db, user, results)
    ensures CoRetrieved(db.assoc, AfterSearch(db, user, results, deepRecall, now, cfg).assoc, results, now)
  {
    if results != [] {
      var mid := StrengthenRows(Restored(db, user, results, deepRecall), user, results, now, cfg);
      BeforeLinking(db, user, results, deepRecall, now, cfg);
      TopIsOwned(db, user, results);
      EndpointsStay(db, mid, PairsOf(TopTen(IdsOf(results))));
      TopIsLinked(mid, results, now);
    }
  }

  /**
    Every search of every run links each two of its first ten results in both directions: a tenth more
    than before, at most one, and dated now.  It changes no other link.
   */
  lemma SearchesLinkTheirResults(states: seq<Db>, reqs: seq<Request>, cfg: Config, n: nat)
    requires cfg.intervalDays != 0.0 && Run(states, reqs, cfg) && n < |reqs| && reqs[n].Search?
    ensures CoRetrieved(states[n].assoc, states[n + 1].assoc, reqs[n].results, reqs[n].now)
  {
    R.TablesStaySound(states, reqs, cfg, n);
    assert StepAt(states, reqs, cfg, n);
    SearchLinks(states[n], reqs[n].user, reqs[n].results, reqs[n].deepRecall, reqs[n].now, cfg);
  }

  // -------------------------------------------------------------------------
  // Batches
  // -------------------------------------------------------------------------

  // Any two of the `n` memories from `first` on are linked at `weight`; every other link is as it was.
  ghost predicate CoCreated(before: Links, after: Links, first: nat, n: nat, weight: real, now: int) {
    && (forall i, j :: first <= i < first + n && first <= j < first + n && i != j ==>
          (i, j) in after && after[(i, j)] == Edge(Clamp01(weight), Some(now)))
    && (forall e: (Id, Id) :: !(first <= e.0 < first + n && first <= e.1 < first + n && e.0 != e.1) ==>
          (e in after <==> e in before) && (e in before ==> after[e] == before[e]))
  }

  lemma BatchPairs(first: nat, n: nat, e: (Id, Id))
    ensures AmongTwo(Consecutive(first, n), e) <==> first <= e.0 < first + n && first <= e.1 < first + n && e.0 != e.1
  {
    var ids := Consecutive(first, n);
    if first <= e.0 < first + n && first <= e.1 < first + n && e.0 != e.1 {
      assert e == (ids[e.0 - first], ids[e.1 - first]);
    }
  }

  lemma BumpedIsCoCreated(before: Links, after: Links, first: nat, n: nat, weight: real, now: int)
    requires forall e :: e in before ==> e.0 < first
    requires BumpedWhere(before, after, e => Joins(PairsOf(Consecutive(first, n)), e), weight, now)
    ensures CoCreated(before, after, first, n, weight, now)
  {
    var pairs := PairsOf(Consecutive(first, n));
    forall e: (Id, Id)
      ensures Joins(pairs, e) <==> first <= e.0 < first + n && first <= e.1 < first + n && e.0 != e.1
      ensures Joins(pairs, e) ==> e in after && after[e] == Edge(Clamp01(weight), Some(now))
      ensures !Joins(pairs, e) ==> (e in after <==> e in before) && (e in before ==> after[e] == before[e])
    {
      PairsJoinExactly(Consecutive(first, n), e);
      BatchPairs(first, n, e);
      assert (e => Joins(pairs, e))(e) == Joins(pairs, e);
    }
    forall i, j | first <= i < first + n && first <= j < first + n && i != j
      ensures (i, j) in after && after[(i, j)] == Edge(Clamp01(weight), Some(now))
    {
      assert Joins(pairs, (i, j));
    }
  }

  lemma BatchLinks(db: Db, user: string, entries: seq<Entry>, provider: string, model: string, weight: real, now: int)
    requires SoundTables(db)
    ensures CoCreated(db.assoc, Ingest.StoreBatch(db, user, entries, provider, model, weight, now).assoc,
                      db.nextId, |entries|, weight, now)
  {
    var mid := InsertEntries(db, user, entries, provider, model, now);
    EntryRows(db, user, entries, provider, model, now);
    NewIdsAreLinked(mid, db.nextId, |entries|, weight, now);
  }

  lemma NewIdsAreLinked(mid: Db, first: nat, n: nat, weight: real, now: int)
    requires forall id :: first <= id < first + n ==> id in mid.mem
    requires forall e :: e in mid.assoc ==> e.0 < first
    ensures CoCreated(mid.assoc, LinkPairs(mid, PairsOf(Consecutive(first, n)), weight, now).assoc, first, n, weight, now)
  {
    var ids := Consecutive(first, n);
    PairsAreSimple(ids);
    PairsAreDrawnFrom(ids);
    LinkPairsBumps(mid, PairsOf(ids), weight, now);
    BumpedIsCoCreated(mid.assoc, LinkPairs(mid, PairsOf(ids), weight, now).assoc, first, n, weight, now);
  }

  /** Every batch of every run links each two of its memories in both directions, and no others. */
  lemma BatchesLinkTheirMemories(states: seq<Db>, reqs: seq<Request>, cfg: Config, n: nat)
    requires cfg.intervalDays != 0.0 && Run(states, reqs, cfg) && n < |reqs| && reqs[n].StoreBatch?
    ensures CoCreated(states[n].assoc, states[n + 1].assoc, states[n].nextId, |reqs[n].entries|, reqs[n].weight, reqs[n].stamp.now)
  {
    R.TablesStaySound(states, reqs, cfg, n);
    assert StepAt(states, reqs, cfg, n);
    BatchLinks(states[n], reqs[n].user, reqs[n].entries, reqs[n].stamp.provider, reqs[n].stamp.model, reqs[n].weight, reqs[n].stamp.now);
  }

  // -------------------------------------------------------------------------
  // Single links
  // -------------------------------------------------------------------------

  // The links that a Link or Unlink request names.
  predicate Names(req: Request, e: (Id, Id))
    requires req.Link? || req.Unlink?
  {
    e == (req.source, req.target) || (req.bidirectional && e == (req.target, req.source))
  }

  lemma LinkRequestBumps(db: Db, req: Request, cfg: Config)
    requires cfg.intervalDays != 0.0 && req.Link? && req.source != req.target && EndpointsExist(db, req.source, req.target)
    ensures BumpedWhere(db.assoc, ApplyRequest(db, req, cfg).assoc, e => Names(req, e), req.strength, req.now)
  {
    var e := (req.source, req.target);
    if req.bidirectional {
      LinkBothBumps(db, e, req.strength, req.now);
    } else {
      assert ApplyRequest(db, req, cfg).assoc == db.assoc[e := BumpedEdge(db.assoc, e, req.strength, req.now)];
    }
  }

  /**
    In every run a Link between two different memories adds its strength to exactly the links it names,
    within [0, 1], and dates them; without one of the memories it changes nothing.
   */
  lemma LinksAddUp(states: seq<Db>, reqs: seq<Request>, cfg: Config, n: nat)
    requires cfg.intervalDays != 0.0 && Run(states, reqs, cfg) && n < |reqs| && reqs[n].Link? && reqs[n].source != reqs[n].target
    ensures if reqs[n].source in states[n].mem && reqs[n].target in states[n].mem
            then BumpedWhere(states[n].assoc, states[n + 1].assoc, e => Names(reqs[n], e), reqs[n].strength, reqs[n].now)
            else states[n + 1] == states[n]
  {
    assert StepAt(states, reqs, cfg, n);
    if EndpointsExist(states[n], reqs[n].source, reqs[n].target) {
      LinkRequestBumps(states[n], reqs[n], cfg);
    }
  }

  /** In every run an Unlink removes exactly the links it names. */
  lemma UnlinksRemove(states: seq<Db>, reqs: seq<Request>, cfg: Config, n: nat, e: (Id, Id))
    requires cfg.intervalDays != 0.0 && Run(states, reqs, cfg) && n < |reqs| && reqs[n].Unlink?
    ensures e in states[n + 1].assoc <==> e in states[n].assoc && !Names(reqs[n], e)
    ensures e in states[n + 1].assoc ==> states[n + 1].assoc[e] == states[n].assoc[e]
  {
    assert StepAt(states, reqs, cfg, n);
  }
}
