/** Top-k retrieval with hybrid fusion and graph expansion (`Searcher::search`, `expand_via_graph`). */
module Searching {
  import opened Lifecycle
  import opened Collections
  import opened Tables
  import opened Hits
  import opened Cosine
  import opened Associations
  import opened Walks
  import opened Bridges
  import opened Linking
  import opened Ranking
  import Ingest

  datatype Error = InvalidQuery | DimensionMismatch

  datatype Result<+T> = Ok(value: T) | Err(error: Error)

  // `lexical` is what the full-text index answers, best first; it is used in hybrid mode only.
  datatype Options = Options(
    limit: nat, deepRecall: bool, provider: string, model: string, now: int,
    hybrid: bool, hasText: bool, lexical: seq<Id>, hops: nat, minWeight: real)

  // `candidates_for_search`
  predicate Candidate(r: Row, user: string, o: Options) {
    && r.user == user && r.embedding.Some? && r.provider == o.provider && r.model == o.model && !r.isStub
    && (r.validFrom.Some? ==> r.validFrom.value <= o.now)
    && (o.deepRecall || (!r.isSuperseded && !r.isCold && (r.validUntil.Some? ==> r.validUntil.value > o.now)))
  }

  function CandidateIds(db: Db, user: string, o: Options): set<Id> {
    set id | id in db.mem && Candidate(db.mem[id], user, o)
  }

  function Composite(r: Row, query: seq<real>, now: int, cfg: Config): real {
    ScoreMemory(StateOf(r, cfg), Similarity(query, Vec(r), cfg.sqrt), now, cfg)
  }

  /** Every dense composite score lies in [-1, 1]. */
  lemma CompositeInRange(r: Row, query: seq<real>, now: int, cfg: Config)
    requires GoodMath(cfg) && GoodSqrt(cfg.sqrt) && r.floor <= 1.0
    requires r.isStub || BetaFor(cfg, r.category).Infinite? || Decays(StateOf(r, cfg))
    ensures -1.0 <= Composite(r, query, now, cfg) <= 1.0
  {
    SimilarityInRange(query, Vec(r), cfg.sqrt);
    CompositeScoreInRange(StateOf(r, cfg), Similarity(query, Vec(r), cfg.sqrt), now, cfg);
  }

  // The dense pool: every candidate once, with its composite score.
  ghost predicate IsPool(db: Db, user: string, query: seq<real>, o: Options, cfg: Config, pool: seq<Ranked>) {
    && DistinctIds(pool) && IdSet(pool) == CandidateIds(db, user, o)
    && forall i :: 0 <= i < |pool| ==>
         pool[i].id in db.mem && pool[i].source == Direct && pool[i].score == Composite(db.mem[pool[i].id], query, o.now, cfg)
  }

  method ScoreCandidates(db: Db, user: string, query: seq<real>, o: Options, cfg: Config) returns (r: Result<seq<Ranked>>)
    ensures r.Ok? ==> IsPool(db, user, query, o, cfg, r.value)
    ensures r.Err? ==> r.error == DimensionMismatch
    ensures r.Err? <==> exists id :: id in CandidateIds(db, user, o) && |Vec(db.mem[id])| != |query|
  {
    var ids := Enumerate(CandidateIds(db, user, o));
    var scored: seq<Ranked> := [];
    for k := 0 to |ids|
      invariant |scored| == k
      invariant forall i :: 0 <= i < k ==>
        && ids[i] in db.mem && |Vec(db.mem[ids[i]])| == |query|
        && scored[i] == Ranked(ids[i], Composite(db.mem[ids[i]], query, o.now, cfg), Direct)
    {
      assert ids[k] in ids;
      var row := db.mem[ids[k]];
      if |Vec(row)| != |query| {
        return Err(DimensionMismatch);
      }
      var sim := CosineSimilarity(query, Vec(row), cfg.sqrt);
      var retention := Retention(row, o.now, cfg);
      scored := scored + [Ranked(ids[k], sim * cfg.pow(retention, cfg.scoreExponent), Direct)];
    }
    assert IdSet(scored) == CandidateIds(db, user, o) by {
      forall id
        ensures id in IdSet(scored) <==> id in CandidateIds(db, user, o)
      {
        if id in CandidateIds(db, user, o) {
          assert id in ids;
          var i :| 0 <= i < |ids| && ids[i] == id;
          assert scored[i].id == id;
        }
        if id in IdSet(scored) {
          var i :| 0 <= i < |scored| && scored[i].id == id;
          assert ids[i] in ids;
        }
      }
    }
    forall id | id in CandidateIds(db, user, o)
      ensures |Vec(db.mem[id])| == |query|
    {
      assert id in ids;
    }
    return Ok(scored);
  }

  // -------------------------------------------------------------------------
  // Hybrid fusion
  // -------------------------------------------------------------------------

  function RankList(ids: seq<Id>): seq<RankedHit> {
    seq(|ids|, i requires 0 <= i < |ids| => RankedHit(ids[i], i))
  }

  function IdsInOrder(s: seq<Ranked>): seq<Id> {
    seq(|s|, i requires 0 <= i < |s| => s[i].id)
  }

  // The lists fused in hybrid mode: the dense ranking and the lexical one.
  function HybridLists(dense: seq<Ranked>, lexical: seq<Id>): seq<seq<RankedHit>> {
    [RankList(IdsInOrder(dense)), RankList(lexical)]
  }

  // Exactly the dense pool, ranked by fused score.
  ghost predicate IsHybridPool(dense: seq<Ranked>, lexical: seq<Id>, pool: seq<Ranked>) {
    && Descending(pool) && DistinctIds(pool) && IdSet(pool) == IdSet(dense)
    && forall i :: 0 <= i < |pool| ==> pool[i].source == Direct && pool[i].score == FusedScore(HybridLists(dense, lexical), 60, pool[i].id)
  }

  lemma DenseIsFused(dense: seq<Ranked>, lexical: seq<Id>, id: Id)
    requires id in IdSet(dense)
    ensures InLists(HybridLists(dense, lexical), id)
  {
    var i :| 0 <= i < |dense| && dense[i].id == id;
    assert HybridLists(dense, lexical)[0][i].id == id;
    assert InList(HybridLists(dense, lexical)[0], id);
  }

  lemma IdsOfMembers(s: seq<Ranked>)
    ensures (set r | r in s :: r.id) == IdSet(s)
  {
    forall id | id in IdSet(s)
      ensures id in (set r | r in s :: r.id)
    {
      var i :| 0 <= i < |s| && s[i].id == id;
      assert s[i] in s;
    }
  }

  // The fused list without the ids that have no dense score.
  method KeepDense(fused: seq<Ranked>, byId: set<Id>) returns (pool: seq<Ranked>)
    requires Descending(fused) && DistinctIds(fused) && forall i :: 0 <= i < |fused| ==> fused[i].source == Direct
    ensures Descending(pool) && DistinctIds(pool)
    ensures forall i :: 0 <= i < |pool| ==> pool[i] in fused && pool[i].id in byId
    ensures forall i :: 0 <= i < |fused| && fused[i].id in byId ==> fused[i] in pool
  {
    pool := [];
    for k := 0 to |fused|
      invariant DistinctIds(pool) && Descending(pool)
      invariant forall i :: 0 <= i < |pool| ==> pool[i] in fused && pool[i].id in byId
      invariant forall i, j :: 0 <= i < |pool| && k <= j < |fused| ==> fused[j].score <= pool[i].score && fused[j].id != pool[i].id
      invariant forall i :: 0 <= i < k && fused[i].id in byId ==> fused[i] in pool
    {
      if fused[k].id in byId {
        pool := pool + [Ranked(fused[k].id, fused[k].score, Direct)];
      }
    }
  }

  method FuseHybrid(dense: seq<Ranked>, lexical: seq<Id>) returns (pool: seq<Ranked>)
    ensures IsHybridPool(dense, lexical, pool)
  {
    var fused := ReciprocalRankFusion(HybridLists(dense, lexical), 60);
    IdsOfMembers(dense);
    pool := KeepDense(fused, set r | r in dense :: r.id);
    forall i | 0 <= i < |pool|
      ensures pool[i].source == Direct && pool[i].score == FusedScore(HybridLists(dense, lexical), 60, pool[i].id)
    {
      assert pool[i] in fused;
    }
    forall id
      ensures id in IdSet(pool) <==> id in IdSet(dense)
    {
      if id in IdSet(dense) {
        DenseIsFused(dense, lexical, id);
        var i :| 0 <= i < |fused| && fused[i].id == id;
        var j :| 0 <= j < |pool| && pool[j] == fused[i];
        assert pool[j].id == id;
      }
    }
  }

  // -------------------------------------------------------------------------
  // Graph expansion
  // -------------------------------------------------------------------------

  // A chain of at least one and at most `hops` strong links from one of the top hits.
  ghost predicate Chained(assoc: Links, minWeight: real, tops: set<Id>, id: Id, hops: nat) {
    exists p :: WalkTo(StrongLinks(assoc, minWeight), tops, p, id) && 1 <= |p| - 1 <= hops
  }

  // The row may enter the results: it belongs to the user and its embedding fits the query.
  predicate Eligible(db: Db, user: string, query: seq<real>, id: Id) {
    Owns(db, user, id) && db.mem[id].embedding.Some? && |Vec(db.mem[id])| == |query|
  }

  // What one hop admits: an eligible target whose collapsed link is still strong after decay.
  ghost predicate Admitted(db: Db, user: string, query: seq<real>, sources: seq<Id>, o: Options, cfg: Config, x: Linked)
    requires cfg.tauDays != 0.0
  {
    && Eligible(db, user, query, x.id)
    && IsCollapsed(db.assoc, Elems(sources), o.minWeight, x)
    && LiveWeight(x.weight, x.last, o.now, cfg) >= o.minWeight
  }

  // Relevance times retention times the decayed weight of the link.
  function HopScore(r: Row, query: seq<real>, x: Linked, o: Options, cfg: Config): real
    requires cfg.tauDays != 0.0
  {
    Composite(r, query, o.now, cfg) * LiveWeight(x.weight, x.last, o.now, cfg)
  }

  // The hit that an admitted link makes.
  ghost predicate HitOf(db: Db, user: string, query: seq<real>, sources: seq<Id>, o: Options, cfg: Config, r: Ranked, x: Linked)
    requires cfg.tauDays != 0.0
  {
    Admitted(db, user, query, sources, o, cfg, x) && r == Ranked(x.id, HopScore(db.mem[x.id], query, x, o, cfg), GraphExpanded)
  }

  ghost predicate NewHit(db: Db, user: string, query: seq<real>, sources: seq<Id>, o: Options, cfg: Config, r: Ranked)
    requires cfg.tauDays != 0.0
  {
    exists x :: HitOf(db, user, query, sources, o, cfg, r, x)
  }

  // One hop appends exactly the admitted targets that were not there yet.
  ghost predicate HopResult(db: Db, user: string, query: seq<real>, sources: seq<Id>, o: Options, cfg: Config,
                            before: seq<Ranked>, after: seq<Ranked>)
    requires cfg.tauDays != 0.0
  {
    && before <= after && DistinctIds(after)
    && (forall i :: |before| <= i < |after| ==> NewHit(db, user, query, sources, o, cfg, after[i]))
    && (forall x :: Admitted(db, user, query, sources, o, cfg, x) ==> x.id in IdSet(after))
  }

  method ExpandHop(db: Db, user: string, query: seq<real>, sources: seq<Id>, scored0: seq<Ranked>, o: Options, cfg: Config)
    returns (scored: seq<Ranked>)
    requires cfg.tauDays != 0.0 && DistinctIds(scored0)
    ensures HopResult(db, user, query, sources, o, cfg, scored0, scored)
  {
    var linked := LinkedForMany(db, user, sources, o.minWeight);
    scored := scored0;
    for k := 0 to |linked|
      invariant scored0 <= scored && DistinctIds(scored)
      invariant forall i :: |scored0| <= i < |scored| ==> NewHit(db, user, query, sources, o, cfg, scored[i])
      invariant forall i :: 0 <= i < k && Admitted(db, user, query, sources, o, cfg, linked[i]) ==> linked[i].id in IdSet(scored)
    {
      scored := ConsiderTarget(db, user, query, sources, scored, linked[k], o, cfg);
    }
    AllAdmittedSeen(db, user, query, sources, linked, scored, o, cfg);
  }

  lemma AllAdmittedSeen(db: Db, user: string, query: seq<real>, sources: seq<Id>, linked: seq<Linked>, scored: seq<Ranked>, o: Options, cfg: Config)
    requires cfg.tauDays != 0.0
    requires forall i :: 0 <= i < |linked| ==> IsCollapsed(db.assoc, Elems(sources), o.minWeight, linked[i])
    requires forall t: Id :: Owns(db, user, t) && HasStrongLink(db.assoc, sources, o.minWeight, t) ==>
      exists i :: 0 <= i < |linked| && linked[i].id == t
    requires forall i :: 0 <= i < |linked| && Admitted(db, user, query, sources, o, cfg, linked[i]) ==> linked[i].id in IdSet(scored)
    ensures forall x :: Admitted(db, user, query, sources, o, cfg, x) ==> x.id in IdSet(scored)
  {
    forall x | Admitted(db, user, query, sources, o, cfg, x)
      ensures x.id in IdSet(scored)
    {
      var s: Id :| s in Elems(sources) && Strong(db.assoc, o.minWeight, s, x.id);
      assert HasStrongLink(db.assoc, sources, o.minWeight, x.id);
      var i :| 0 <= i < |linked| && linked[i].id == x.id;
      CollapseIsUnique(db.assoc, Elems(sources), o.minWeight, x, linked[i]);
    }
  }

  method ConsiderTarget(db: Db, user: string, query: seq<real>, ghost sources: seq<Id>, scored0: seq<Ranked>, x: Linked, o: Options, cfg: Config)
    returns (scored: seq<Ranked>)
    requires cfg.tauDays != 0.0 && DistinctIds(scored0) && Owns(db, user, x.id)
    requires IsCollapsed(db.assoc, Elems(sources), o.minWeight, x)
    ensures scored0 <= scored && DistinctIds(scored)
    ensures forall i :: |scored0| <= i < |scored| ==> NewHit(db, user, query, sources, o, cfg, scored[i])
    ensures Admitted(db, user, query, sources, o, cfg, x) ==> x.id in IdSet(scored)
    ensures IdSet(scored0) <= IdSet(scored)
  {
    scored := scored0;
    var have := set r | r in scored0 :: r.id;
    assert forall i :: 0 <= i < |scored0| ==> scored0[i] in scored0 && scored0[i].id in have;
    if x.id in have {
      return;
    }
    var live := match x.last
                case Some(t) => DecayAssociationWeight(x.weight, t, o.now, cfg)
                case None => x.weight;
    if live < o.minWeight || db.mem[x.id].embedding.None? || |Vec(db.mem[x.id])| != |query| {
      return;
    }
    var r := Ranked(x.id, Composite(db.mem[x.id], query, o.now, cfg) * live, GraphExpanded);
    scored := scored0 + [r];
    assert HitOf(db, user, query, sources, o, cfg, r, x);
    assert NewHit(db, user, query, sources, o, cfg, r);
    assert scored[|scored0|].id == x.id;
    assert forall i :: 0 <= i < |scored0| ==> scored[i].id == scored0[i].id;
  }

  // A hit that entered by expansion within `hops` hops of the top hits.
  ghost predicate Joined(db: Db, user: string, tops: set<Id>, o: Options, hops: nat, r: Ranked) {
    r.source == GraphExpanded && Owns(db, user, r.id) && Chained(db.assoc, o.minWeight, tops, r.id, hops)
  }

  ghost predicate Frontier(assoc: Links, minWeight: real, tops: set<Id>, frontier: seq<Id>, hop: nat) {
    forall i :: 0 <= i < |frontier| ==> exists p :: WalkTo(StrongLinks(assoc, minWeight), tops, p, frontier[i]) && |p| - 1 <= hop
  }

  lemma NewHitIsJoined(db: Db, user: string, query: seq<real>, tops: set<Id>, sources: seq<Id>, o: Options, cfg: Config, hop: nat, r: Ranked)
    requires cfg.tauDays != 0.0 && Frontier(db.assoc, o.minWeight, tops, sources, hop) && NewHit(db, user, query, sources, o, cfg, r)
    ensures Joined(db, user, tops, o, hop + 1, r)
  {
    var x :| HitOf(db, user, query, sources, o, cfg, r, x);
    var s: Id :| s in Elems(sources) && Strong(db.assoc, o.minWeight, s, r.id);
    var i :| 0 <= i < |sources| && sources[i] == s;
    var p :| WalkTo(StrongLinks(db.assoc, o.minWeight), tops, p, sources[i]) && |p| - 1 <= hop;
    WalkExtend(StrongLinks(db.assoc, o.minWeight), tops, p, s, r.id);
    assert |p + [r.id]| - 1 <= hop + 1;
  }

  lemma JoinedStays(db: Db, user: string, tops: set<Id>, o: Options, hop: nat, more: nat, r: Ranked)
    requires Joined(db, user, tops, o, hop, r) && hop <= more
    ensures Joined(db, user, tops, o, more, r)
  {
    var p :| WalkTo(StrongLinks(db.assoc, o.minWeight), tops, p, r.id) && 1 <= |p| - 1 <= hop;
  }

  lemma NextFrontier(db: Db, user: string, tops: set<Id>, o: Options, hops: nat, scored: seq<Ranked>, n: nat)
    requires n <= |scored| && forall i :: n <= i < |scored| ==> Joined(db, user, tops, o, hops, scored[i])
    ensures Frontier(db.assoc, o.minWeight, tops, IdsInOrder(scored[n..]), hops)
  {
    var ids := IdsInOrder(scored[n..]);
    forall i | 0 <= i < |ids|
      ensures exists p :: WalkTo(StrongLinks(db.assoc, o.minWeight), tops, p, ids[i]) && |p| - 1 <= hops
    {
      assert Joined(db, user, tops, o, hops, scored[n + i]);
      var p :| WalkTo(StrongLinks(db.assoc, o.minWeight), tops, p, scored[n + i].id) && 1 <= |p| - 1 <= hops;
    }
  }

  function TopIds(scored: seq<Ranked>, limit: nat): seq<Id> {
    var n := if limit < 5 then 5 else limit;
    IdsInOrder(if |scored| <= n then scored else scored[..n])
  }

  // The frontier of hop `h`: the top hits, then what the hop before added.
  function Newest(lists: seq<seq<Ranked>>, h: nat, limit: nat): seq<Id>
    requires h < |lists|
  {
    if h == 0 then TopIds(lists[0], limit)
    else if |lists[h - 1]| <= |lists[h]| then IdsInOrder(lists[h][|lists[h - 1]|..])
    else []
  }

  // The lists between the hops, each made from the one before by expanding its newest entries.
  ghost predicate HopChain(db: Db, user: string, query: seq<real>, o: Options, cfg: Config, lists: seq<seq<Ranked>>)
    requires cfg.tauDays != 0.0
  {
    lists != [] && forall h :: 0 <= h < |lists| - 1 ==> HopAt(db, user, query, o, cfg, lists, h)
  }

  ghost predicate HopAt(db: Db, user: string, query: seq<real>, o: Options, cfg: Config, lists: seq<seq<Ranked>>, h: nat)
    requires cfg.tauDays != 0.0 && h < |lists| - 1
  {
    HopResult(db, user, query, Newest(lists, h, o.limit), o, cfg, lists[h], lists[h + 1])
  }

  ghost predicate ExpandedBy(db: Db, user: string, query: seq<real>, before: seq<Ranked>, o: Options, cfg: Config,
                             after: seq<Ranked>, lists: seq<seq<Ranked>>)
    requires cfg.tauDays != 0.0
  {
    |lists| == o.hops + 1 && lists[0] == before && lists[o.hops] == after && HopChain(db, user, query, o, cfg, lists)
  }

  /**
    The expanded list: the direct hits, then, hop by hop, exactly the targets that the newest entries
    admit after decay, each with its score; all joined to a top hit, no id twice.
   */
  ghost predicate ExpandedFrom(db: Db, user: string, query: seq<real>, before: seq<Ranked>, o: Options, cfg: Config, after: seq<Ranked>)
    requires cfg.tauDays != 0.0
  {
    && before <= after && DistinctIds(after)
    && (exists lists :: ExpandedBy(db, user, query, before, o, cfg, after, lists))
    && (forall i :: |before| <= i < |after| ==> Joined(db, user, Elems(TopIds(before, o.limit)), o, o.hops, after[i]))
  }

  /**
    Every hop adds exactly the admitted targets of its frontier with their scores, every added hit is
    joined to a top direct hit by a chain of at most `hops` strong links, and no id appears twice.
   */
  method ExpandViaGraph(db: Db, user: string, query: seq<real>, scored0: seq<Ranked>, o: Options, cfg: Config) returns (scored: seq<Ranked>)
    requires cfg.tauDays != 0.0 && DistinctIds(scored0)
    ensures ExpandedFrom(db, user, query, scored0, o, cfg, scored)
  {
    scored := scored0;
    var frontier := TopIds(scored0, o.limit);
    ghost var tops := Elems(frontier);
    StartFrontier(db.assoc, o.minWeight, frontier);
    ghost var lists := [scored0];
    for hop := 0 to o.hops
      invariant scored0 <= scored && DistinctIds(scored)
      invariant Frontier(db.assoc, o.minWeight, tops, frontier, hop)
      invariant forall i :: |scored0| <= i < |scored| ==> Joined(db, user, tops, o, hop, scored[i])
      invariant |lists| == hop + 1 && lists[0] == scored0 && lists[hop] == scored && frontier == Newest(lists, hop, o.limit)
      invariant HopChain(db, user, query, o, cfg, lists)
    {
      ghost var before := scored;
      var n := |scored|;
      if frontier != [] {
        scored := ExpandHop(db, user, query, frontier, scored, o, cfg);
      } else {
        NothingFromNothing(db, user, query, o, cfg, scored);
      }
      ChainExtend(db, user, query, o, cfg, lists, scored);
      lists := lists + [scored];
      HopKeepsJoined(db, user, query, tops, frontier, o, cfg, hop, scored0, before, scored);
      frontier := IdsInOrder(scored[n..]);
      NextFrontier(db, user, tops, o, hop + 1, scored, n);
    }
    assert ExpandedBy(db, user, query, scored0, o, cfg, scored, lists);
  }

  lemma ChainExtend(db: Db, user: string, query: seq<real>, o: Options, cfg: Config, lists: seq<seq<Ranked>>, next: seq<Ranked>)
    requires cfg.tauDays != 0.0 && HopChain(db, user, query, o, cfg, lists)
    requires HopResult(db, user, query, Newest(lists, |lists| - 1, o.limit), o, cfg, lists[|lists| - 1], next)
    ensures HopChain(db, user, query, o, cfg, lists + [next])
  {
    var more := lists + [next];
    forall h | 0 <= h < |more| - 1
      ensures HopAt(db, user, query, o, cfg, more, h)
    {
      NewestInPrefix(lists, next, h, o.limit);
      assert h < |lists| - 1 ==> HopAt(db, user, query, o, cfg, lists, h);
    }
  }

  lemma NewestInPrefix(lists: seq<seq<Ranked>>, next: seq<Ranked>, h: nat, limit: nat)
    requires h < |lists|
    ensures Newest(lists + [next], h, limit) == Newest(lists, h, limit)
  {
  }

  lemma StartFrontier(assoc: Links, minWeight: real, frontier: seq<Id>)
    ensures Frontier(assoc, minWeight, Elems(frontier), frontier, 0)
  {
    forall i | 0 <= i < |frontier|
      ensures exists p :: WalkTo(StrongLinks(assoc, minWeight), Elems(frontier), p, frontier[i]) && |p| - 1 <= 0
    {
      assert WalkTo(StrongLinks(assoc, minWeight), Elems(frontier), [frontier[i]], frontier[i]);
    }
  }

  // Nothing is admitted from an empty frontier.
  lemma NothingFromNothing(db: Db, user: string, query: seq<real>, o: Options, cfg: Config, scored: seq<Ranked>)
    requires cfg.tauDays != 0.0 && DistinctIds(scored)
    ensures HopResult(db, user, query, [], o, cfg, scored, scored)
  {
  }

  lemma HopKeepsJoined(db: Db, user: string, query: seq<real>, tops: set<Id>, frontier: seq<Id>, o: Options, cfg: Config, hop: nat,
                       scored0: seq<Ranked>, before: seq<Ranked>, after: seq<Ranked>)
    requires cfg.tauDays != 0.0 && scored0 <= before && before <= after
    requires Frontier(db.assoc, o.minWeight, tops, frontier, hop)
    requires forall i :: |scored0| <= i < |before| ==> Joined(db, user, tops, o, hop, before[i])
    requires HopResult(db, user, query, frontier, o, cfg, before, after)
    ensures forall i :: |scored0| <= i < |after| ==> Joined(db, user, tops, o, hop + 1, after[i])
  {
    forall i | |scored0| <= i < |after|
      ensures Joined(db, user, tops, o, hop + 1, after[i])
    {
      if i < |before| {
        assert after[i] == before[i];
        JoinedStays(db, user, tops, o, hop, hop + 1, before[i]);
      } else {
        NewHitIsJoined(db, user, query, tops, frontier, o, cfg, hop, after[i]);
      }
    }
  }

  // -------------------------------------------------------------------------
  // The expansion is determined
  // -------------------------------------------------------------------------

  ghost predicate SameEntries(s: seq<Ranked>, t: seq<Ranked>) {
    forall r :: r in s <==> r in t
  }

  // What a hop added, as a set of ids.
  ghost function AddedIds(before: seq<Ranked>, after: seq<Ranked>): set<Id> {
    set r | r in after && r !in before :: r.id
  }

  lemma AddedAreTheRest(before: seq<Ranked>, after: seq<Ranked>)
    requires before <= after && DistinctIds(after)
    ensures Elems(IdsInOrder(after[|before|..])) == AddedIds(before, after)
  {
    var rest := after[|before|..];
    forall id
      ensures id in Elems(IdsInOrder(rest)) <==> id in AddedIds(before, after)
    {
      if id in Elems(IdsInOrder(rest)) {
        var i :| 0 <= i < |rest| && rest[i].id == id;
        assert after[|before| + i] == rest[i] && rest[i] in after && rest[i] !in before;
      }
      if id in AddedIds(before, after) {
        var r :| r in after && r !in before && r.id == id;
        var j :| 0 <= j < |after| && after[j] == r;
        assert j >= |before| && rest[j - |before|] == r;
        assert IdsInOrder(rest)[j - |before|] == id;
      }
    }
  }

  lemma EntryOf(s: seq<Ranked>, id: Id) returns (r: Ranked)
    requires id in IdSet(s)
    ensures r in s && r.id == id
  {
    var i :| 0 <= i < |s| && s[i].id == id;
    r := s[i];
  }

  lemma OneEntryPerId(s: seq<Ranked>, r: Ranked, t: Ranked)
    requires DistinctIds(s) && r in s && t in s && r.id == t.id
    ensures r == t
  {
    var i :| 0 <= i < |s| && s[i] == r;
    var j :| 0 <= j < |s| && s[j] == t;
  }

  lemma EntryIsNewHit(db: Db, user: string, query: seq<real>, o: Options, cfg: Config, f: seq<Id>,
                      a: seq<Ranked>, a': seq<Ranked>, r: Ranked)
    requires cfg.tauDays != 0.0 && HopResult(db, user, query, f, o, cfg, a, a') && r in a' && r !in a
    ensures NewHit(db, user, query, f, o, cfg, r)
  {
    var i :| 0 <= i < |a'| && a'[i] == r;
    assert i >= |a|;
  }

  // Two hops from the same entries over frontiers with the same members add the same entries.
  lemma SameHop(db: Db, user: string, query: seq<real>, o: Options, cfg: Config, f: seq<Id>, g: seq<Id>,
                a: seq<Ranked>, a': seq<Ranked>, b: seq<Ranked>, b': seq<Ranked>, r: Ranked)
    requires cfg.tauDays != 0.0 && Elems(f) == Elems(g) && SameEntries(a, b)
    requires HopResult(db, user, query, f, o, cfg, a, a') && HopResult(db, user, query, g, o, cfg, b, b') && r in a'
    ensures r in b'
  {
    if r in a {
      assert r in b && b <= b';
    } else {
      EntryIsNewHit(db, user, query, o, cfg, f, a, a', r);
      var x :| HitOf(db, user, query, f, o, cfg, r, x);
      assert Admitted(db, user, query, g, o, cfg, x);
      var t := EntryOf(b', x.id);
      if t in b {
        assert t in a && a <= a' && t in a';
        OneEntryPerId(a', r, t);
      } else {
        EntryIsNewHit(db, user, query, o, cfg, g, b, b', t);
        SameNewHit(db, user, query, o, cfg, f, g, r, t);
      }
    }
  }

  lemma SameNewHit(db: Db, user: string, query: seq<real>, o: Options, cfg: Config, f: seq<Id>, g: seq<Id>, r: Ranked, t: Ranked)
    requires cfg.tauDays != 0.0 && Elems(f) == Elems(g) && t.id == r.id
    requires NewHit(db, user, query, f, o, cfg, r) && NewHit(db, user, query, g, o, cfg, t)
    ensures r == t
  {
    var x :| HitOf(db, user, query, f, o, cfg, r, x);
    var y :| HitOf(db, user, query, g, o, cfg, t, y);
    AdmittedOnce(db, user, query, o, cfg, f, g, x, y);
  }

  lemma AdmittedOnce(db: Db, user: string, query: seq<real>, o: Options, cfg: Config, f: seq<Id>, g: seq<Id>, x: Linked, y: Linked)
    requires cfg.tauDays != 0.0 && Elems(f) == Elems(g) && x.id == y.id
    requires Admitted(db, user, query, f, o, cfg, x) && Admitted(db, user, query, g, o, cfg, y)
    ensures x == y
  {
    CollapseIsUnique(db.assoc, Elems(f), o.minWeight, x, y);
  }

  lemma {:induction false} SameLists(db: Db, user: string, query: seq<real>, o: Options, cfg: Config,
                                     s: seq<seq<Ranked>>, t: seq<seq<Ranked>>, h: nat)
    requires cfg.tauDays != 0.0 && HopChain(db, user, query, o, cfg, s) && HopChain(db, user, query, o, cfg, t)
    requires h < |s| == |t| && s[0] == t[0]
    ensures SameEntries(s[h], t[h])
    ensures Elems(Newest(s, h, o.limit)) == Elems(Newest(t, h, o.limit))
  {
    if h > 0 {
      SameLists(db, user, query, o, cfg, s, t, h - 1);
      var (f, g) := (Newest(s, h - 1, o.limit), Newest(t, h - 1, o.limit));
      assert HopAt(db, user, query, o, cfg, s, h - 1) && HopAt(db, user, query, o, cfg, t, h - 1);
      forall r
        ensures r in s[h] <==> r in t[h]
      {
        if r in s[h] {
          SameHop(db, user, query, o, cfg, f, g, s[h - 1], s[h], t[h - 1], t[h], r);
        }
        if r in t[h] {
          SameHop(db, user, query, o, cfg, g, f, t[h - 1], t[h], s[h - 1], s[h], r);
        }
      }
      AddedAreTheRest(s[h - 1], s[h]);
      AddedAreTheRest(t[h - 1], t[h]);
      assert AddedIds(s[h - 1], s[h]) == AddedIds(t[h - 1], t[h]);
    }
  }

  /** The expanded list is determined: any two expansions hold the same hits with the same scores. */
  lemma ExpansionIsDetermined(db: Db, user: string, query: seq<real>, before: seq<Ranked>, o: Options, cfg: Config,
                              s: seq<Ranked>, t: seq<Ranked>)
    requires cfg.tauDays != 0.0
    requires ExpandedFrom(db, user, query, before, o, cfg, s) && ExpandedFrom(db, user, query, before, o, cfg, t)
    ensures SameEntries(s, t)
  {
    var ss :| ExpandedBy(db, user, query, before, o, cfg, s, ss);
    var ts :| ExpandedBy(db, user, query, before, o, cfg, t, ts);
    SameLists(db, user, query, o, cfg, ss, ts, o.hops);
  }

  // -------------------------------------------------------------------------
  // The search
  // -------------------------------------------------------------------------

  ghost predicate Mismatched(db: Db, user: string, query: seq<real>, o: Options) {
    exists id :: id in CandidateIds(db, user, o) && |Vec(db.mem[id])| != |query|
  }

  // What the results are, given the list ranked before expansion.
  ghost predicate IsAnswer(db: Db, user: string, query: seq<real>, o: Options, cfg: Config, ranked: seq<Ranked>, rs: seq<Ranked>)
    requires cfg.tauDays != 0.0
  {
    if o.hops == 0 || ranked == [] then IsTop(ranked, rs, o.limit)
    else exists all :: ExpandedFrom(db, user, query, ranked, o, cfg, all) && IsTop(all, rs, o.limit)
  }

  /**
    Search fails exactly on an empty query, a candidate of another dimension, or a hybrid request
    without text; otherwise it returns the top of the dense pool, or of the same pool ranked by
    fusion, enlarged by graph expansion when hops are asked for.
   */
  method Search(db: Db, user: string, query: seq<real>, o: Options, cfg: Config)
    returns (r: Result<seq<Ranked>>, ghost dense: seq<Ranked>, ghost ranked: seq<Ranked>)
    requires cfg.tauDays != 0.0
    ensures r.Err? <==> query == [] || (o.limit > 0 && (Mismatched(db, user, query, o) || (o.hybrid && !o.hasText)))
    ensures r.Ok? && o.limit == 0 ==> r.value == []
    ensures r.Ok? && o.limit > 0 ==>
      && IsPool(db, user, query, o, cfg, dense) && Descending(dense)
      && (if o.hybrid then IsHybridPool(dense, o.lexical, ranked) else ranked == dense)
      && IsAnswer(db, user, query, o, cfg, ranked, r.value)
  {
    dense, ranked := [], [];
    if query == [] {
      r := Err(InvalidQuery);
      return;
    }
    if o.limit == 0 {
      r := Ok([]);
      return;
    }
    var pool := ScoreCandidates(db, user, query, o, cfg);
    if pool.Err? {
      r := pool;
      return;
    }
    var scored := SortDesc(pool.value);
    SortedPool(db, user, query, o, cfg, pool.value);
    dense := scored;
    if o.hybrid {
      if !o.hasText {
        r := Err(InvalidQuery);
        return;
      }
      scored := FuseHybrid(scored, o.lexical);
    }
    ranked := scored;
    if o.hops > 0 && scored != [] {
      scored := ExpandViaGraph(db, user, query, scored, o, cfg);
      TruncatedSortIsTop(scored, o.limit);
      ghost var all := scored;
      scored := SortDesc(scored);
      assert ExpandedFrom(db, user, query, ranked, o, cfg, all) && IsTop(all, Truncate(scored, o.limit), o.limit);
    } else {
      PrefixIsTop(ranked, scored, o.limit);
    }
    r := Ok(Truncate(scored, o.limit));
  }

  lemma SortedPool(db: Db, user: string, query: seq<real>, o: Options, cfg: Config, pool: seq<Ranked>)
    requires IsPool(db, user, query, o, cfg, pool)
    ensures IsPool(db, user, query, o, cfg, SortDesc(pool)) && Descending(SortDesc(pool))
  {
    SortIsDescending(pool);
    SortKeepsMembers(pool);
    SortKeepsDistinctIds(pool);
    forall i | 0 <= i < |SortDesc(pool)|
      ensures var x := SortDesc(pool)[i];
              x.id in db.mem && x.source == Direct && x.score == Composite(db.mem[x.id], query, o.now, cfg)
    {
      assert SortDesc(pool)[i] in pool;
    }
  }

  /** The hits ingest dispatches on are ranked, distinct rows of the user, as its early exit needs. */
  lemma SearchFeedsIngest(db: Db, user: string, query: seq<real>, o: Options, cfg: Config, pool: seq<Ranked>, rs: seq<Ranked>)
    requires IsPool(db, user, query, o, cfg, pool) && IsTop(pool, rs, o.limit)
    ensures Ingest.RankedHits(db, user, rs)
  {
    forall h | h in rs
      ensures Owns(db, user, h.id)
    {
      var i :| 0 <= i < |rs| && rs[i] == h;
      assert rs[i] in pool;
      var j :| 0 <= j < |pool| && pool[j] == rs[i];
      assert pool[j].id in IdSet(pool);
    }
  }
}
