/**
  Which memories a search can return, told by their rows (`candidates_for_search`, `Searcher::search`), and for
  how long a run keeps a memory out of the answers.
 */
module Findable {
  import opened Lifecycle
  import opened Collections
  import opened Tables
  import opened Hits
  import opened Bridges
  import opened Linking
  import opened Ranking
  import opened Searching
  import opened Walks
  import opened Tick
  import opened Requests
  import opened Steps
  import C = Conflicts
  import R = Runs

  // The row has an embedding of the provider and model asked for.
  predicate Comparable(r: Row, o: Options) {
    r.embedding.Some? && r.provider == o.provider && r.model == o.model
  }

  predicate Begun(r: Row, now: int) {
    match r.validFrom case None => true case Some(t) => t <= now
  }

  predicate Expired(r: Row, now: int) {
    match r.validUntil case None => false case Some(t) => t <= now
  }

  // What a plain search of `user` may return.
  predicate PlainlyFindable(r: Row, user: string, o: Options) {
    r.user == user && Hot(r) && Comparable(r, o) && Begun(r, o.now) && !Expired(r, o.now)
  }

  // Deep recall drops three filters, and never the one on stubs.
  predicate DeeplyFindable(r: Row, user: string, o: Options) {
    r.user == user && !r.isStub && Comparable(r, o) && Begun(r, o.now)
  }

  predicate Returnable(r: Row, user: string, o: Options) {
    if o.deepRecall then DeeplyFindable(r, user, o) else PlainlyFindable(r, user, o)
  }

  // What `Search` promises of its answer and of the lists behind it.
  ghost predicate Answered(db: Db, user: string, query: seq<real>, o: Options, cfg: Config,
                           dense: seq<Ranked>, ranked: seq<Ranked>, rs: seq<Ranked>)
    requires cfg.tauDays != 0.0
  {
    && IsPool(db, user, query, o, cfg, dense)
    && (if o.hybrid then IsHybridPool(dense, o.lexical, ranked) else ranked == dense)
    && IsAnswer(db, user, query, o, cfg, ranked, rs)
  }

  // The score by which an answer ranks a memory of its pool.
  function ScoreOf(db: Db, query: seq<real>, o: Options, cfg: Config, dense: seq<Ranked>, id: Id): real
    requires id in db.mem
  {
    if o.hybrid then FusedScore(HybridLists(dense, o.lexical), 60, id) else Composite(db.mem[id], query, o.now, cfg)
  }

  lemma PoolIsFindable(db: Db, user: string, query: seq<real>, o: Options, cfg: Config, dense: seq<Ranked>, ranked: seq<Ranked>, id: Id)
    requires IsPool(db, user, query, o, cfg, dense)
    requires if o.hybrid then IsHybridPool(dense, o.lexical, ranked) else ranked == dense
    ensures id in IdSet(ranked) <==> id in db.mem && Returnable(db.mem[id], user, o)
    ensures forall i :: 0 <= i < |ranked| ==>
      ranked[i].id in db.mem && ranked[i].source == Direct
      && ranked[i].score == ScoreOf(db, query, o, cfg, dense, ranked[i].id)
  {
    assert id in IdSet(ranked) <==> id in CandidateIds(db, user, o);
    forall i | 0 <= i < |ranked|
      ensures ranked[i].id in db.mem
    {
      assert ranked[i].id in IdSet(ranked) && ranked[i].id in CandidateIds(db, user, o);
    }
  }

  /** Every direct hit of a search, with any number of hops, is a memory that the search may return. */
  lemma DirectHitsAreFindable(db: Db, user: string, query: seq<real>, o: Options, cfg: Config,
                              dense: seq<Ranked>, ranked: seq<Ranked>, rs: seq<Ranked>, i: nat)
    requires cfg.tauDays != 0.0 && Answered(db, user, query, o, cfg, dense, ranked, rs)
    requires i < |rs| && rs[i].source == Direct
    ensures rs[i].id in db.mem && Returnable(db.mem[rs[i].id], user, o)
    ensures rs[i].score == ScoreOf(db, query, o, cfg, dense, rs[i].id)
  {
    var x := rs[i];
    assert x in ranked by {
      if !(o.hops == 0 || ranked == []) {
        var all :| ExpandedFrom(db, user, query, ranked, o, cfg, all) && IsTop(all, rs, o.limit);
        assert x in all;
        var j :| 0 <= j < |all| && all[j] == x;
        assert j < |ranked| && all[j] == ranked[j];
      }
    }
    var j :| 0 <= j < |ranked| && ranked[j] == x;
    PoolIsFindable(db, user, query, o, cfg, dense, ranked, x.id);
    assert x.id in IdSet(ranked);
  }

  /** Without hops every result is a direct hit, and each memory the search may return is one or is outscored. */
  lemma AnswerIsComplete(db: Db, user: string, query: seq<real>, o: Options, cfg: Config,
                         dense: seq<Ranked>, ranked: seq<Ranked>, rs: seq<Ranked>, id: Id)
    requires cfg.tauDays != 0.0 && o.hops == 0 && Answered(db, user, query, o, cfg, dense, ranked, rs)
    requires id in db.mem && Returnable(db.mem[id], user, o)
    ensures forall i :: 0 <= i < |rs| ==> rs[i].source == Direct
    ensures
      || id in IdSet(rs)
      || (|rs| == o.limit && forall i :: 0 <= i < |rs| ==> ScoreOf(db, query, o, cfg, dense, id) <= rs[i].score)
  {
    PoolIsFindable(db, user, query, o, cfg, dense, ranked, id);
    var j :| 0 <= j < |ranked| && ranked[j].id == id;
    if ranked[j] in rs {
      var i :| 0 <= i < |rs| && rs[i] == ranked[j];
      assert rs[i].id == id;
    } else {
      LeftOut(ranked, rs, o.limit, ranked[j]);
    }
  }

  // What a top leaves out is outscored by a full list.
  lemma LeftOut(pool: seq<Ranked>, top: seq<Ranked>, limit: nat, x: Ranked)
    requires IsTop(pool, top, limit) && DistinctIds(pool) && x in pool && x !in top
    ensures |top| == limit && forall i :: 0 <= i < |top| ==> x.score <= top[i].score
  {
    if |pool| <= limit {
      var ids := set i | 0 <= i < |pool| :: pool[i];
      DistinctEntries(pool);
      DistinctEntries(top);
      assert Elems(top) <= Elems(pool) - {x};
      SubsetCount(Elems(top), Elems(pool) - {x});
    }
  }

  lemma DistinctEntries(s: seq<Ranked>)
    requires DistinctIds(s)
    ensures |Elems(s)| == |s|
  {
    assert NoDup(s);
    DistinctCount(s);
  }

  /** Deep recall adds to the pool exactly the superseded, the cold and the expired memories that are no stubs. */
  lemma DeepRecallDropsThreeFilters(db: Db, user: string, query: seq<real>, o: Options, cfg: Config,
                                    plain: seq<Ranked>, deep: seq<Ranked>, id: Id)
    requires IsPool(db, user, query, o.(deepRecall := false), cfg, plain)
    requires IsPool(db, user, query, o.(deepRecall := true), cfg, deep)
    ensures id in IdSet(plain) ==> id in IdSet(deep)
    ensures id in IdSet(deep) && id !in IdSet(plain) <==>
      id in db.mem && DeeplyFindable(db.mem[id], user, o)
      && (db.mem[id].isSuperseded || db.mem[id].isCold || Expired(db.mem[id], o.now))
  {
    assert id in IdSet(plain) <==> id in CandidateIds(db, user, o.(deepRecall := false));
    assert id in IdSet(deep) <==> id in CandidateIds(db, user, o.(deepRecall := true));
  }

  // -------------------------------------------------------------------------
  // Expanded hits
  // -------------------------------------------------------------------------

  // `f` is the weight of a stored link into `id`, decayed since a stored co-retrieval if there is one, and still strong.
  ghost predicate LinkFactor(db: Db, o: Options, cfg: Config, id: Id, f: real)
    requires cfg.tauDays != 0.0
  {
    && f >= o.minWeight
    && exists s: Id :: Strong(db.assoc, o.minWeight, s, id) &&
         (f == db.assoc[(s, id)].weight || exists u: Id :: DecayedSince(db, o, cfg, db.assoc[(s, id)].weight, u, id, f))
  }

  ghost predicate DecayedSince(db: Db, o: Options, cfg: Config, w: real, u: Id, id: Id, f: real)
    requires cfg.tauDays != 0.0
  {
    && (u, id) in db.assoc && db.assoc[(u, id)].lastCoRetrieval.Some?
    && f == w * cfg.exp(-DaysSince(db.assoc[(u, id)].lastCoRetrieval.value, o.now) / cfg.tauDays)
  }

  // The hit scores as a direct hit would, damped by `f`.
  ghost predicate Damped(db: Db, user: string, query: seq<real>, o: Options, cfg: Config, x: Ranked, f: real)
    requires cfg.tauDays != 0.0
  {
    Owns(db, user, x.id) && LinkFactor(db, o, cfg, x.id, f) && x.score == Composite(db.mem[x.id], query, o.now, cfg) * f
  }

  lemma CollapsedFactor(db: Db, sources: set<Id>, o: Options, cfg: Config, x: Linked)
    requires cfg.tauDays != 0.0 && IsCollapsed(db.assoc, sources, o.minWeight, x)
    requires LiveWeight(x.weight, x.last, o.now, cfg) >= o.minWeight
    ensures LinkFactor(db, o, cfg, x.id, LiveWeight(x.weight, x.last, o.now, cfg))
  {
    var s: Id :| s in sources && Strong(db.assoc, o.minWeight, s, x.id) && db.assoc[(s, x.id)].weight == x.weight;
    if x.last.Some? {
      var u: Id :| u in sources && Strong(db.assoc, o.minWeight, u, x.id) && db.assoc[(u, x.id)].lastCoRetrieval == x.last;
      assert DecayedSince(db, o, cfg, db.assoc[(s, x.id)].weight, u, x.id, LiveWeight(x.weight, x.last, o.now, cfg));
    }
  }

  lemma AdmittedFactor(db: Db, user: string, query: seq<real>, sources: seq<Id>, o: Options, cfg: Config, r: Ranked) returns (f: real)
    requires cfg.tauDays != 0.0 && NewHit(db, user, query, sources, o, cfg, r)
    ensures Eligible(db, user, query, r.id) && Damped(db, user, query, o, cfg, r, f)
  {
    var x :| HitOf(db, user, query, sources, o, cfg, r, x);
    f := LiveWeight(x.weight, x.last, o.now, cfg);
    CollapsedFactor(db, Elems(sources), o, cfg, x);
  }

  lemma {:induction false} AddedInSomeHop(db: Db, user: string, query: seq<real>, o: Options, cfg: Config,
                                          lists: seq<seq<Ranked>>, h: nat, r: Ranked) returns (k: nat)
    requires cfg.tauDays != 0.0 && HopChain(db, user, query, o, cfg, lists) && h < |lists| && r in lists[h] && r !in lists[0]
    ensures k < |lists| && NewHit(db, user, query, Newest(lists, k, o.limit), o, cfg, r)
  {
    assert HopAt(db, user, query, o, cfg, lists, h - 1);
    if r in lists[h - 1] {
      k := AddedInSomeHop(db, user, query, o, cfg, lists, h - 1, r);
    } else {
      k := h - 1;
      EntryIsNewHit(db, user, query, o, cfg, Newest(lists, k, o.limit), lists[k], lists[h], r);
    }
  }

  lemma RankedIsDirect(db: Db, user: string, query: seq<real>, o: Options, cfg: Config,
                       dense: seq<Ranked>, ranked: seq<Ranked>, x: Ranked)
    requires IsPool(db, user, query, o, cfg, dense)
    requires if o.hybrid then IsHybridPool(dense, o.lexical, ranked) else ranked == dense
    ensures x in ranked ==> x.source == Direct
  {
  }

  lemma FactorInList(db: Db, user: string, query: seq<real>, o: Options, cfg: Config,
                     ranked: seq<Ranked>, all: seq<Ranked>, x: Ranked) returns (f: real)
    requires cfg.tauDays != 0.0 && ExpandedFrom(db, user, query, ranked, o, cfg, all) && x in all && x !in ranked
    ensures Damped(db, user, query, o, cfg, x, f)
  {
    var lists :| ExpandedBy(db, user, query, ranked, o, cfg, all, lists);
    var k := AddedInSomeHop(db, user, query, o, cfg, lists, o.hops, x);
    f := AdmittedFactor(db, user, query, Newest(lists, k, o.limit), o, cfg, x);
  }

  /**
    A result that came by the graph belongs to the user and scores as a direct hit would, damped by the
    decayed weight of a link into it that is still strong.
   */
  lemma ExpandedHitsAreDamped(db: Db, user: string, query: seq<real>, o: Options, cfg: Config,
                              dense: seq<Ranked>, ranked: seq<Ranked>, rs: seq<Ranked>, i: nat) returns (f: real)
    requires cfg.tauDays != 0.0 && Answered(db, user, query, o, cfg, dense, ranked, rs)
    requires i < |rs| && rs[i].source == GraphExpanded
    ensures o.hops > 0 && Damped(db, user, query, o, cfg, rs[i], f)
  {
    RankedIsDirect(db, user, query, o, cfg, dense, ranked, rs[i]);
    var all :| ExpandedFrom(db, user, query, ranked, o, cfg, all) && IsTop(all, rs, o.limit);
    f := FactorInList(db, user, query, o, cfg, ranked, all, rs[i]);
  }

  // A walk over stored links at or above the weight, from one of the best hits: the first `limit`, but at least five.
  ghost predicate LinkedFromTop(db: Db, o: Options, ranked: seq<Ranked>, p: seq<Id>, id: Id) {
    && 2 <= |p| <= o.hops + 1 && p[|p| - 1] == id
    && (forall i :: 0 <= i < |p| - 1 ==> (p[i], p[i + 1]) in db.assoc && db.assoc[(p[i], p[i + 1])].weight >= o.minWeight)
    && exists j :: 0 <= j < |ranked| && (j < 5 || j < o.limit) && ranked[j].id == p[0]
  }

  lemma TopsByPosition(ranked: seq<Ranked>, limit: nat, id: Id)
    requires id in Elems(TopIds(ranked, limit))
    ensures exists j :: 0 <= j < |ranked| && (j < 5 || j < limit) && ranked[j].id == id
  {
    var j :| 0 <= j < |TopIds(ranked, limit)| && TopIds(ranked, limit)[j] == id;
    assert ranked[j].id == id;
  }

  /** ... and a chain of at most `hops` stored links at or above the weight leads to it from one of the best direct hits. */
  lemma ExpandedHitsAreLinked(db: Db, user: string, query: seq<real>, o: Options, cfg: Config,
                              dense: seq<Ranked>, ranked: seq<Ranked>, rs: seq<Ranked>, i: nat) returns (p: seq<Id>)
    requires cfg.tauDays != 0.0 && Answered(db, user, query, o, cfg, dense, ranked, rs)
    requires i < |rs| && rs[i].source == GraphExpanded
    ensures LinkedFromTop(db, o, ranked, p, rs[i].id)
  {
    RankedIsDirect(db, user, query, o, cfg, dense, ranked, rs[i]);
    var all :| ExpandedFrom(db, user, query, ranked, o, cfg, all) && IsTop(all, rs, o.limit);
    p := WalkInList(db, user, query, o, cfg, ranked, all, rs[i]);
  }

  lemma WalkInList(db: Db, user: string, query: seq<real>, o: Options, cfg: Config,
                   ranked: seq<Ranked>, all: seq<Ranked>, x: Ranked) returns (p: seq<Id>)
    requires cfg.tauDays != 0.0 && ExpandedFrom(db, user, query, ranked, o, cfg, all) && x in all && x !in ranked
    ensures LinkedFromTop(db, o, ranked, p, x.id)
  {
    var j :| 0 <= j < |all| && all[j] == x;
    assert j >= |ranked|;
    p :| WalkTo(StrongLinks(db.assoc, o.minWeight), Elems(TopIds(ranked, o.limit)), p, x.id) && 1 <= |p| - 1 <= o.hops;
    TopsByPosition(ranked, o.limit, p[0]);
  }

  // -------------------------------------------------------------------------
  // Hybrid scores
  // -------------------------------------------------------------------------

  // What a list of ids adds to the score of one of them: one over sixty plus its place, counted from one.
  ghost predicate Adds(ids: seq<Id>, id: Id, x: real) {
    if id in ids then exists i :: 0 <= i < |ids| && ids[i] == id && x == 1.0 / (61 + i) as real else x == 0.0
  }

  lemma {:induction false} ListAdds(ids: seq<Id>, n: nat, id: Id)
    requires NoDup(ids) && n <= |ids|
    ensures id !in ids[..n] ==> ListScore(RankList(ids)[..n], 60, id) == 0.0
    ensures forall i :: 0 <= i < n && ids[i] == id ==> ListScore(RankList(ids)[..n], 60, id) == 1.0 / (61 + i) as real
    decreases n
  {
    if n > 0 {
      assert RankList(ids)[..n][..n - 1] == RankList(ids)[..n - 1] && RankList(ids)[..n][n - 1] == RankedHit(ids[n - 1], n - 1);
      assert ids[..n] == ids[..n - 1] + [ids[n - 1]];
      ListAdds(ids, n - 1, id);
    }
  }

  lemma WholeListAdds(ids: seq<Id>, id: Id)
    requires NoDup(ids)
    ensures Adds(ids, id, ListScore(RankList(ids), 60, id))
  {
    ListAdds(ids, |ids|, id);
    assert RankList(ids)[..|ids|] == RankList(ids) && ids[..|ids|] == ids;
  }

  /** The hybrid score of a memory is the sum of what its places in the dense and in the lexical ranking add. */
  lemma HybridScoreAddsPlaces(db: Db, query: seq<real>, o: Options, cfg: Config, dense: seq<Ranked>, id: Id) returns (x: real, y: real)
    requires o.hybrid && DistinctIds(dense) && NoDup(o.lexical) && id in db.mem
    ensures ScoreOf(db, query, o, cfg, dense, id) == x + y
    ensures Adds(IdsInOrder(dense), id, x) && Adds(o.lexical, id, y)
  {
    var lists := HybridLists(dense, o.lexical);
    x, y := ListScore(lists[0], 60, id), ListScore(lists[1], 60, id);
    WholeListAdds(IdsInOrder(dense), id);
    WholeListAdds(o.lexical, id);
    assert lists[..1][..0] == [] && lists[..1] == [lists[0]];
    assert FusedScore(lists, 60, id) == FusedScore(lists[..1], 60, id) + y;
    assert FusedScore(lists[..1], 60, id) == FusedScore(lists[..1][..0], 60, id) + x;
  }

  // -------------------------------------------------------------------------
  // Along a run
  // -------------------------------------------------------------------------

  // The row is out of every plain answer.
  predicate Hidden(r: Row) {
    r.isSuperseded || r.isStub || r.isCold
  }

  // The id is among the direct hits of no plain search on these tables.
  ghost predicate NeverPlainlyFound(db: Db, id: Id, cfg: Config)
    requires cfg.tauDays != 0.0
  {
    forall user, query, o: Options, dense, ranked, rs: seq<Ranked>, i ::
      (!o.deepRecall && Answered(db, user, query, o, cfg, dense, ranked, rs) && 0 <= i < |rs| && rs[i].source == Direct)
      ==> rs[i].id != id
  }

  lemma HiddenIsNotFound(db: Db, id: Id, cfg: Config)
    requires id in db.mem ==> Hidden(db.mem[id])
    requires cfg.tauDays != 0.0
    ensures NeverPlainlyFound(db, id, cfg)
  {
    forall user, query, o: Options, dense, ranked, rs: seq<Ranked>, i
      | !o.deepRecall && Answered(db, user, query, o, cfg, dense, ranked, rs) && 0 <= i < |rs| && rs[i].source == Direct
      ensures rs[i].id != id
    {
      DirectHitsAreFindable(db, user, query, o, cfg, dense, ranked, rs, i);
    }
  }

  lemma HidingThroughTick(r: Row, r2: Row, r3: Row, r4: Row, now: int, cfg: Config)
    requires TierEdit(r, r2) && C.ConflictEdit(r2, r3) && SummaryEdit(r3, r4, now, cfg)
    ensures (r.isSuperseded ==> r4.isSuperseded) && (r.isStub ==> r4.isStub) && (r.isCold ==> r4.isCold)
  {
  }

  lemma StepKeepsHiding(db: Db, req: Request, after: Db, cfg: Config, id: Id)
    requires cfg.intervalDays != 0.0 && SoundTables(db) && Next(db, req, after, cfg)
    requires id in db.mem && id in after.mem
    ensures db.mem[id].isSuperseded ==> after.mem[id].isSuperseded
    ensures db.mem[id].isStub ==> after.mem[id].isStub
    ensures db.mem[id].isCold && !Restores(db, req, id) ==> after.mem[id].isCold
  {
    if req.Tick? {
      TickPasses(db, after, req.log, req.stamp, cfg);
      HidingThroughTick(db.mem[id], AfterExpiry(db, req.stamp.now, cfg).mem[id],
                        AfterConflicts(db, req.stamp.now, req.log, cfg).mem[id], after.mem[id], req.stamp.now, cfg);
    } else {
      RequestRows(db, req, cfg);
    }
  }

  lemma StepKeepsHidingIn(states: seq<Db>, reqs: seq<Request>, cfg: Config, n: nat, id: Id)
    requires cfg.intervalDays != 0.0 && Run(states, reqs, cfg) && n < |reqs| && SoundTables(states[n]) && SoundTables(states[n + 1])
    requires id in states[n].mem || id < states[n].nextId
    ensures id in states[n + 1].mem ==> id in states[n].mem
    ensures id < states[n + 1].nextId
    ensures id in states[n + 1].mem ==>
      && (states[n].mem[id].isSuperseded ==> states[n + 1].mem[id].isSuperseded)
      && (states[n].mem[id].isStub ==> states[n + 1].mem[id].isStub)
      && (states[n].mem[id].isCold && !Restores(states[n], reqs[n], id) ==> states[n + 1].mem[id].isCold)
  {
    assert StepAt(states, reqs, cfg, n);
    R.NextCounts(states[n], reqs[n], states[n + 1], cfg, id);
    R.NextKeepsTables(states[n], reqs[n], states[n + 1], cfg);
    if id in states[n + 1].mem && id in states[n].mem {
      StepKeepsHiding(states[n], reqs[n], states[n + 1], cfg, id);
    }
  }

  // No request of the run from `n` to `m` restores the row.
  ghost predicate NotRestored(states: seq<Db>, reqs: seq<Request>, n: nat, m: nat, id: Id)
    requires |states| == |reqs| + 1 && m < |states|
  {
    forall i :: n <= i < m && id in states[i].mem ==> !Restores(states[i], reqs[i], id)
  }

  lemma {:induction false} HidingLasts(states: seq<Db>, reqs: seq<Request>, cfg: Config, n: nat, m: nat, id: Id)
    requires cfg.intervalDays != 0.0 && Run(states, reqs, cfg) && n <= m < |states| && id in states[n].mem
    ensures id < states[m].nextId
    ensures id in states[m].mem ==>
      && (states[n].mem[id].isSuperseded ==> states[m].mem[id].isSuperseded)
      && (states[n].mem[id].isStub ==> states[m].mem[id].isStub)
      && (states[n].mem[id].isCold && NotRestored(states, reqs, n, m, id) ==> states[m].mem[id].isCold)
    decreases m
  {
    R.TablesStaySound(states, reqs, cfg, m);
    if n < m {
      HidingLasts(states, reqs, cfg, n, m - 1, id);
      R.TablesStaySound(states, reqs, cfg, m - 1);
      StepKeepsHidingIn(states, reqs, cfg, m - 1, id);
    }
  }

  /**
    In every run a memory that is superseded, for whatever reason, or has become a stub is never again a
    direct hit of a plain search, and a cold one not until a request restores it.
   */
  lemma HiddenStaysHidden(states: seq<Db>, reqs: seq<Request>, cfg: Config, n: nat, m: nat, id: Id)
    requires cfg.intervalDays != 0.0 && cfg.tauDays != 0.0 && Run(states, reqs, cfg) && n <= m < |states| && id in states[n].mem
    requires
      || states[n].mem[id].isSuperseded || states[n].mem[id].isStub
      || (states[n].mem[id].isCold && NotRestored(states, reqs, n, m, id))
    ensures NeverPlainlyFound(states[m], id, cfg)
  {
    HidingLasts(states, reqs, cfg, n, m, id);
    HiddenIsNotFound(states[m], id, cfg);
  }

  /** ... in particular what a tick supersedes or archives; nor does a later ingest, which searches the same way, meet it. */
  lemma LostMemoriesAreNotFound(states: seq<Db>, reqs: seq<Request>, cfg: Config, n: nat, m: nat, id: Id, row: Row)
    requires cfg.intervalDays != 0.0 && cfg.tauDays != 0.0 && Run(states, reqs, cfg) && n < m < |states|
    requires reqs[n].Tick? && id in states[n + 1].mem && (states[n + 1].mem[id].isSuperseded || states[n + 1].mem[id].isStub)
    ensures NeverPlainlyFound(states[m], id, cfg) && NeverPlainlyFound(Insert(states[m], row), id, cfg)
  {
    HiddenStaysHidden(states, reqs, cfg, n + 1, m, id);
    HidingLasts(states, reqs, cfg, n + 1, m, id);
    HiddenIsNotFound(Insert(states[m], row), id, cfg);
  }

  /** What a Store of a run wrote, the next search finds, or answers with `limit` results that outscore it. */
  lemma StoredMemoriesAreFound(states: seq<Db>, reqs: seq<Request>, cfg: Config, n: nat, query: seq<real>, o: Options,
                               dense: seq<Ranked>, ranked: seq<Ranked>, rs: seq<Ranked>)
    requires cfg.intervalDays != 0.0 && cfg.tauDays != 0.0 && Run(states, reqs, cfg) && n < |reqs| && reqs[n].Store?
    requires o.hops == 0 && o.provider == reqs[n].stamp.provider && o.model == reqs[n].stamp.model
    requires Answered(states[n + 1], reqs[n].user, query, o, cfg, dense, ranked, rs)
    ensures states[n].nextId in states[n + 1].mem
    ensures
      || states[n].nextId in IdSet(rs)
      || (|rs| == o.limit
          && forall i :: 0 <= i < |rs| ==> ScoreOf(states[n + 1], query, o, cfg, dense, states[n].nextId) <= rs[i].score)
  {
    R.StoresKeepWhatTheyAreGiven(states, reqs, cfg, n);
    AnswerIsComplete(states[n + 1], reqs[n].user, query, o, cfg, dense, ranked, rs, states[n].nextId);
  }
}
