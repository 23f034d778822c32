/**
  What the graph adds to a search.  `expand_via_graph` knows none of the filters of `candidates_for_search`, and
  starts from the list of all candidates: so exactly linked memories that the filters exclude come in.
 */
module Exposure {
  import opened RealArith
  import opened Lifecycle
  import opened Collections
  import opened Tables
  import opened Hits
  import opened Associations
  import opened Bridges
  import opened Linking
  import opened Ranking
  import opened Searching
  import opened Requests
  import opened Steps
  import opened Findable
  import R = Runs
  import Y = Symmetry

  // -------------------------------------------------------------------------
  // Linked memories come in
  // -------------------------------------------------------------------------

  // The collapsed link of a target with strong links exists.
  lemma {:induction false} CollapseExists(assoc: Links, sources: seq<Id>, minWeight: real, t: Id) returns (x: Linked)
    requires exists s: Id :: s in sources && Strong(assoc, minWeight, s, t)
    ensures x.id == t && IsCollapsed(assoc, Elems(sources), minWeight, x)
    decreases |sources|
  {
    var (front, s) := (sources[..|sources| - 1], sources[|sources| - 1]);
    assert Elems(sources) == Elems(front) + {s};
    if exists u: Id :: u in front && Strong(assoc, minWeight, u, t) {
      x := CollapseExists(assoc, front, minWeight, t);
      if Strong(assoc, minWeight, s, t) {
        var e := assoc[(s, t)];
        x := Linked(t, Max(e.weight, x.weight),
                    if x.last.None? || (e.lastCoRetrieval.Some? && x.last.value < e.lastCoRetrieval.value)
                    then e.lastCoRetrieval else x.last);
      }
    } else {
      x := Linked(t, assoc[(s, t)].weight, assoc[(s, t)].lastCoRetrieval);
    }
  }

  // A dated link from a memory to one of the user's that fits the query, still strong by itself.
  ghost predicate LiveLink(db: Db, user: string, query: seq<real>, o: Options, cfg: Config, a: Id, b: Id)
    requires cfg.tauDays != 0.0
  {
    && b in db.mem && db.mem[b].user == user && db.mem[b].embedding.Some? && |db.mem[b].embedding.value| == |query|
    && (a, b) in db.assoc && db.assoc[(a, b)].lastCoRetrieval.Some?
    && DecayAssociationWeight(db.assoc[(a, b)].weight, db.assoc[(a, b)].lastCoRetrieval.value, o.now, cfg) >= o.minWeight
  }

  // One of the best direct hits: the first `limit`, but at least five.
  ghost predicate AtTop(ranked: seq<Ranked>, limit: nat, id: Id) {
    exists j :: 0 <= j < |ranked| && (j < 5 || j < limit) && ranked[j].id == id
  }

  // A chain of such links from one of the best direct hits, through no other direct hits.
  ghost predicate LiveChain(db: Db, user: string, query: seq<real>, o: Options, cfg: Config, ranked: seq<Ranked>, p: seq<Id>)
    requires cfg.tauDays != 0.0
  {
    && 2 <= |p| <= o.hops + 1 && AtTop(ranked, o.limit, p[0])
    && (forall i :: 0 <= i < |p| - 1 ==> LiveLink(db, user, query, o, cfg, p[i], p[i + 1]))
    && (forall i :: 0 < i < |p| - 1 ==> AtTop(ranked, o.limit, p[i]) || p[i] !in IdSet(ranked))
  }

  lemma TopsAreExpanded(ranked: seq<Ranked>, limit: nat, id: Id)
    requires AtTop(ranked, limit, id)
    ensures id in Elems(TopIds(ranked, limit))
  {
    var j :| 0 <= j < |ranked| && (j < 5 || j < limit) && ranked[j].id == id;
    assert TopIds(ranked, limit)[j] == id;
  }

  // A live link from a memory that is expanded brings its target in.
  lemma LinkBringsIn(db: Db, user: string, query: seq<real>, o: Options, cfg: Config, sources: seq<Id>,
                     before: seq<Ranked>, after: seq<Ranked>, a: Id, b: Id)
    requires GoodExp(cfg.exp) && cfg.tauDays > 0.0 && SoundLinks(db)
    requires HopResult(db, user, query, sources, o, cfg, before, after)
    requires a in Elems(sources) && LiveLink(db, user, query, o, cfg, a, b)
    ensures b in IdSet(after)
  {
    CollapseNeverDrops(db.assoc, Elems(sources), o.minWeight, a, Linked(b, 0.0, None), o.now, cfg);
    var x := CollapseExists(db.assoc, sources, o.minWeight, b);
    CollapseNeverDrops(db.assoc, Elems(sources), o.minWeight, a, x, o.now, cfg);
    assert Admitted(db, user, query, sources, o, cfg, x);
  }

  // What a hop holds that the direct hits do not, some hop up to it has added, so it is expanded next.
  lemma {:induction false} AddedThenExpanded(db: Db, user: string, query: seq<real>, o: Options, cfg: Config,
                                             lists: seq<seq<Ranked>>, h: nat, id: Id) returns (k: nat)
    requires cfg.tauDays != 0.0 && HopChain(db, user, query, o, cfg, lists)
    requires h < |lists| && id in IdSet(lists[h]) && id !in IdSet(lists[0])
    ensures 0 < k <= h && id in Elems(Newest(lists, k, o.limit))
  {
    assert HopAt(db, user, query, o, cfg, lists, h - 1);
    if id in IdSet(lists[h - 1]) {
      k := AddedThenExpanded(db, user, query, o, cfg, lists, h - 1, id);
    } else {
      k := h;
      AddedIsNewest(lists[h - 1], lists[h], id);
    }
  }

  lemma AddedIsNewest(before: seq<Ranked>, after: seq<Ranked>, id: Id)
    requires before <= after && id in IdSet(after) && id !in IdSet(before)
    ensures id in Elems(IdsInOrder(after[|before|..]))
  {
    var j :| 0 <= j < |after| && after[j].id == id;
    assert forall i :: 0 <= i < |before| ==> before[i] == after[i];
    assert IdsInOrder(after[|before|..])[j - |before|] == id;
  }

  lemma {:induction false} ChainIsExpanded(db: Db, user: string, query: seq<real>, o: Options, cfg: Config,
                                           lists: seq<seq<Ranked>>, p: seq<Id>, n: nat) returns (h: nat)
    requires GoodExp(cfg.exp) && cfg.tauDays > 0.0 && SoundLinks(db)
    requires HopChain(db, user, query, o, cfg, lists) && |lists| == o.hops + 1
    requires LiveChain(db, user, query, o, cfg, lists[0], p) && n < |p| - 1
    ensures h <= n && p[n] in Elems(Newest(lists, h, o.limit))
  {
    if AtTop(lists[0], o.limit, p[n]) {
      h := 0;
      TopsAreExpanded(lists[0], o.limit, p[n]);
    } else {
      var k := ChainIsExpanded(db, user, query, o, cfg, lists, p, n - 1);
      assert HopAt(db, user, query, o, cfg, lists, k);
      assert LiveLink(db, user, query, o, cfg, p[n - 1], p[n - 1 + 1]);
      LinkBringsIn(db, user, query, o, cfg, Newest(lists, k, o.limit), lists[k], lists[k + 1], p[n - 1], p[n]);
      h := AddedThenExpanded(db, user, query, o, cfg, lists, k + 1, p[n]);
    }
  }

  lemma {:induction false} ListsGrow(db: Db, user: string, query: seq<real>, o: Options, cfg: Config,
                                     lists: seq<seq<Ranked>>, h: nat, m: nat)
    requires cfg.tauDays != 0.0 && HopChain(db, user, query, o, cfg, lists) && h <= m < |lists|
    ensures lists[h] <= lists[m]
    decreases m
  {
    if h < m {
      ListsGrow(db, user, query, o, cfg, lists, h, m - 1);
      assert HopAt(db, user, query, o, cfg, lists, m - 1);
    }
  }

  lemma ChainComesIn(db: Db, user: string, query: seq<real>, o: Options, cfg: Config,
                     ranked: seq<Ranked>, all: seq<Ranked>, p: seq<Id>) returns (x: Ranked)
    requires GoodExp(cfg.exp) && cfg.tauDays > 0.0 && SoundLinks(db)
    requires ExpandedFrom(db, user, query, ranked, o, cfg, all) && LiveChain(db, user, query, o, cfg, ranked, p)
    ensures x in all && x.id == p[|p| - 1]
  {
    var lists :| ExpandedBy(db, user, query, ranked, o, cfg, all, lists);
    var n := |p| - 2;
    var h := ChainIsExpanded(db, user, query, o, cfg, lists, p, n);
    assert HopAt(db, user, query, o, cfg, lists, h);
    assert LiveLink(db, user, query, o, cfg, p[n], p[n + 1]);
    LinkBringsIn(db, user, query, o, cfg, Newest(lists, h, o.limit), lists[h], lists[h + 1], p[n], p[n + 1]);
    ListsGrow(db, user, query, o, cfg, lists, h + 1, o.hops);
    var y := EntryOf(lists[h + 1], p[n + 1]);
    x := y;
  }

  /**
    A memory that a chain of at most `hops` live links joins to one of the best direct hits is a result, or
    `limit` results score at least as much; its score is that of a direct hit, damped unless it is one.
   */
  lemma LinkedMemoriesAreFound(db: Db, user: string, query: seq<real>, o: Options, cfg: Config,
                               dense: seq<Ranked>, ranked: seq<Ranked>, rs: seq<Ranked>, p: seq<Id>)
    returns (x: Ranked, f: real)
    requires GoodExp(cfg.exp) && cfg.tauDays > 0.0 && SoundLinks(db)
    requires Answered(db, user, query, o, cfg, dense, ranked, rs) && LiveChain(db, user, query, o, cfg, ranked, p)
    ensures x.id == p[|p| - 1]
    ensures x in ranked || Damped(db, user, query, o, cfg, x, f)
    ensures x in rs || (|rs| == o.limit && forall i :: 0 <= i < |rs| ==> x.score <= rs[i].score)
  {
    var all :| ExpandedFrom(db, user, query, ranked, o, cfg, all) && IsTop(all, rs, o.limit);
    x := ChainComesIn(db, user, query, o, cfg, ranked, all, p);
    f := 1.0;
    if x !in ranked {
      f := FactorInList(db, user, query, o, cfg, ranked, all, x);
    }
    if x !in rs {
      LeftOut(all, rs, o.limit, x);
    }
  }

  // -------------------------------------------------------------------------
  // Only excluded memories come in
  // -------------------------------------------------------------------------

  lemma JoinedIsExcluded(db: Db, user: string, query: seq<real>, o: Options, cfg: Config,
                         dense: seq<Ranked>, ranked: seq<Ranked>, all: seq<Ranked>, x: Ranked)
    requires cfg.tauDays != 0.0 && IsPool(db, user, query, o, cfg, dense)
    requires if o.hybrid then IsHybridPool(dense, o.lexical, ranked) else ranked == dense
    requires ExpandedFrom(db, user, query, ranked, o, cfg, all) && x in all
    ensures x in ranked <==> x.source == Direct
    ensures x !in ranked ==> x.id in db.mem && x.id !in IdSet(ranked) && !Returnable(db.mem[x.id], user, o)
  {
    RankedIsDirect(db, user, query, o, cfg, dense, ranked, x);
    if x !in ranked {
      var j :| 0 <= j < |all| && all[j] == x;
      assert j >= |ranked|;
      assert forall i :: 0 <= i < |ranked| ==> all[i] == ranked[i];
      PoolIsFindable(db, user, query, o, cfg, dense, ranked, x.id);
    }
  }

  /** Whatever a search returns by the graph is a memory that its own filters exclude. */
  lemma OnlyExcludedMemoriesJoin(db: Db, user: string, query: seq<real>, o: Options, cfg: Config,
                                 dense: seq<Ranked>, ranked: seq<Ranked>, rs: seq<Ranked>, i: nat)
    requires cfg.tauDays != 0.0 && Answered(db, user, query, o, cfg, dense, ranked, rs)
    requires i < |rs| && rs[i].source == GraphExpanded
    ensures rs[i].id in db.mem && !Returnable(db.mem[rs[i].id], user, o)
  {
    RankedIsDirect(db, user, query, o, cfg, dense, ranked, rs[i]);
    var all :| ExpandedFrom(db, user, query, ranked, o, cfg, all) && IsTop(all, rs, o.limit);
    JoinedIsExcluded(db, user, query, o, cfg, dense, ranked, all, rs[i]);
  }

  // The collapsed links of the best direct hits to an excluded memory of the user are still strong.
  ghost predicate Pulls(db: Db, user: string, query: seq<real>, o: Options, cfg: Config, ranked: seq<Ranked>, x: Linked)
    requires cfg.tauDays != 0.0
  {
    Admitted(db, user, query, TopIds(ranked, o.limit), o, cfg, x) && !Returnable(db.mem[x.id], user, o)
  }

  lemma NothingAdded(db: Db, user: string, query: seq<real>, o: Options, cfg: Config, before: seq<Ranked>, after: seq<Ranked>)
    requires cfg.tauDays != 0.0 && HopResult(db, user, query, [], o, cfg, before, after)
    ensures after == before
  {
    forall r | r in after
      ensures r in before
    {
      if r !in before {
        EntryIsNewHit(db, user, query, o, cfg, [], before, after, r);
        assert false;
      }
    }
    DistinctEntries(before);
    DistinctEntries(after);
    SubsetCount(Elems(after), Elems(before));
  }

  lemma {:induction false} NothingAddedLater(db: Db, user: string, query: seq<real>, o: Options, cfg: Config,
                                             lists: seq<seq<Ranked>>, h: nat)
    requires cfg.tauDays != 0.0 && HopChain(db, user, query, o, cfg, lists) && 1 <= h < |lists| && lists[1] == lists[0]
    ensures lists[h] == lists[0] == lists[h - 1]
  {
    if h > 1 {
      NothingAddedLater(db, user, query, o, cfg, lists, h - 1);
      assert HopAt(db, user, query, o, cfg, lists, h - 1) && Newest(lists, h - 1, o.limit) == [];
      NothingAdded(db, user, query, o, cfg, lists[h - 1], lists[h]);
    }
  }

  // The first hop decides whether anything comes in.
  lemma FirstHopDecides(db: Db, user: string, query: seq<real>, o: Options, cfg: Config,
                        dense: seq<Ranked>, ranked: seq<Ranked>, all: seq<Ranked>)
    requires cfg.tauDays != 0.0 && o.hops > 0 && IsPool(db, user, query, o, cfg, dense)
    requires if o.hybrid then IsHybridPool(dense, o.lexical, ranked) else ranked == dense
    requires ExpandedFrom(db, user, query, ranked, o, cfg, all)
    ensures all != ranked <==> exists x :: Pulls(db, user, query, o, cfg, ranked, x)
  {
    var lists :| ExpandedBy(db, user, query, ranked, o, cfg, all, lists);
    assert HopAt(db, user, query, o, cfg, lists, 0);
    ListsGrow(db, user, query, o, cfg, lists, 1, o.hops);
    if lists[1] == ranked {
      NothingAddedLater(db, user, query, o, cfg, lists, o.hops);
    } else {
      var x := FirstAdded(db, user, query, TopIds(ranked, o.limit), o, cfg, ranked, lists[1]);
      assert all[|ranked|] == lists[1][|ranked|];
      JoinedIsExcluded(db, user, query, o, cfg, dense, ranked, all, all[|ranked|]);
      assert Pulls(db, user, query, o, cfg, ranked, x);
    }
    forall x | Pulls(db, user, query, o, cfg, ranked, x)
      ensures lists[1] != ranked
    {
      PoolIsFindable(db, user, query, o, cfg, dense, ranked, x.id);
    }
  }

  // The first entry that a hop adds, and the link that makes it.
  lemma FirstAdded(db: Db, user: string, query: seq<real>, sources: seq<Id>, o: Options, cfg: Config,
                   before: seq<Ranked>, after: seq<Ranked>) returns (x: Linked)
    requires cfg.tauDays != 0.0 && HopResult(db, user, query, sources, o, cfg, before, after) && after != before
    ensures |before| < |after| && after[|before|] !in before
    ensures HitOf(db, user, query, sources, o, cfg, after[|before|], x)
  {
    var r := after[|before|];
    assert forall i :: 0 <= i < |before| ==> after[i] == before[i];
    EntryIsNewHit(db, user, query, o, cfg, sources, before, after, r);
    x :| HitOf(db, user, query, sources, o, cfg, r, x);
  }

  /**
    A search with hops whose answer has room to spare shows an excluded memory if and only if the collapsed
    links of its best direct hits to some excluded memory of the user are still strong.
   */
  lemma ExcludedMemoryShownIff(db: Db, user: string, query: seq<real>, o: Options, cfg: Config,
                               dense: seq<Ranked>, ranked: seq<Ranked>, rs: seq<Ranked>)
    requires cfg.tauDays != 0.0 && Answered(db, user, query, o, cfg, dense, ranked, rs)
    requires o.hops > 0 && ranked != [] && |rs| < o.limit
    ensures (exists i :: 0 <= i < |rs| && !(rs[i].id in db.mem && Returnable(db.mem[rs[i].id], user, o))) <==>
            exists x :: Pulls(db, user, query, o, cfg, ranked, x)
  {
    var all :| ExpandedFrom(db, user, query, ranked, o, cfg, all) && IsTop(all, rs, o.limit);
    FirstHopDecides(db, user, query, o, cfg, dense, ranked, all);
    if all != ranked {
      var x := all[|ranked|];
      assert x !in ranked;
      JoinedIsExcluded(db, user, query, o, cfg, dense, ranked, all, x);
      if x !in rs {
        LeftOut(all, rs, o.limit, x);
      }
      var i :| 0 <= i < |rs| && rs[i] == x;
    } else {
      forall i | 0 <= i < |rs|
        ensures rs[i].id in db.mem && Returnable(db.mem[rs[i].id], user, o)
      {
        JoinedIsExcluded(db, user, query, o, cfg, dense, ranked, all, rs[i]);
        DirectHitsAreFindable(db, user, query, o, cfg, dense, ranked, rs, i);
      }
    }
  }

  // -------------------------------------------------------------------------
  // Hidden memories come back
  // -------------------------------------------------------------------------

  // A plain search by vectors of this provider and model at this instant.
  predicate PlainAt(o: Options, provider: string, model: string, now: int) {
    !o.deepRecall && o.provider == provider && o.model == model && o.now == now
  }

  // A link leads from a memory that the search may return to one of the user that it should not.
  ghost predicate Leads(db: Db, user: string, query: seq<real>, o: Options, a: Id, b: Id) {
    && a in db.mem && PlainlyFindable(db.mem[a], user, o)
    && (a, b) in db.assoc
    && b in db.mem && db.mem[b].user == user && db.mem[b].embedding.Some? && |db.mem[b].embedding.value| == |query|
    && !PlainlyFindable(db.mem[b], user, o)
  }

  // The search succeeds with this answer.
  ghost predicate Succeeds(db: Db, user: string, query: seq<real>, o: Options, cfg: Config,
                           dense: seq<Ranked>, ranked: seq<Ranked>, rs: seq<Ranked>)
    requires cfg.tauDays != 0.0
  {
    && query != [] && o.limit > 0 && !Mismatched(db, user, query, o) && (o.hybrid ==> o.hasText)
    && Descending(dense) && Answered(db, user, query, o, cfg, dense, ranked, rs)
  }

  // No such search shows a memory that plain searches should not return.
  ghost predicate StaysPlain(db: Db, user: string, query: seq<real>, provider: string, model: string, now: int, cfg: Config)
    requires cfg.tauDays != 0.0
  {
    forall o: Options, dense, ranked, rs: seq<Ranked>, i ::
      PlainAt(o, provider, model, now) && Succeeds(db, user, query, o, cfg, dense, ranked, rs) && 0 <= i < |rs|
      ==> rs[i].id in db.mem && PlainlyFindable(db.mem[rs[i].id], user, o)
  }

  function Asking(limit: nat, provider: string, model: string, now: int, hops: nat): Options {
    Options(limit, false, provider, model, now, false, false, [], hops, 0.0)
  }

  ghost predicate AllPlain(db: Db, user: string, o: Options, s: seq<Ranked>) {
    forall i :: 0 <= i < |s| ==> s[i].id in db.mem && PlainlyFindable(db.mem[s[i].id], user, o)
  }

  ghost predicate Tight(db: Db, user: string, query: seq<real>, o: Options) {
    forall a, b :: !Leads(db, user, query, o, a, b)
  }

  lemma HopStaysPlain(db: Db, user: string, query: seq<real>, o: Options, cfg: Config, sources: seq<Id>,
                      before: seq<Ranked>, after: seq<Ranked>)
    requires cfg.tauDays != 0.0 && HopResult(db, user, query, sources, o, cfg, before, after)
    requires Tight(db, user, query, o) && AllPlain(db, user, o, before)
    requires forall s: Id :: s in Elems(sources) ==> s in IdSet(before)
    ensures AllPlain(db, user, o, after)
  {
    forall i | 0 <= i < |after|
      ensures after[i].id in db.mem && PlainlyFindable(db.mem[after[i].id], user, o)
    {
      if i < |before| {
        assert after[i] == before[i];
      } else {
        var x :| HitOf(db, user, query, sources, o, cfg, after[i], x);
        var s: Id :| s in Elems(sources) && Strong(db.assoc, o.minWeight, s, x.id);
        var j :| 0 <= j < |before| && before[j].id == s;
        assert !Leads(db, user, query, o, s, x.id);
      }
    }
  }

  lemma NewestAreListed(lists: seq<seq<Ranked>>, h: nat, limit: nat)
    requires h < |lists|
    ensures forall s: Id :: s in Elems(Newest(lists, h, limit)) ==> s in IdSet(lists[h])
  {
    forall s: Id | s in Elems(Newest(lists, h, limit))
      ensures s in IdSet(lists[h])
    {
      var j :| 0 <= j < |Newest(lists, h, limit)| && Newest(lists, h, limit)[j] == s;
      if h > 0 {
        assert lists[h][|lists[h - 1]| + j].id == s;
      } else {
        assert lists[0][j].id == s;
      }
    }
  }

  lemma {:induction false} ChainStaysPlain(db: Db, user: string, query: seq<real>, o: Options, cfg: Config,
                                           lists: seq<seq<Ranked>>, h: nat)
    requires cfg.tauDays != 0.0 && HopChain(db, user, query, o, cfg, lists) && h < |lists|
    requires Tight(db, user, query, o) && AllPlain(db, user, o, lists[0])
    ensures AllPlain(db, user, o, lists[h])
  {
    if h > 0 {
      ChainStaysPlain(db, user, query, o, cfg, lists, h - 1);
      assert HopAt(db, user, query, o, cfg, lists, h - 1);
      NewestAreListed(lists, h - 1, o.limit);
      HopStaysPlain(db, user, query, o, cfg, Newest(lists, h - 1, o.limit), lists[h - 1], lists[h]);
    }
  }

  lemma TightStaysPlain(db: Db, user: string, query: seq<real>, o: Options, cfg: Config,
                        dense: seq<Ranked>, ranked: seq<Ranked>, rs: seq<Ranked>)
    requires cfg.tauDays != 0.0 && !o.deepRecall && Answered(db, user, query, o, cfg, dense, ranked, rs)
    requires Tight(db, user, query, o)
    ensures AllPlain(db, user, o, rs)
  {
    forall i | 0 <= i < |ranked|
      ensures ranked[i].id in db.mem && PlainlyFindable(db.mem[ranked[i].id], user, o)
    {
      PoolIsFindable(db, user, query, o, cfg, dense, ranked, ranked[i].id);
      assert ranked[i].id in IdSet(ranked);
    }
    var all := ranked;
    if o.hops > 0 && ranked != [] {
      all :| ExpandedFrom(db, user, query, ranked, o, cfg, all) && IsTop(all, rs, o.limit);
      var lists :| ExpandedBy(db, user, query, ranked, o, cfg, all, lists);
      ChainStaysPlain(db, user, query, o, cfg, lists, o.hops);
    }
    forall i | 0 <= i < |rs|
      ensures rs[i].id in db.mem && PlainlyFindable(db.mem[rs[i].id], user, o)
    {
      assert rs[i] in all;
      var j :| 0 <= j < |all| && all[j] == rs[i];
    }
  }

  // Some list holds exactly these memories as direct hits.
  lemma {:induction false} ListOf(db: Db, query: seq<real>, o: Options, cfg: Config, ids: set<Id>) returns (pool: seq<Ranked>)
    requires ids <= db.mem.Keys
    ensures DistinctIds(pool) && IdSet(pool) == ids
    ensures forall i :: 0 <= i < |pool| ==>
      pool[i].id in db.mem && pool[i].source == Direct && pool[i].score == Composite(db.mem[pool[i].id], query, o.now, cfg)
    decreases ids
  {
    if ids == {} {
      pool := [];
    } else {
      var id :| id in ids;
      var rest := ListOf(db, query, o, cfg, ids - {id});
      var x := Ranked(id, Composite(db.mem[id], query, o.now, cfg), Direct);
      pool := rest + [x];
      ListedLast(rest, x);
    }
  }

  lemma ListedLast(s: seq<Ranked>, x: Ranked)
    requires DistinctIds(s) && x.id !in IdSet(s)
    ensures DistinctIds(s + [x]) && IdSet(s + [x]) == IdSet(s) + {x.id}
  {
    var t := s + [x];
    assert t[|s|].id == x.id;
    assert forall i :: 0 <= i < |s| ==> t[i] == s[i] && s[i].id in IdSet(s);
  }

  // Some list is what one hop makes of another, as far as these ids go.
  lemma {:induction false} HopOf(db: Db, user: string, query: seq<real>, sources: seq<Id>, o: Options, cfg: Config,
                                 before: seq<Ranked>, ids: set<Id>) returns (after: seq<Ranked>)
    requires cfg.tauDays != 0.0 && DistinctIds(before)
    ensures before <= after && DistinctIds(after)
    ensures forall i :: |before| <= i < |after| ==> NewHit(db, user, query, sources, o, cfg, after[i])
    ensures forall x: Linked :: x.id in ids && Admitted(db, user, query, sources, o, cfg, x) ==> x.id in IdSet(after)
    decreases ids
  {
    if ids == {} {
      after := before;
    } else {
      var id :| id in ids;
      after := HopOf(db, user, query, sources, o, cfg, before, ids - {id});
      if id !in IdSet(after) && exists x: Linked :: x.id == id && Admitted(db, user, query, sources, o, cfg, x) {
        var x: Linked :| x.id == id && Admitted(db, user, query, sources, o, cfg, x);
        var r := Ranked(id, HopScore(db.mem[id], query, x, o, cfg), GraphExpanded);
        assert HitOf(db, user, query, sources, o, cfg, r, x);
        ListedLast(after, r);
        after := after + [r];
      }
    }
  }

  lemma WholeHop(db: Db, user: string, query: seq<real>, sources: seq<Id>, o: Options, cfg: Config, before: seq<Ranked>)
    returns (after: seq<Ranked>)
    requires cfg.tauDays != 0.0 && DistinctIds(before)
    ensures HopResult(db, user, query, sources, o, cfg, before, after)
  {
    after := HopOf(db, user, query, sources, o, cfg, before, db.mem.Keys);
  }

  // An expansion by one hop.
  lemma OneHop(db: Db, user: string, query: seq<real>, ranked: seq<Ranked>, o: Options, cfg: Config, all: seq<Ranked>)
    requires cfg.tauDays != 0.0 && o.hops == 1
    requires HopResult(db, user, query, TopIds(ranked, o.limit), o, cfg, ranked, all)
    ensures ExpandedFrom(db, user, query, ranked, o, cfg, all)
  {
    var lists := [ranked, all];
    assert HopAt(db, user, query, o, cfg, lists, 0);
    assert ExpandedBy(db, user, query, ranked, o, cfg, all, lists);
    var tops := TopIds(ranked, o.limit);
    StartFrontier(db.assoc, o.minWeight, tops);
    HopKeepsJoined(db, user, query, Elems(tops), tops, o, cfg, 0, ranked, ranked, all);
  }

  // A search with room for all rows follows a link that is still strong, and with no least weight any link.
  lemma LinkedIsShown(db: Db, user: string, query: seq<real>, o: Options, cfg: Config, a: Id, b: Id)
    returns (dense: seq<Ranked>, rs: seq<Ranked>, i: nat)
    requires GoodExp(cfg.exp) && cfg.tauDays > 0.0 && SoundLinks(db)
    requires o.limit > |db.mem| && o.hops == 1 && !o.deepRecall && !o.hybrid
    requires Leads(db, user, query, o, a, b) && (o.minWeight == 0.0 || LiveLink(db, user, query, o, cfg, a, b))
    ensures Descending(dense) && Answered(db, user, query, o, cfg, dense, dense, rs)
    ensures i < |rs| && rs[i].id == b
  {
    var pool := ListOf(db, query, o, cfg, CandidateIds(db, user, o));
    dense := SortDesc(pool);
    SortedPool(db, user, query, o, cfg, pool);
    var tops := TopIds(dense, o.limit);
    var all := WholeHop(db, user, query, tops, o, cfg, dense);
    assert a in CandidateIds(db, user, o) && a in IdSet(dense);
    SourceIsExpanded(db, dense, o, a);
    LinkCounts(db, user, query, o, cfg, tops, dense, all, a, b);
    OneHop(db, user, query, dense, o, cfg, all);
    TruncatedSortIsTop(all, o.limit);
    rs := Truncate(SortDesc(all), o.limit);
    i := EverythingFits(db, user, query, o, cfg, tops, dense, all, rs, b);
  }

  lemma KnownIdsFit(db: Db, s: seq<Ranked>)
    requires DistinctIds(s) && forall i :: 0 <= i < |s| ==> s[i].id in db.mem
    ensures |s| <= |db.mem|
  {
    DistinctIdCount(s);
    assert IdSet(s) <= db.mem.Keys;
    SubsetCount(IdSet(s), db.mem.Keys);
  }

  lemma SourceIsExpanded(db: Db, dense: seq<Ranked>, o: Options, a: Id)
    requires DistinctIds(dense) && (forall i :: 0 <= i < |dense| ==> dense[i].id in db.mem) && o.limit > |db.mem| && a in IdSet(dense)
    ensures a in Elems(TopIds(dense, o.limit))
  {
    KnownIdsFit(db, dense);
    var j :| 0 <= j < |dense| && dense[j].id == a;
    TopsAreExpanded(dense, o.limit, a);
  }

  lemma LinkCounts(db: Db, user: string, query: seq<real>, o: Options, cfg: Config, tops: seq<Id>,
                      before: seq<Ranked>, after: seq<Ranked>, a: Id, b: Id)
    requires GoodExp(cfg.exp) && cfg.tauDays > 0.0 && SoundLinks(db)
    requires HopResult(db, user, query, tops, o, cfg, before, after) && a in Elems(tops)
    requires Leads(db, user, query, o, a, b) && (o.minWeight == 0.0 || LiveLink(db, user, query, o, cfg, a, b))
    ensures b in IdSet(after)
  {
    if LiveLink(db, user, query, o, cfg, a, b) {
      LinkBringsIn(db, user, query, o, cfg, tops, before, after, a, b);
      return;
    }
    assert Strong(db.assoc, 0.0, a, b);
    var x := CollapseExists(db.assoc, tops, 0.0, b);
    if x.last.Some? {
      EdgeDecayIsMonotone(x.weight, x.last.value, x.weight, x.last.value, o.now, cfg);
    }
    assert Admitted(db, user, query, tops, o, cfg, x);
  }

  lemma EverythingFits(db: Db, user: string, query: seq<real>, o: Options, cfg: Config, tops: seq<Id>,
                       dense: seq<Ranked>, all: seq<Ranked>, rs: seq<Ranked>, b: Id) returns (i: nat)
    requires cfg.tauDays != 0.0 && HopResult(db, user, query, tops, o, cfg, dense, all) && o.limit > |db.mem|
    requires forall i :: 0 <= i < |dense| ==> dense[i].id in db.mem
    requires IsTop(all, rs, o.limit) && b in IdSet(all)
    ensures i < |rs| && rs[i].id == b
  {
    forall j | 0 <= j < |all|
      ensures all[j].id in db.mem
    {
      if j < |dense| {
        assert all[j] == dense[j];
      } else {
        assert NewHit(db, user, query, tops, o, cfg, all[j]);
      }
    }
    KnownIdsFit(db, all);
    var x := EntryOf(all, b);
    if x !in rs {
      LeftOut(all, rs, o.limit, x);
      assert false;
    }
    i :| 0 <= i < |rs| && rs[i] == x;
  }

  /**
    A plain search, with whatever limit, hops and least weight, never shows a superseded, cold, archived or
    untimely memory, if and only if no stored link leads to one of the user's from a memory that plain
    searches return; or every search with this query fails.
   */
  lemma PlainSearchesStayPlainIff(db: Db, user: string, query: seq<real>, provider: string, model: string, now: int, cfg: Config)
    requires GoodExp(cfg.exp) && cfg.tauDays > 0.0 && SoundLinks(db)
    ensures var o := Asking(0, provider, model, now, 0);
            StaysPlain(db, user, query, provider, model, now, cfg) <==>
              query == [] || Mismatched(db, user, query, o) || Tight(db, user, query, o)
  {
    var o0 := Asking(0, provider, model, now, 0);
    if query != [] && !Mismatched(db, user, query, o0) && !Tight(db, user, query, o0) {
      var a, b :| Leads(db, user, query, o0, a, b);
      var o := Asking(|db.mem| + 1, provider, model, now, 1);
      SameQuestion(db, user, query, o0, o);
      assert Leads(db, user, query, o, a, b);
      var dense, rs, i := LinkedIsShown(db, user, query, o, cfg, a, b);
      assert Succeeds(db, user, query, o, cfg, dense, dense, rs);
      assert !PlainlyFindable(db.mem[rs[i].id], user, o);
    }
    if query == [] || Mismatched(db, user, query, o0) || Tight(db, user, query, o0) {
      forall o: Options, dense, ranked, rs: seq<Ranked>, i
        | PlainAt(o, provider, model, now) && Succeeds(db, user, query, o, cfg, dense, ranked, rs) && 0 <= i < |rs|
        ensures rs[i].id in db.mem && PlainlyFindable(db.mem[rs[i].id], user, o)
      {
        SameQuestion(db, user, query, o0, o);
        TightStaysPlain(db, user, query, o, cfg, dense, ranked, rs);
      }
    }
  }

  // The filters read the provider, the model and the instant only.
  lemma SameQuestion(db: Db, user: string, query: seq<real>, o: Options, o': Options)
    requires !o.deepRecall && PlainAt(o', o.provider, o.model, o.now)
    ensures forall r :: PlainlyFindable(r, user, o) <==> PlainlyFindable(r, user, o')
    ensures Mismatched(db, user, query, o) <==> Mismatched(db, user, query, o')
    ensures Tight(db, user, query, o) <==> Tight(db, user, query, o')
  {
    assert CandidateIds(db, user, o) == CandidateIds(db, user, o');
    assert forall a, b :: Leads(db, user, query, o, a, b) <==> Leads(db, user, query, o', a, b);
  }

  // Two linked memories of one user, the second in the archive, and a search of the daemon with one hop.
  const ARCHIVED: Row := Y.ROW.(isCold := true, coldSince := Some(0))
  const PLAIN_SEARCH: Options := Options(10, false, "local", "m", 0, false, true, [], 1, 0.3)

  lemma ArchivedIsShown(db: Db, cfg: Config) returns (dense: seq<Ranked>, rs: seq<Ranked>, i: nat)
    requires GoodExp(cfg.exp) && cfg.tauDays > 0.0 && SoundLinks(db)
    requires db.mem == map[0 := Y.ROW, 1 := ARCHIVED] && (0, 1) in db.assoc && db.assoc[(0, 1)] == Edge(0.5, Some(0))
    ensures Succeeds(db, "u", [1.0], PLAIN_SEARCH, cfg, dense, dense, rs) && i < |rs| && rs[i].id == 1
  {
    assert DaysSince(0, 0) == 0.0 && -0.0 / cfg.tauDays == 0.0;
    assert LiveLink(db, "u", [1.0], PLAIN_SEARCH, cfg, 0, 1);
    assert Leads(db, "u", [1.0], PLAIN_SEARCH, 0, 1);
    assert db.mem.Keys == {0, 1};
    dense, rs, i := LinkedIsShown(db, "u", [1.0], PLAIN_SEARCH, cfg, 0, 1);
  }

  lemma EditSecond(db: Db, r: Row, f: Row -> Row)
    requires db.mem == map[0 := r, 1 := r] && r.user == "u"
    ensures EditOwned(db, "u", 1, f) == db.(mem := map[0 := r, 1 := f(r)])
  {
  }

  lemma ArchivingOne(db: Db, cfg: Config)
    requires cfg.intervalDays != 0.0 && db == Y.Pair(0.5, 0.5, map[])
    ensures ApplyRequest(db, MigrateToCold("u", 1, 0), cfg) == db.(mem := map[0 := Y.ROW, 1 := ARCHIVED])
  {
    EditSecond(db, Y.ROW, Cooling(0));
  }

  lemma ArchivedRun(cfg: Config) returns (states: seq<Db>, reqs: seq<Request>)
    requires cfg.intervalDays != 0.0
    ensures Run(states, reqs, cfg) && reqs == [Y.BATCH, MigrateToCold("u", 1, 0)]
    ensures states[2] == Y.Pair(0.5, 0.5, map[]).(mem := map[0 := Y.ROW, 1 := ARCHIVED]) && SoundLinks(states[2])
  {
    states, reqs := Y.StartedPair(cfg);
    var after := ApplyRequest(states[1], MigrateToCold("u", 1, 0), cfg);
    ArchivingOne(states[1], cfg);
    states, reqs := R.Continued(states, reqs, MigrateToCold("u", 1, 0), after, cfg);
    R.TablesStaySound(states, reqs, cfg, 2);
  }

  /** A run of two requests, from the empty tables, after which a plain search shows an archived memory. */
  lemma ArchivedMemoriesComeBack(cfg: Config)
    returns (states: seq<Db>, reqs: seq<Request>, dense: seq<Ranked>, rs: seq<Ranked>, i: nat)
    requires cfg.intervalDays != 0.0 && GoodExp(cfg.exp) && cfg.tauDays > 0.0
    ensures Run(states, reqs, cfg) && reqs == [Y.BATCH, MigrateToCold("u", 1, 0)]
    ensures Succeeds(states[2], "u", [1.0], PLAIN_SEARCH, cfg, dense, dense, rs)
    ensures i < |rs| && rs[i].id in states[2].mem && states[2].mem[rs[i].id].isCold
  {
    states, reqs := ArchivedRun(cfg);
    dense, rs, i := ArchivedIsShown(states[2], cfg);
  }
}
