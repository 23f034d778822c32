/** Tenancy of the association graph: when every link stays within one user, over every run. */
module Tenancy {
  import opened Lifecycle
  import opened Tables
  import opened Hits
  import opened Associations
  import opened Ingest
  import opened Retrieval
  import opened Tick
  import opened Requests
  import opened Steps
  import C = Conflicts
  import S = Consolidation
  import P = Compression
  import R = Runs

  predicate OneUser(db: Db, a: Id, b: Id) {
    a in db.mem && b in db.mem && db.mem[a].user == db.mem[b].user
  }

  ghost predicate Tenanted(db: Db) {
    forall a, b :: (a, b) in db.assoc ==> OneUser(db, a, b)
  }

  predicate Foreign(db: Db, a: Id, b: Id) {
    a in db.mem && b in db.mem && db.mem[a].user != db.mem[b].user
  }

  // The request writes a link between memories of two users; the handler does not compare them.
  predicate Crosses(db: Db, req: Request) {
    match req
    case Link(a, b, _, _, _) => Foreign(db, a, b)
    case LinkWrite(task, _, _) => task in db.pending && Foreign(db, db.pending[task].source, db.pending[task].target)
    case _ => false
  }

  ghost predicate UsersKept(db: Db, after: Db) {
    forall id :: id in db.mem && id in after.mem ==> after.mem[id].user == db.mem[id].user
  }

  // Links that are not old join two memories of one user.
  ghost predicate NewLinksWithin(db: Db, after: Db) {
    forall a, b :: (a, b) in after.assoc ==> (a, b) in db.assoc || OneUser(after, a, b)
  }

  lemma StaysTenanted(db: Db, after: Db)
    requires Tenanted(db) && UsersKept(db, after) && NewLinksWithin(db, after) && LinksAttached(after)
    ensures Tenanted(after)
  {
    forall a, b | (a, b) in after.assoc
      ensures OneUser(after, a, b)
    {
      if (a, b) in db.assoc {
        assert OneUser(db, a, b);
        assert (a, b).0 in after.mem && (a, b).1 in after.mem;
      }
    }
  }

  // -------------------------------------------------------------------------
  // Which links each request writes
  // -------------------------------------------------------------------------

  ghost predicate Among(pairs: seq<(Id, Id)>, a: Id, b: Id) {
    (a, b) in pairs || (b, a) in pairs
  }

  lemma {:induction false} StrengthenedLinks(assoc: Links, pairs: seq<(Id, Id)>, amount: real, now: int, a: Id, b: Id)
    requires (a, b) in StrengthenAll(assoc, pairs, amount, now)
    ensures (a, b) in assoc || Among(pairs, a, b)
  {
    if pairs != [] {
      var last := pairs[|pairs| - 1];
      assert last in pairs && last == (last.0, last.1);
      if (a, b) in StrengthenAll(assoc, pairs[..|pairs| - 1], amount, now) {
        StrengthenedLinks(assoc, pairs[..|pairs| - 1], amount, now, a, b);
      }
    }
  }

  lemma {:induction false} PairedLinks(db: Db, pairs: seq<(Id, Id)>, bump: real, now: int, a: Id, b: Id)
    requires (a, b) in LinkPairs(db, pairs, bump, now).assoc
    ensures (a, b) in db.assoc || Among(pairs, a, b)
  {
    if pairs != [] {
      var last := pairs[|pairs| - 1];
      assert last in pairs && last == (last.0, last.1);
      if (a, b) in LinkPairs(db, pairs[..|pairs| - 1], bump, now).assoc {
        PairedLinks(db, pairs[..|pairs| - 1], bump, now, a, b);
      }
    }
  }

  lemma {:induction false} DispatchedLinks(db: Db, user: string, newId: Id, hits: seq<Ranked>, a: Id, b: Id)
    requires (a, b) in DispatchAll(db, user, newId, hits).assoc
    requires Owns(db, user, newId) && forall h :: h in hits ==> Owns(db, user, h.id)
    ensures (a, b) in db.assoc || (Owns(db, user, a) && Owns(db, user, b))
  {
    if hits != [] {
      var (front, h) := (hits[..|hits| - 1], hits[|hits| - 1]);
      assert h in hits;
      if (a, b) in DispatchAll(db, user, newId, front).assoc {
        DispatchedLinks(db, user, newId, front, a, b);
      } else {
        NewTag(DispatchAll(db, user, newId, front), user, newId, h, a, b);
      }
    }
  }

  lemma NewTag(db: Db, user: string, newId: Id, h: Ranked, a: Id, b: Id)
    requires (a, b) in DispatchHit(db, user, newId, h).assoc && (a, b) !in db.assoc
    ensures (a, b) == (newId, h.id) || (a, b) == (h.id, newId)
  {
  }

  lemma StoreWritesWithin(db: Db, req: Request, cfg: Config)
    requires cfg.intervalDays != 0.0 && req.Store? && P.Bounded(db) && Legal(db, req)
    ensures NewLinksWithin(db, ApplyRequest(db, req, cfg))
  {
    var Store(user, content, category, importance, vector, stamp, hits) := req;
    var row := StoredRow(user, content, category, importance, vector, stamp.provider, stamp.model, stamp.now);
    var (mid, after) := (Insert(db, row), StoreMemory(db, row, hits));
    DispatchRows(mid, user, db.nextId, hits);
    forall a, b | (a, b) in after.assoc && (a, b) !in db.assoc
      ensures OneUser(after, a, b)
    {
      DispatchedLinks(mid, user, db.nextId, hits, a, b);
    }
  }

  lemma BatchWritesWithin(db: Db, req: Request, cfg: Config)
    requires cfg.intervalDays != 0.0 && req.StoreBatch?
    ensures NewLinksWithin(db, ApplyRequest(db, req, cfg))
  {
    var StoreBatch(user, entries, weight, stamp) := req;
    var ids := Consecutive(db.nextId, |entries|);
    var mid := InsertEntries(db, user, entries, stamp.provider, stamp.model, stamp.now);
    var after := LinkPairs(mid, PairsOf(ids), weight, stamp.now);
    EntryRows(db, user, entries, stamp.provider, stamp.model, stamp.now);
    LinkPairsKeeps(mid, PairsOf(ids), weight, stamp.now);
    PairsAreDrawnFrom(ids);
    forall a, b | (a, b) in after.assoc && (a, b) !in db.assoc
      ensures OneUser(after, a, b)
    {
      PairedLinks(mid, PairsOf(ids), weight, stamp.now, a, b);
      assert a in ids && b in ids;
    }
  }

  lemma SearchWritesWithin(db: Db, req: Request, cfg: Config)
    requires cfg.intervalDays != 0.0 && req.Search? && SoundTables(db) && Legal(db, req)
    ensures NewLinksWithin(db, ApplyRequest(db, req, cfg))
  {
    var after := ApplyRequest(db, req, cfg);
    var ids := TopTen(IdsOf(req.results));
    SearchStep(db, req, cfg);
    SearchKeepsTables(db, req, cfg);
    PairsAreDrawnFrom(ids);
    forall a, b | (a, b) in after.assoc && (a, b) !in db.assoc
      ensures OneUser(after, a, b)
    {
      StrengthenedLinks(db.assoc, PairsOf(ids), ASSOCIATION_STRENGTHEN_AMOUNT, req.now, a, b);
      assert a in ids && b in ids;
      ResultIsOwned(db, req, a);
      ResultIsOwned(db, req, b);
      assert (a, b).0 in after.mem && (a, b).1 in after.mem;
    }
  }

  lemma ResultIsOwned(db: Db, req: Request, id: Id)
    requires req.Search? && Legal(db, req) && id in TopTen(IdsOf(req.results))
    ensures Owns(db, req.user, id)
  {
    var i :| 0 <= i < |req.results| && req.results[i].id == id;
  }

  lemma LinksWriteWithin(db: Db, req: Request, cfg: Config)
    requires cfg.intervalDays != 0.0 && !Crosses(db, req)
    requires req.Link? || req.Unlink? || req.LinkRead? || req.LinkWrite?
    ensures NewLinksWithin(db, ApplyRequest(db, req, cfg))
  {
  }

  lemma RequestWritesWithin(db: Db, req: Request, cfg: Config)
    requires cfg.intervalDays != 0.0 && SoundTables(db) && Legal(db, req) && !req.Tick? && !Crosses(db, req)
    ensures NewLinksWithin(db, ApplyRequest(db, req, cfg))
  {
    if req.Store? {
      StoreWritesWithin(db, req, cfg);
    } else if req.StoreBatch? {
      BatchWritesWithin(db, req, cfg);
    } else if req.Search? {
      SearchWritesWithin(db, req, cfg);
    } else if req.Link? || req.Unlink? || req.LinkRead? || req.LinkWrite? {
      LinksWriteWithin(db, req, cfg);
    } else if EditsRows(req) {
      EditsKeepTables(db, req, cfg);
    }
  }

  // -------------------------------------------------------------------------
  // Steps and runs
  // -------------------------------------------------------------------------

  lemma UserThroughTick(r: Row, r2: Row, r3: Row, r4: Row, now: int, cfg: Config)
    requires TierEdit(r, r2) && C.ConflictEdit(r2, r3) && SummaryEdit(r3, r4, now, cfg)
    ensures r4.user == r.user
  {
  }

  lemma TickKeepsUsersAndLinks(db: Db, after: Db, log: TickLog, stamp: S.Stamp, cfg: Config)
    requires SoundTables(db) && TickStep(db, after, log, stamp, cfg)
    ensures UsersKept(db, after) && after.assoc == db.assoc
  {
    var (d2, d3) := (AfterExpiry(db, stamp.now, cfg), AfterConflicts(db, stamp.now, log, cfg));
    TickPasses(db, after, log, stamp, cfg);
    forall id | id in db.mem && id in after.mem
      ensures after.mem[id].user == db.mem[id].user
    {
      UserThroughTick(db.mem[id], d2.mem[id], d3.mem[id], after.mem[id], stamp.now, cfg);
    }
  }

  lemma CrossingBreaks(db: Db, req: Request, cfg: Config)
    requires cfg.intervalDays != 0.0 && Crosses(db, req)
    ensures !Tenanted(ApplyRequest(db, req, cfg))
  {
    var after := ApplyRequest(db, req, cfg);
    var (a, b) := if req.Link? then (req.source, req.target) else (db.pending[req.task].source, db.pending[req.task].target);
    assert (a, b) in after.assoc && !OneUser(after, a, b);
  }

  lemma StepIsTenantedIffNotCrossing(db: Db, req: Request, after: Db, cfg: Config)
    requires cfg.intervalDays != 0.0 && SoundTables(db) && Next(db, req, after, cfg) && Tenanted(db)
    ensures Tenanted(after) <==> !Crosses(db, req)
  {
    R.NextKeepsTables(db, req, after, cfg);
    if Crosses(db, req) {
      CrossingBreaks(db, req, cfg);
    } else {
      if req.Tick? {
        TickKeepsUsersAndLinks(db, after, req.log, req.stamp, cfg);
      } else {
        RequestWritesWithin(db, req, cfg);
        RequestRows(db, req, cfg);
      }
      StaysTenanted(db, after);
    }
  }

  ghost predicate TenantedUpTo(states: seq<Db>, n: nat)
    requires n < |states|
  {
    forall i :: 0 <= i <= n ==> Tenanted(states[i])
  }

  ghost predicate NoneCrosses(states: seq<Db>, reqs: seq<Request>, n: nat)
    requires |states| == |reqs| + 1 && n < |states|
  {
    forall i :: 0 <= i < n ==> !Crosses(states[i], reqs[i])
  }

  lemma StepIn(states: seq<Db>, reqs: seq<Request>, cfg: Config, n: nat)
    requires cfg.intervalDays != 0.0 && Run(states, reqs, cfg) && n < |reqs| && SoundTables(states[n]) && Tenanted(states[n])
    ensures Tenanted(states[n + 1]) <==> !Crosses(states[n], reqs[n])
  {
    assert StepAt(states, reqs, cfg, n);
    StepIsTenantedIffNotCrossing(states[n], reqs[n], states[n + 1], cfg);
  }

  /**
    The documentation promises that a memory of one tenant cannot link to a memory of another.  In
    every run that holds throughout if and only if no client Link names memories of two users.
   */
  lemma {:induction false} TenancyIffNoCrossingLink(states: seq<Db>, reqs: seq<Request>, cfg: Config, n: nat)
    requires cfg.intervalDays != 0.0 && Run(states, reqs, cfg) && n < |states|
    ensures TenantedUpTo(states, n) <==> NoneCrosses(states, reqs, n)
  {
    if n > 0 {
      TenancyIffNoCrossingLink(states, reqs, cfg, n - 1);
      if TenantedUpTo(states, n - 1) {
        R.TablesStaySound(states, reqs, cfg, n - 1);
        StepIn(states, reqs, cfg, n - 1);
      }
    }
  }

  /** One Link request between two users' memories is enough to break it. */
  lemma LinkCanCrossUsers(cfg: Config)
    requires cfg.intervalDays != 0.0
    ensures var (mine, yours) := (NewRow("a", "", "semantic", [], "local", "m", 0), NewRow("b", "", "semantic", [], "local", "m", 0));
            var db := Insert(Insert(EMPTY, mine), yours);
            Tenanted(db) && !Tenanted(ApplyRequest(db, Link(0, 1, 0.5, false, 0), cfg))
  {
    var (mine, yours) := (NewRow("a", "", "semantic", [], "local", "m", 0), NewRow("b", "", "semantic", [], "local", "m", 0));
    var db := Insert(Insert(EMPTY, mine), yours);
    assert "a"[0] != "b"[0];
    CrossingBreaks(db, Link(0, 1, 0.5, false, 0), cfg);
  }
}
