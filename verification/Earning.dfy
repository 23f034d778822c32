/** How a memory earns the core tier: retrieval counts, sessions and promotion along every run. */
module Earning {
  import opened Lifecycle
  import opened Tables
  import opened Associations
  import opened Ingest
  import opened Retrieval
  import opened Tick
  import opened Requests
  import opened Steps
  import opened Effects
  import C = Conflicts
  import R = Runs
  import S = Consolidation

  // The search of this request returned the memory, and it was no stub.
  predicate Returned(db: Db, req: Request, id: Id) {
    req.Search? && id in db.mem && !db.mem[id].isStub && exists i :: 0 <= i < |req.results| && req.results[i].id == id
  }

  // How many searches of the first `n` requests returned the memory.
  ghost function Returns(states: seq<Db>, reqs: seq<Request>, id: Id, n: nat): nat
    requires n <= |reqs| < |states|
  {
    if n == 0 then 0 else Returns(states, reqs, id, n - 1) + if Returned(states[n - 1], reqs[n - 1], id) then 1 else 0
  }

  // The row keeps its counts, and becomes core only by a client's hand.
  ghost predicate Unearned(r: Row, r': Row, given: bool) {
    r'.retrievalCount == r.retrievalCount && r'.sessions == r.sessions && (r'.category == "core" && !given ==> r.category == "core")
  }

  // The client writes a category.
  predicate Gives(req: Request) {
    req.Update?
  }

  lemma UnreturnedBySearch(db: Db, req: Request, cfg: Config, id: Id)
    requires cfg.intervalDays != 0.0 && req.Search? && Legal(db, req) && id in db.mem && !Returned(db, req, id)
    ensures id in ApplyRequest(db, req, cfg).mem && Unearned(db.mem[id], ApplyRequest(db, req, cfg).mem[id], false)
  {
    if req.results != [] {
      var mid := Restored(db, req.user, req.results, req.deepRecall);
      RestoredTold(db, req.user, req.results, req.deepRecall, id);
      StrengthenedTold(mid, req.user, req.results, req.now, cfg, id);
      if id in IdsOf(req.results) {
        var i :| 0 <= i < |IdsOf(req.results)| && IdsOf(req.results)[i] == id;
        assert req.results[i].id == id;
      }
    }
  }

  lemma EditsAreUnearned(db: Db, req: Request, cfg: Config, id: Id)
    requires cfg.intervalDays != 0.0 && EditsRows(req) && id in db.mem
    ensures id in ApplyRequest(db, req, cfg).mem && Unearned(db.mem[id], ApplyRequest(db, req, cfg).mem[id], Gives(req))
  {
    if req.BatchUpdate? {
      FloorsAreTold(db, req.user, req.floors, id);
    }
  }

  lemma StoresAreUnearned(db: Db, req: Request, cfg: Config, id: Id)
    requires cfg.intervalDays != 0.0 && (req.Store? || req.StoreBatch?) && id in db.mem && id < db.nextId
    ensures id in ApplyRequest(db, req, cfg).mem && Unearned(db.mem[id], ApplyRequest(db, req, cfg).mem[id], false)
  {
    match req
    case Store(user, content, category, importance, vector, stamp, hits) =>
      DispatchRows(Insert(db, StoredRow(user, content, category, importance, vector, stamp.provider, stamp.model, stamp.now)),
                   user, db.nextId, hits);
    case StoreBatch(user, entries, weight, stamp) =>
      EntryRows(db, user, entries, stamp.provider, stamp.model, stamp.now);
      LinkPairsKeeps(InsertEntries(db, user, entries, stamp.provider, stamp.model, stamp.now),
                     PairsOf(Consecutive(db.nextId, |entries|)), weight, stamp.now);
  }

  lemma TickRowIsUnearned(r: Row, r3: Row, r4: Row, now: int, cfg: Config)
    requires C.ConflictEdit(ExpiredRow(r, now, cfg), r3) && SummaryEdit(r3, r4, now, cfg)
    ensures Unearned(r, r4, false)
  {
  }

  lemma TickIsUnearned(db: Db, after: Db, log: TickLog, stamp: S.Stamp, cfg: Config, id: Id)
    requires SoundTables(db) && TickStep(db, after, log, stamp, cfg) && id in db.mem
    ensures id in after.mem && Unearned(db.mem[id], after.mem[id], false)
  {
    TickPasses(db, after, log, stamp, cfg);
    EarlyPassesEdit(db, stamp.now, cfg);
    TickRowIsUnearned(db.mem[id], AfterConflicts(db, stamp.now, log, cfg).mem[id], after.mem[id], stamp.now, cfg);
  }

  lemma RestIsUnearned(db: Db, req: Request, cfg: Config, id: Id)
    requires req.Delete? || req.Clear? || req.Link? || req.Unlink? || req.LinkRead? || req.LinkWrite?
    requires cfg.intervalDays != 0.0 && id in db.mem && id in ApplyRequest(db, req, cfg).mem
    ensures ApplyRequest(db, req, cfg).mem[id] == db.mem[id]
  {
  }

  lemma RequestIsUnearned(db: Db, req: Request, cfg: Config, id: Id)
    requires cfg.intervalDays != 0.0 && !req.Tick? && Legal(db, req)
    requires id in db.mem && id < db.nextId && id in ApplyRequest(db, req, cfg).mem && !Returned(db, req, id)
    ensures Unearned(db.mem[id], ApplyRequest(db, req, cfg).mem[id], Gives(req))
  {
    if req.Search? {
      UnreturnedBySearch(db, req, cfg, id);
    } else if EditsRows(req) {
      EditsAreUnearned(db, req, cfg, id);
    } else if req.Store? || req.StoreBatch? {
      StoresAreUnearned(db, req, cfg, id);
    } else {
      RestIsUnearned(db, req, cfg, id);
    }
  }

  lemma StepIsUnearned(db: Db, req: Request, after: Db, cfg: Config, id: Id)
    requires cfg.intervalDays != 0.0 && SoundTables(db) && Next(db, req, after, cfg)
    requires id in db.mem && id in after.mem && !Returned(db, req, id)
    ensures Unearned(db.mem[id], after.mem[id], Gives(req))
  {
    if req.Tick? {
      TickIsUnearned(db, after, req.log, req.stamp, cfg, id);
    } else {
      RequestIsUnearned(db, req, cfg, id);
    }
  }

  lemma ReturnedStep(states: seq<Db>, reqs: seq<Request>, cfg: Config, n: nat, id: Id)
    requires cfg.intervalDays != 0.0 && Run(states, reqs, cfg) && n < |reqs| && Returned(states[n], reqs[n], id)
    ensures id in states[n + 1].mem
    ensures var (r, r') := (states[n].mem[id], states[n + 1].mem[id]);
            && r'.retrievalCount == r.retrievalCount + 1 && |r'.sessions| == |r.sessions| + 1
            && (r'.category == "core" && r.category != "core" ==>
                  r'.retrievalCount >= cfg.coreAccess && |r'.sessions| >= cfg.coreSessions && r'.stability >= cfg.coreStability)
  {
    var i :| 0 <= i < |reqs[n].results| && reqs[n].results[i].id == id;
    SearchesTouchTheirResults(states, reqs, cfg, n, i);
    var (m, m') := (FullState(states[n].mem[id], cfg), FullState(states[n + 1].mem[id], cfg));
    assert m'.accessCount == m.accessCount + 1 && m'.sessionCount == m.sessionCount + 1;
  }

  lemma NewRowIsUnread(states: seq<Db>, reqs: seq<Request>, cfg: Config, n: nat, id: Id)
    requires cfg.intervalDays != 0.0 && Run(states, reqs, cfg) && n < |reqs| && id !in states[n].mem && id in states[n + 1].mem
    ensures states[n].nextId <= id && states[n + 1].mem[id].retrievalCount == 0 && states[n + 1].mem[id].sessions == []
  {
    R.TablesStaySound(states, reqs, cfg, n);
    assert StepAt(states, reqs, cfg, n);
    var (db, req) := (states[n], reqs[n]);
    if req.Tick? {
      TickPasses(db, states[n + 1], req.log, req.stamp, cfg);
      assert NewSummary(states[n + 1].mem[id]);
    } else if req.Store? {
      R.StoresKeepWhatTheyAreGiven(states, reqs, cfg, n);
    } else if req.StoreBatch? {
      NewEntryIsUnread(states, reqs, cfg, n, id);
    } else {
      NothingIsNew(db, req, cfg, id);
    }
  }

  lemma NothingIsNew(db: Db, req: Request, cfg: Config, id: Id)
    requires cfg.intervalDays != 0.0 && !req.Tick? && !req.Store? && !req.StoreBatch? && id !in db.mem
    ensures id !in ApplyRequest(db, req, cfg).mem
  {
    if req.BatchUpdate? {
      SetFloorsRows(db, req.user, req.floors);
    }
  }

  lemma NewIdIsAnEntry(db: Db, req: Request, cfg: Config, id: Id)
    requires cfg.intervalDays != 0.0 && req.StoreBatch? && id !in db.mem && id in ApplyRequest(db, req, cfg).mem
    ensures db.nextId <= id < db.nextId + |req.entries|
  {
    EntryRows(db, req.user, req.entries, req.stamp.provider, req.stamp.model, req.stamp.now);
    LinkPairsKeeps(InsertEntries(db, req.user, req.entries, req.stamp.provider, req.stamp.model, req.stamp.now),
                   PairsOf(Consecutive(db.nextId, |req.entries|)), req.weight, req.stamp.now);
  }

  lemma NewEntryIsUnread(states: seq<Db>, reqs: seq<Request>, cfg: Config, n: nat, id: Id)
    requires cfg.intervalDays != 0.0 && Run(states, reqs, cfg) && n < |reqs| && reqs[n].StoreBatch?
    requires id !in states[n].mem && id in states[n + 1].mem
    ensures states[n].nextId <= id && states[n + 1].mem[id].retrievalCount == 0 && states[n + 1].mem[id].sessions == []
  {
    assert StepAt(states, reqs, cfg, n);
    NewIdIsAnEntry(states[n], reqs[n], cfg, id);
    BatchesKeepWhatTheyAreGiven(states, reqs, cfg, n, id - states[n].nextId);
  }

  lemma {:induction false} NoReturnsBeforeBirth(states: seq<Db>, reqs: seq<Request>, cfg: Config, n: nat, id: Id)
    requires cfg.intervalDays != 0.0 && Run(states, reqs, cfg) && n < |states| && states[n].nextId <= id
    ensures Returns(states, reqs, id, n) == 0
  {
    if n > 0 {
      R.TablesStaySound(states, reqs, cfg, n - 1);
      R.StepKeepsTablesIn(states, reqs, cfg, n - 1);
      NoReturnsBeforeBirth(states, reqs, cfg, n - 1, id);
    }
  }

  /** In every run a memory counts, and has as many sessions as, the searches that returned it while it was no stub. */
  lemma {:induction false} ReadsAreCounted(states: seq<Db>, reqs: seq<Request>, cfg: Config, n: nat, id: Id)
    requires cfg.intervalDays != 0.0 && Run(states, reqs, cfg) && n < |states| && id in states[n].mem
    ensures states[n].mem[id].retrievalCount == |states[n].mem[id].sessions| == Returns(states, reqs, id, n)
  {
    if n > 0 {
      if id in states[n - 1].mem {
        ReadsAreCounted(states, reqs, cfg, n - 1, id);
        CountsStep(states, reqs, cfg, n - 1, id);
      } else {
        NewRowIsUnread(states, reqs, cfg, n - 1, id);
        NoReturnsBeforeBirth(states, reqs, cfg, n - 1, id);
      }
    }
  }

  lemma CountsStep(states: seq<Db>, reqs: seq<Request>, cfg: Config, n: nat, id: Id)
    requires cfg.intervalDays != 0.0 && Run(states, reqs, cfg) && n < |reqs| && id in states[n].mem && id in states[n + 1].mem
    ensures var (r, r') := (states[n].mem[id], states[n + 1].mem[id]);
            if Returned(states[n], reqs[n], id) then
              && r'.retrievalCount == r.retrievalCount + 1 && |r'.sessions| == |r.sessions| + 1
              && (r'.category == "core" && r.category != "core" ==>
                    r'.retrievalCount >= cfg.coreAccess && |r'.sessions| >= cfg.coreSessions && r'.stability >= cfg.coreStability)
            else Unearned(r, r', Gives(reqs[n]))
  {
    if Returned(states[n], reqs[n], id) {
      ReturnedStep(states, reqs, cfg, n, id);
    } else {
      R.TablesStaySound(states, reqs, cfg, n);
      assert StepAt(states, reqs, cfg, n);
      StepIsUnearned(states[n], reqs[n], states[n + 1], cfg, id);
    }
  }

  // One of the first `n` requests made the memory core otherwise: it was stored as core, summed up core memories,
  // or a client's Update wrote its category.
  ghost predicate MadeCore(states: seq<Db>, reqs: seq<Request>, id: Id, n: nat)
    requires n <= |reqs| < |states|
  {
    exists i :: 0 <= i < n && CoreAt(states, reqs, id, i)
  }

  ghost predicate CoreAt(states: seq<Db>, reqs: seq<Request>, id: Id, i: nat)
    requires i < |reqs| < |states|
  {
    && id in states[i + 1].mem && states[i + 1].mem[id].category == "core"
    && (id !in states[i].mem || (reqs[i].Update? && reqs[i].id == id))
  }

  lemma OnlyUpdatesGive(states: seq<Db>, reqs: seq<Request>, cfg: Config, n: nat, id: Id)
    requires cfg.intervalDays != 0.0 && Run(states, reqs, cfg) && n < |reqs| && reqs[n].Update? && reqs[n].id != id
    requires id in states[n].mem && id in states[n + 1].mem
    ensures states[n + 1].mem[id] == states[n].mem[id]
  {
    EditsWriteWhatTheyName(states, reqs, cfg, n);
  }

  /**
    In every run a core memory was made core by its author or a client, or has earned it: at least as many
    searches as both thresholds ask for have returned it.
   */
  lemma {:induction false} CoreIsEarned(states: seq<Db>, reqs: seq<Request>, cfg: Config, n: nat, id: Id)
    requires cfg.intervalDays != 0.0 && Run(states, reqs, cfg) && n < |states|
    requires id in states[n].mem && states[n].mem[id].category == "core"
    ensures MadeCore(states, reqs, id, n)
            || (Returns(states, reqs, id, n) >= cfg.coreAccess && Returns(states, reqs, id, n) >= cfg.coreSessions)
  {
    if n > 0 {
      if id !in states[n - 1].mem || (reqs[n - 1].Update? && reqs[n - 1].id == id) {
        assert CoreAt(states, reqs, id, n - 1);
      } else {
        CountsStep(states, reqs, cfg, n - 1, id);
        ReadsAreCounted(states, reqs, cfg, n, id);
        if reqs[n - 1].Update? {
          OnlyUpdatesGive(states, reqs, cfg, n - 1, id);
        }
        if states[n - 1].mem[id].category == "core" {
          CoreIsEarned(states, reqs, cfg, n - 1, id);
          if MadeCore(states, reqs, id, n - 1) {
            var i :| 0 <= i < n - 1 && CoreAt(states, reqs, id, i);
            assert CoreAt(states, reqs, id, i);
          }
        }
      }
    }
  }
}
