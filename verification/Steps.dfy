/** What one request keeps: the step lemmas behind the run theorems. */
module Steps {
  import opened Lifecycle
  import opened Tables
  import opened Hits
  import opened Lineage
  import opened Associations
  import opened Ingest
  import opened Retrieval
  import opened Tick
  import opened Requests
  import C = Conflicts
  import P = Compression
  import S = Consolidation

  // -------------------------------------------------------------------------
  // Row by row
  // -------------------------------------------------------------------------

  // Requests through which a client writes floors or categories.
  predicate SetsFloors(req: Request) {
    req.Update? || req.UpdateRetention? || req.BatchUpdate?
  }

  // The request restores row `id` to hot.
  predicate Restores(db: Db, req: Request, id: Id)
    requires id in db.mem
  {
    match req
    case MigrateToHot(user, i) => i == id && db.mem[id].user == user
    case Get(user, ids) => id in ids && db.mem[id].user == user && db.mem[id].isCold
    case Search(user, results, deepRecall, _) =>
      deepRecall && id in IdsOf(results) && db.mem[id].user == user && db.mem[id].isCold
    case _ => false
  }

  ghost predicate RowStep(r: Row, r': Row, marks: bool, floors: bool, restored: bool) {
    && r'.user == r.user
    && (marks || SameLineage(r, r'))
    && (floors || (FloorByCategory(r) ==> FloorByCategory(r')))
    && r'.daysAtFloor == (if restored then 0 else r.daysAtFloor)
    && (r.isSuperseded ==> r'.isSuperseded) && (r.isStub ==> r'.isStub) && (r.isCold && !restored ==> r'.isCold)
  }

  ghost predicate Born(r: Row) {
    && !r.isSuperseded && r.supersededBy.None? && FloorByCategory(r) && r.daysAtFloor == 0 && r.sessions == []
  }

  ghost predicate BornAfter(db: Db, after: Db, id: Id) {
    id in after.mem && id !in db.mem ==> db.nextId <= id < after.nextId && Born(after.mem[id])
  }

  ghost predicate RowsStep(db: Db, req: Request, after: Db) {
    && db.nextId <= after.nextId
    && (forall id :: BornAfter(db, after, id))
    && (forall id :: id in db.mem && id in after.mem ==>
          RowStep(db.mem[id], after.mem[id], req.MarkSuperseded?, SetsFloors(req), Restores(db, req, id)))
  }

  lemma {:induction false} DispatchRows(db: Db, user: string, newId: Id, hits: seq<Ranked>)
    ensures var after := DispatchAll(db, user, newId, hits);
            && after == db.(mem := after.mem, assoc := after.assoc, queue := after.queue, nextQueue := after.nextQueue)
            && after.mem.Keys == db.mem.Keys
            && forall id :: id in db.mem ==> after.mem[id] == db.mem[id].(stability := after.mem[id].stability)
  {
    if hits != [] {
      DispatchRows(db, user, newId, hits[..|hits| - 1]);
      var mid := DispatchAll(db, user, newId, hits[..|hits| - 1]);
      OneDispatchRows(mid, user, newId, hits[|hits| - 1]);
    }
  }

  lemma OneDispatchRows(db: Db, user: string, newId: Id, h: Ranked)
    ensures var after := DispatchHit(db, user, newId, h);
            && after == db.(mem := after.mem, assoc := after.assoc, queue := after.queue, nextQueue := after.nextQueue)
            && after.mem.Keys == db.mem.Keys
            && forall id :: id in db.mem ==> after.mem[id] == db.mem[id].(stability := after.mem[id].stability)
  {
    var after := DispatchHit(db, user, newId, h);
    if after.mem != db.mem {
      assert after == Reinforce(db, user, h.id);
      ReinforceRows(db, user, h.id);
    }
  }

  lemma ReinforceRows(db: Db, user: string, h: Id)
    ensures var after := Reinforce(db, user, h);
            && after == db.(mem := after.mem)
            && after.mem.Keys == db.mem.Keys
            && forall id :: id in db.mem ==> after.mem[id] == db.mem[id].(stability := after.mem[id].stability)
  {
  }

  lemma StoreRows(db: Db, row: Row, hits: seq<Ranked>, id: Id)
    requires P.Bounded(db) && Born(row)
    ensures var after := StoreMemory(db, row, hits);
            && after.nextId == db.nextId + 1 && BornAfter(db, after, id)
            && (id in db.mem ==> id in after.mem && RowStep(db.mem[id], after.mem[id], false, false, false))
  {
    DispatchRows(Insert(db, row), row.user, db.nextId, hits);
  }

  lemma {:induction false} EntryRows(db: Db, user: string, entries: seq<Entry>, provider: string, model: string, now: int)
    ensures var after := InsertEntries(db, user, entries, provider, model, now);
            && after == db.(mem := after.mem, nextId := db.nextId + |entries|)
            && (forall id :: id in db.mem && id < db.nextId ==> id in after.mem && after.mem[id] == db.mem[id])
            && (forall id :: id in after.mem <==> id in db.mem || db.nextId <= id < after.nextId)
            && (forall id :: db.nextId <= id < after.nextId ==> id in after.mem && Born(after.mem[id]) && after.mem[id].user == user)
  {
    if entries != [] {
      EntryRows(db, user, entries[..|entries| - 1], provider, model, now);
    }
  }

  lemma StrengthenedRowStep(r: Row, source: Source, now: int, session: Session, cfg: Config)
    requires cfg.intervalDays != 0.0
    ensures RowStep(r, StrengthenRow(r, source, now, session, cfg), false, false, false)
  {
  }

  lemma RestoredRowStep(db: Db, user: string, results: seq<Retrieved>, deepRecall: bool, id: Id)
    requires id in db.mem
    ensures var mid := Restored(db, user, results, deepRecall);
            && id in mid.mem
            && RowStep(db.mem[id], mid.mem[id], false, false,
                       deepRecall && id in IdsOf(results) && db.mem[id].user == user && db.mem[id].isCold)
  {
  }

  lemma SearchRow(db: Db, req: Request, id: Id, cfg: Config)
    requires cfg.intervalDays != 0.0 && req.Search? && id in db.mem
    ensures id in ApplyRequest(db, req, cfg).mem
    ensures RowStep(db.mem[id], ApplyRequest(db, req, cfg).mem[id], false, false, Restores(db, req, id))
  {
    SearchWritesRows(db, req, cfg);
    if req.results != [] {
      var mid := Restored(db, req.user, req.results, req.deepRecall);
      var boosted := StrengthenRows(mid, req.user, req.results, req.now, cfg);
      RestoredRowStep(db, req.user, req.results, req.deepRecall, id);
      BoostedRowStep(mid, req.user, req.results, req.now, cfg, id);
      RowStepsCompose(db.mem[id], mid.mem[id], boosted.mem[id], Restores(db, req, id));
    }
  }

  lemma SearchWritesRows(db: Db, req: Request, cfg: Config)
    requires cfg.intervalDays != 0.0 && req.Search?
    ensures ApplyRequest(db, req, cfg).mem ==
      if req.results == [] then db.mem
      else StrengthenRows(Restored(db, req.user, req.results, req.deepRecall), req.user, req.results, req.now, cfg).mem
  {
  }

  lemma BoostedRowStep(db: Db, user: string, results: seq<Retrieved>, now: int, cfg: Config, id: Id)
    requires cfg.intervalDays != 0.0 && id in db.mem
    ensures var after := StrengthenRows(db, user, results, now, cfg);
            id in after.mem && RowStep(db.mem[id], after.mem[id], false, false, false)
  {
    StrengthenedRowStep(db.mem[id], SourceOf(results, id), now, Stored(db.nextSession), cfg);
    StrengthenedAt(db, user, results, now, cfg, id);
  }

  lemma RowStepsCompose(a: Row, b: Row, c: Row, restored: bool)
    requires RowStep(a, b, false, false, restored) && RowStep(b, c, false, false, false)
    ensures RowStep(a, c, false, false, restored)
  {
  }

  lemma StrengthenedAt(db: Db, user: string, results: seq<Retrieved>, now: int, cfg: Config, id: Id)
    requires cfg.intervalDays != 0.0 && id in db.mem
    ensures var after := StrengthenRows(db, user, results, now, cfg);
            && id in after.mem
            && (after.mem[id] == db.mem[id]
                || after.mem[id] == StrengthenRow(db.mem[id], SourceOf(results, id), now, Stored(db.nextSession), cfg))
  {
  }

  lemma SetFloorRow(db: Db, user: string, id: Id, floor: real)
    ensures var after := EditOwned(db, user, id, SettingFloor(floor));
            && after == db.(mem := after.mem) && after.mem.Keys == db.mem.Keys
            && forall i :: i in db.mem ==> after.mem[i] == db.mem[i].(floor := after.mem[i].floor)
  {
  }

  lemma {:induction false} SetFloorsRows(db: Db, user: string, floors: seq<(Id, real)>)
    ensures var after := SetFloors(db, user, floors);
            && after == db.(mem := after.mem) && after.mem.Keys == db.mem.Keys
            && forall id :: id in db.mem ==> after.mem[id] == db.mem[id].(floor := after.mem[id].floor)
  {
    if floors != [] {
      var (front, last) := (floors[..|floors| - 1], floors[|floors| - 1]);
      SetFloorsRows(db, user, front);
      SetFloorRow(SetFloors(db, user, front), user, last.0, last.1);
    }
  }

  lemma BatchRows(db: Db, req: Request, cfg: Config)
    requires cfg.intervalDays != 0.0 && req.StoreBatch? && P.Bounded(db)
    ensures RowsStep(db, req, ApplyRequest(db, req, cfg))
  {
    EntryRows(db, req.user, req.entries, req.stamp.provider, req.stamp.model, req.stamp.now);
    LinkPairsKeeps(InsertEntries(db, req.user, req.entries, req.stamp.provider, req.stamp.model, req.stamp.now),
                   PairsOf(Consecutive(db.nextId, |req.entries|)), req.weight, req.stamp.now);
  }

  predicate EditsRows(req: Request) {
    EditsOne(req) || req.Get? || req.BatchUpdate? || req.MarkSuperseded?
  }

  ghost predicate SessionsKept(db: Db, after: Db) {
    && after == db.(mem := after.mem) && after.mem.Keys == db.mem.Keys
    && (forall id :: id in db.mem ==> after.mem[id].sessions == db.mem[id].sessions && after.mem[id].user == db.mem[id].user)
  }

  ghost predicate EditedRow(db: Db, req: Request, id: Id, r: Row)
    requires id in db.mem
  {
    && r.sessions == db.mem[id].sessions
    && RowStep(db.mem[id], r, req.MarkSuperseded?, SetsFloors(req), Restores(db, req, id))
  }

  // An edit of one owned row, given what it does to that row.
  lemma EditOwnedStep(db: Db, user: string, id: Id, f: Row -> Row, req: Request)
    requires !req.MarkSuperseded?
    requires id in db.mem && db.mem[id].user == user ==>
      && f(db.mem[id]).sessions == db.mem[id].sessions
      && RowStep(db.mem[id], f(db.mem[id]), false, SetsFloors(req), Restores(db, req, id))
    requires forall i :: i in db.mem && !(i == id && db.mem[i].user == user) ==> !Restores(db, req, i)
    ensures SessionsKept(db, EditOwned(db, user, id, f)) && RowsStep(db, req, EditOwned(db, user, id, f))
  {
    EditsInPlace(db, EditOwned(db, user, id, f), req);
  }

  // A table with the same keys, each of whose rows took a step that kept its sessions.
  lemma EditsInPlace(db: Db, after: Db, req: Request)
    requires after == db.(mem := after.mem) && after.mem.Keys == db.mem.Keys
    requires forall id :: id in db.mem ==> EditedRow(db, req, id, after.mem[id])
    ensures SessionsKept(db, after) && RowsStep(db, req, after)
  {
    forall id | id in db.mem
      ensures after.mem[id].sessions == db.mem[id].sessions && after.mem[id].user == db.mem[id].user
      ensures RowStep(db.mem[id], after.mem[id], req.MarkSuperseded?, SetsFloors(req), Restores(db, req, id))
    {
      assert EditedRow(db, req, id, after.mem[id]);
    }
  }

  lemma EditOneRows(db: Db, req: Request, cfg: Config)
    requires cfg.intervalDays != 0.0 && EditsOne(req)
    ensures SessionsKept(db, ApplyRequest(db, req, cfg)) && RowsStep(db, req, ApplyRequest(db, req, cfg))
  {
    match req
    case Update(user, id, changes) => EditOwnedStep(db, user, id, Updating(changes), req);
    case MigrateToCold(user, id, since) => EditOwnedStep(db, user, id, Cooling(since), req);
    case MigrateToHot(user, id) => EditOwnedStep(db, user, id, Heating(), req);
    case ConvertToStub(user, id, text) => EditOwnedStep(db, user, id, Stubbing(text), req);
    case UpdateRetention(user, id, floor) => EditOwnedStep(db, user, id, SettingFloor(floor), req);
  }

  lemma RestoreColdRowsStep(db: Db, req: Request)
    requires req.Get?
    ensures SessionsKept(db, RestoreCold(db, req.user, req.ids)) && RowsStep(db, req, RestoreCold(db, req.user, req.ids))
  {
    var after := RestoreCold(db, req.user, req.ids);
    forall id | id in db.mem
      ensures id in after.mem && EditedRow(db, req, id, after.mem[id])
    {
      RestoredOnGet(db, req, id);
    }
    EditsInPlace(db, after, req);
  }

  lemma RestoredOnGet(db: Db, req: Request, id: Id)
    requires req.Get? && id in db.mem
    ensures id in RestoreCold(db, req.user, req.ids).mem
    ensures EditedRow(db, req, id, RestoreCold(db, req.user, req.ids).mem[id])
  {
  }

  lemma SupersedingRowsStep(db: Db, req: Request)
    requires req.MarkSuperseded?
    ensures var after := Superseding(db, req.user, req.ids, req.summary);
            SessionsKept(db, after) && RowsStep(db, req, after)
  {
  }

  lemma SetFloorsRowsStep(db: Db, req: Request)
    requires req.BatchUpdate?
    ensures SessionsKept(db, SetFloors(db, req.user, req.floors)) && RowsStep(db, req, SetFloors(db, req.user, req.floors))
  {
    SetFloorsRows(db, req.user, req.floors);
  }

  lemma EditRows(db: Db, req: Request, cfg: Config)
    requires cfg.intervalDays != 0.0 && EditsRows(req)
    ensures SessionsKept(db, ApplyRequest(db, req, cfg)) && RowsStep(db, req, ApplyRequest(db, req, cfg))
  {
    if req.BatchUpdate? {
      SetFloorsRowsStep(db, req);
    } else if req.Get? {
      RestoreColdRowsStep(db, req);
    } else if req.MarkSuperseded? {
      SupersedingRowsStep(db, req);
    } else {
      EditOneRows(db, req, cfg);
    }
  }

  lemma LinkRows(db: Db, req: Request, cfg: Config)
    requires cfg.intervalDays != 0.0
    requires req.Link? || req.Unlink? || req.LinkRead? || req.LinkWrite?
    ensures var after := ApplyRequest(db, req, cfg);
            after == db.(assoc := after.assoc, pending := after.pending) && RowsStep(db, req, after)
  {
  }

  lemma StoreStep(db: Db, req: Request, cfg: Config)
    requires cfg.intervalDays != 0.0 && P.Bounded(db) && req.Store?
    ensures RowsStep(db, req, ApplyRequest(db, req, cfg))
  {
    var Store(user, content, category, importance, vector, stamp, hits) := req;
    var row := StoredRow(user, content, category, importance, vector, stamp.provider, stamp.model, stamp.now);
    var after := StoreMemory(db, row, hits);
    forall id
      ensures BornAfter(db, after, id) && db.nextId <= after.nextId
      ensures id in db.mem && id in after.mem ==> RowStep(db.mem[id], after.mem[id], false, false, false)
    {
      StoreRows(db, row, hits, id);
    }
    assert BornAfter(db, after, 0);
  }

  lemma SearchStep(db: Db, req: Request, cfg: Config)
    requires cfg.intervalDays != 0.0 && req.Search?
    ensures RowsStep(db, req, ApplyRequest(db, req, cfg))
  {
    var after := ApplyRequest(db, req, cfg);
    forall id | id in db.mem
      ensures id in after.mem && RowStep(db.mem[id], after.mem[id], false, false, Restores(db, req, id))
    {
      SearchRow(db, req, id, cfg);
    }
  }

  lemma RemovalStep(db: Db, req: Request, cfg: Config)
    requires cfg.intervalDays != 0.0 && (req.Delete? || req.Clear?)
    ensures RowsStep(db, req, ApplyRequest(db, req, cfg))
  {
  }

  /** Every request but the tick treats each row as `RowStep` says. */
  lemma RequestRows(db: Db, req: Request, cfg: Config)
    requires cfg.intervalDays != 0.0 && P.Bounded(db) && !req.Tick?
    ensures RowsStep(db, req, ApplyRequest(db, req, cfg))
  {
    match req
    case Store(_, _, _, _, _, _, _) => StoreStep(db, req, cfg);
    case StoreBatch(_, _, _, _) => BatchRows(db, req, cfg);
    case Search(_, _, _, _) => SearchStep(db, req, cfg);
    case Delete(_, _) => RemovalStep(db, req, cfg);
    case Clear(_, _) => RemovalStep(db, req, cfg);
    case Link(_, _, _, _, _) => LinkRows(db, req, cfg);
    case Unlink(_, _, _) => LinkRows(db, req, cfg);
    case LinkRead(_, _, _) => LinkRows(db, req, cfg);
    case LinkWrite(_, _, _) => LinkRows(db, req, cfg);
    case _ => EditRows(db, req, cfg);
  }

  // -------------------------------------------------------------------------
  // The tables
  // -------------------------------------------------------------------------

  ghost predicate UniquePairs(db: Db) {
    forall p, q :: p in db.queue && q in db.queue && p != q ==>
      !SamePair(db.queue[p], db.queue[q].user, db.queue[q].newId, db.queue[q].existingId)
  }

  ghost predicate SessionsOk(db: Db) {
    forall id :: id in db.mem ==> SessionsDrawn(db.mem[id], db.nextSession)
  }

  // The schema's constraints, and the counters that keep ids fresh.
  ghost predicate SoundTables(db: Db) {
    P.Bounded(db) && C.SoundQueue(db) && UniquePairs(db) && SoundLinks(db) && SessionsOk(db)
  }

  // Row edits that keep the keys, the users and the drawn sessions.
  ghost predicate Edited(db: Db, after: Db) {
    && after == db.(mem := after.mem, assoc := after.assoc, pending := after.pending, nextSession := after.nextSession)
    && db.nextSession <= after.nextSession
    && after.mem.Keys == db.mem.Keys
    && (forall id :: id in db.mem ==> after.mem[id].user == db.mem[id].user)
    && (SessionsOk(db) ==> SessionsOk(after))
  }

  lemma EditedKeepsTables(db: Db, after: Db)
    requires SoundTables(db) && Edited(db, after) && SoundLinks(after)
    ensures SoundTables(after)
  {
  }

  lemma DeleteKeepsTables(db: Db, gone: set<Id>)
    requires SoundTables(db)
    ensures SoundTables(DeleteRows(db, gone))
    ensures Symmetric(db.assoc) ==> Symmetric(DeleteRows(db, gone).assoc)
  {
    var after := DeleteRows(db, gone);
    if Symmetric(db.assoc) {
      forall a, b
        ensures Mirrored(after.assoc, a, b)
      {
        assert Mirrored(db.assoc, a, b);
      }
    }
  }

  lemma InsertKeepsTables(db: Db, row: Row)
    requires SoundTables(db) && row.sessions == []
    ensures SoundTables(Insert(db, row))
  {
  }

  lemma TagKeepsTables(db: Db, a: Id, b: Id, w: real)
    requires SoundTables(db) && a in db.mem && b in db.mem && 0.0 <= w <= 1.0
    ensures SoundTables(db.(assoc := Tag(Tag(db.assoc, a, b, w), b, a, w)))
    ensures Symmetric(db.assoc) ==> Symmetric(Tag(Tag(db.assoc, a, b, w), b, a, w))
  {
    var after := db.(assoc := Tag(Tag(db.assoc, a, b, w), b, a, w));
    EditedKeepsTables(db, after);
    if Symmetric(db.assoc) {
      PairSetKeepsSymmetry(db.assoc, after.assoc, a, b);
    }
  }

  lemma ReinforceKeepsTables(db: Db, user: string, id: Id)
    requires SoundTables(db)
    ensures SoundTables(Reinforce(db, user, id))
  {
    ReinforceKeepsSessions(db, user, id);
    SessionsKeptIsEdited(db, Reinforce(db, user, id));
  }

  lemma ReinforceKeepsSessions(db: Db, user: string, id: Id)
    ensures SessionsKept(db, Reinforce(db, user, id))
  {
    assert Reinforce(db, user, id).mem.Keys == db.mem.Keys;
  }

  lemma HitKeepsTables(db: Db, user: string, newId: Id, h: Ranked)
    requires SoundTables(db) && Owns(db, user, newId) && Owns(db, user, h.id)
    ensures SoundTables(DispatchHit(db, user, newId, h))
    ensures Symmetric(db.assoc) ==> Symmetric(DispatchHit(db, user, newId, h).assoc)
  {
    if h.id != newId {
      match BandOf(h.score)
      case Queued => EnqueueKeepsTables(db, user, newId, h);
      case Tagged => TagKeepsTables(db, newId, h.id, SynapticTagWeight(h.score));
      case Reinforced => ReinforceKeepsTables(db, user, h.id);
      case Ignored =>
    }
  }

  lemma EnqueueKeepsTables(db: Db, user: string, newId: Id, h: Ranked)
    requires SoundTables(db) && Owns(db, user, newId) && Owns(db, user, h.id) && h.id != newId
    ensures SoundTables(Enqueue(db, user, newId, h.id, h.score))
  {
    var after := Enqueue(db, user, newId, h.id, h.score);
    if !PairQueued(db, user, newId, h.id) {
      forall p, q | p in after.queue && q in after.queue && p != q
        ensures !SamePair(after.queue[p], after.queue[q].user, after.queue[q].newId, after.queue[q].existingId)
      {
        if p in db.queue {
          assert !SamePair(db.queue[p], user, newId, h.id);
        }
        if q in db.queue {
          assert !SamePair(db.queue[q], user, newId, h.id);
        }
      }
    }
  }

  lemma {:induction false} DispatchKeepsTables(db: Db, user: string, newId: Id, hits: seq<Ranked>)
    requires SoundTables(db) && Owns(db, user, newId) && forall h :: h in hits ==> Owns(db, user, h.id)
    ensures SoundTables(DispatchAll(db, user, newId, hits))
    ensures Symmetric(db.assoc) ==> Symmetric(DispatchAll(db, user, newId, hits).assoc)
  {
    if hits != [] {
      var (front, h) := (hits[..|hits| - 1], hits[|hits| - 1]);
      assert h in hits;
      DispatchKeepsTables(db, user, newId, front);
      DispatchRows(db, user, newId, front);
      var mid := DispatchAll(db, user, newId, front);
      assert Owns(mid, user, newId) && Owns(mid, user, h.id);
      HitKeepsTables(mid, user, newId, h);
    }
  }

  lemma {:induction false} EntriesKeepTables(db: Db, user: string, entries: seq<Entry>, provider: string, model: string, now: int)
    requires SoundTables(db)
    ensures SoundTables(InsertEntries(db, user, entries, provider, model, now))
  {
    if entries != [] {
      var (front, e) := (entries[..|entries| - 1], entries[|entries| - 1]);
      EntriesKeepTables(db, user, front, provider, model, now);
      InsertKeepsTables(InsertEntries(db, user, front, provider, model, now),
                        NewRow(user, e.content, e.category, e.vector, provider, model, now));
    }
  }

  lemma RestoreKeepsSessions(db: Db, user: string, ids: seq<Id>)
    ensures SessionsKept(db, RestoreCold(db, user, ids))
  {
  }

  lemma RestoreKeepsTables(db: Db, user: string, results: seq<Retrieved>, deepRecall: bool)
    requires SoundTables(db)
    ensures SoundTables(Restored(db, user, results, deepRecall))
    ensures Restored(db, user, results, deepRecall).assoc == db.assoc
  {
    if deepRecall {
      RestoreKeepsSessions(db, user, IdsOf(results));
      SessionsKeptIsEdited(db, RestoreCold(db, user, IdsOf(results)));
    }
  }

  lemma StrengthenedSessions(r: Row, source: Source, now: int, next: nat, cfg: Config)
    requires cfg.intervalDays != 0.0 && SessionsDrawn(r, next)
    ensures SessionsDrawn(r, next + 1) && SessionsDrawn(StrengthenRow(r, source, now, Stored(next), cfg), next + 1)
  {
  }

  // Sessions stay drawn because the one a search adds is drawn first.
  lemma StrengthenKeepsTables(db: Db, user: string, results: seq<Retrieved>, now: int, cfg: Config)
    requires cfg.intervalDays != 0.0 && SoundTables(db)
    ensures SoundTables(StrengthenRows(db, user, results, now, cfg))
    ensures StrengthenRows(db, user, results, now, cfg).assoc == db.assoc
  {
    var after := StrengthenRows(db, user, results, now, cfg);
    forall id | id in db.mem
      ensures id in after.mem && after.mem[id].user == db.mem[id].user && SessionsDrawn(after.mem[id], after.nextSession)
    {
      assert SessionsDrawn(db.mem[id], db.nextSession);
      StrengthenedAt(db, user, results, now, cfg, id);
      StrengthenedSessions(db.mem[id], SourceOf(results, id), now, db.nextSession, cfg);
    }
    EditedKeepsTables(db, after);
  }

  lemma SearchKeepsTables(db: Db, req: Request, cfg: Config)
    requires cfg.intervalDays != 0.0 && req.Search? && SoundTables(db)
    ensures SoundTables(ApplyRequest(db, req, cfg))
    ensures Symmetric(db.assoc) ==> Symmetric(ApplyRequest(db, req, cfg).assoc)
  {
    var restored := Restored(db, req.user, req.results, req.deepRecall);
    RestoreKeepsTables(db, req.user, req.results, req.deepRecall);
    StrengthenKeepsTables(restored, req.user, req.results, req.now, cfg);
    PairsKeepTables(StrengthenRows(restored, req.user, req.results, req.now, cfg), PairsOf(TopTen(IdsOf(req.results))), req.now);
  }

  lemma PairsKeepTables(db: Db, pairs: seq<(Id, Id)>, now: int)
    requires SoundTables(db)
    ensures var after := StrengthenPairs(db, pairs, ASSOCIATION_STRENGTHEN_AMOUNT, now);
            SoundTables(after) && (Symmetric(db.assoc) ==> Symmetric(after.assoc))
  {
    StrengthenPairsKeeps(db, pairs, ASSOCIATION_STRENGTHEN_AMOUNT, now);
    EditedKeepsTables(db, StrengthenPairs(db, pairs, ASSOCIATION_STRENGTHEN_AMOUNT, now));
  }

  lemma LinkKeepsTables(db: Db, a: Id, b: Id, bump: real, now: int)
    requires SoundTables(db)
    ensures SoundTables(CreateOrStrengthen(db, a, b, bump, now))
  {
    EditedKeepsTables(db, CreateOrStrengthen(db, a, b, bump, now));
  }

  lemma UnlinkKeepsTables(db: Db, a: Id, b: Id, bidirectional: bool)
    requires SoundTables(db)
    ensures SoundTables(Unlinked(db, a, b, bidirectional))
    ensures Symmetric(db.assoc) && bidirectional ==> Symmetric(Unlinked(db, a, b, bidirectional).assoc)
  {
    var after := Unlinked(db, a, b, bidirectional);
    EditedKeepsTables(db, after);
    if bidirectional && Symmetric(db.assoc) {
      forall c, d
        ensures Mirrored(after.assoc, c, d)
      {
        assert Mirrored(db.assoc, c, d);
      }
    }
  }

  lemma FinishKeepsTables(db: Db, task: nat, strength: real, now: int)
    requires SoundTables(db)
    ensures SoundTables(FinishLink(db, task, strength, now))
  {
    EditedKeepsTables(db, FinishLink(db, task, strength, now));
  }

  lemma LinksKeepTables(db: Db, req: Request, cfg: Config)
    requires cfg.intervalDays != 0.0 && SoundTables(db)
    requires req.Link? || req.Unlink? || req.LinkRead? || req.LinkWrite?
    ensures SoundTables(ApplyRequest(db, req, cfg))
    ensures Symmetric(db.assoc) && !OneSided(req) ==> Symmetric(ApplyRequest(db, req, cfg).assoc)
  {
    match req
    case Link(a, b, strength, _, now) =>
      LinkKeepsTables(db, a, b, strength, now);
      LinkKeepsTables(CreateOrStrengthen(db, a, b, strength, now), b, a, strength, now);
      LinkBothKeeps(db, a, b, strength, now);
    case Unlink(a, b, bidirectional) => UnlinkKeepsTables(db, a, b, bidirectional);
    case LinkRead(_, _, _) => EditedKeepsTables(db, ApplyRequest(db, req, cfg));
    case LinkWrite(task, strength, now) => FinishKeepsTables(db, task, strength, now);
  }

  // Requests that write links in one direction only, or in two interleaved halves.
  predicate OneSided(req: Request) {
    || ((req.Link? || req.Unlink?) && !req.bidirectional)
    || req.LinkRead? || req.LinkWrite?
  }

  lemma StoreKeepsTables(db: Db, req: Request, cfg: Config)
    requires cfg.intervalDays != 0.0 && SoundTables(db) && (req.Store? || req.StoreBatch?) && Legal(db, req)
    ensures SoundTables(ApplyRequest(db, req, cfg))
    ensures Symmetric(db.assoc) ==> Symmetric(ApplyRequest(db, req, cfg).assoc)
  {
    match req
    case Store(user, content, category, importance, vector, stamp, hits) =>
      var row := StoredRow(user, content, category, importance, vector, stamp.provider, stamp.model, stamp.now);
      InsertKeepsTables(db, row);
      DispatchKeepsTables(Insert(db, row), user, db.nextId, hits);
    case StoreBatch(user, entries, weight, stamp) =>
      EntriesKeepTables(db, user, entries, stamp.provider, stamp.model, stamp.now);
      EntryRows(db, user, entries, stamp.provider, stamp.model, stamp.now);
      var mid := InsertEntries(db, user, entries, stamp.provider, stamp.model, stamp.now);
      LinkPairsKeeps(mid, PairsOf(Consecutive(db.nextId, |entries|)), weight, stamp.now);
      EditedKeepsTables(mid, ApplyRequest(db, req, cfg));
  }

  lemma EditsKeepTables(db: Db, req: Request, cfg: Config)
    requires cfg.intervalDays != 0.0 && SoundTables(db) && EditsRows(req)
    ensures SoundTables(ApplyRequest(db, req, cfg)) && ApplyRequest(db, req, cfg).assoc == db.assoc
  {
    EditRows(db, req, cfg);
    SessionsKeptIsEdited(db, ApplyRequest(db, req, cfg));
  }

  lemma SessionsKeptIsEdited(db: Db, after: Db)
    requires SoundTables(db) && SessionsKept(db, after)
    ensures SoundTables(after)
  {
    EditedKeepsTables(db, after);
  }

  lemma RemovalKeepsTables(db: Db, req: Request, cfg: Config)
    requires cfg.intervalDays != 0.0 && SoundTables(db) && (req.Delete? || req.Clear?)
    ensures SoundTables(ApplyRequest(db, req, cfg))
    ensures Symmetric(db.assoc) ==> Symmetric(ApplyRequest(db, req, cfg).assoc)
  {
    DeleteKeepsTables(db, if req.Delete? then OwnedAmong(db, req.user, req.ids) else AllOwned(db, req.user));
  }

  lemma RequestKeepsTables(db: Db, req: Request, cfg: Config)
    requires cfg.intervalDays != 0.0 && SoundTables(db) && Legal(db, req) && !req.Tick?
    ensures SoundTables(ApplyRequest(db, req, cfg))
    ensures Symmetric(db.assoc) && !OneSided(req) ==> Symmetric(ApplyRequest(db, req, cfg).assoc)
  {
    if req.Store? || req.StoreBatch? {
      StoreKeepsTables(db, req, cfg);
    } else if req.Search? {
      SearchKeepsTables(db, req, cfg);
    } else if req.Delete? || req.Clear? {
      RemovalKeepsTables(db, req, cfg);
    } else if EditsRows(req) {
      EditsKeepTables(db, req, cfg);
    } else {
      LinksKeepTables(db, req, cfg);
    }
  }

  lemma TickKeepsTables(db: Db, after: Db, log: TickLog, stamp: S.Stamp, cfg: Config)
    requires SoundTables(db) && TickStep(db, after, log, stamp, cfg)
    ensures SoundTables(after)
    ensures after.assoc == db.assoc && db.nextId <= after.nextId
  {
    var (d2, d3) := (AfterExpiry(db, stamp.now, cfg), AfterConflicts(db, stamp.now, log, cfg));
    TickPasses(db, after, log, stamp, cfg);
    PassesKeepTables(db, d2, d3, after, stamp.now, cfg);
  }

  lemma RowThroughPasses(r: Row, r2: Row, r3: Row, r4: Row, next: nat, now: int, cfg: Config)
    requires TierEdit(r, r2) && C.ConflictEdit(r2, r3) && SummaryEdit(r3, r4, now, cfg) && SessionsDrawn(r, next)
    ensures r4.user == r3.user == r.user && SessionsDrawn(r4, next)
  {
  }

  lemma PassesKeepRows(db: Db, d2: Db, d3: Db, after: Db, now: int, cfg: Config)
    requires P.Bounded(db) && SessionsOk(db) && Passes(db, d2, d3, after, now, cfg)
    ensures P.Bounded(after) && SessionsOk(after)
    ensures forall id :: id in db.mem ==> id in d3.mem && id in after.mem && after.mem[id].user == d3.mem[id].user
  {
    forall id | id in db.mem
      ensures id in after.mem && after.mem[id].user == d3.mem[id].user && SessionsDrawn(after.mem[id], after.nextSession)
    {
      RowThroughPasses(db.mem[id], d2.mem[id], d3.mem[id], after.mem[id], db.nextSession, now, cfg);
    }
    forall id | id in after.mem && id !in db.mem
      ensures SessionsDrawn(after.mem[id], after.nextSession)
    {
      assert NewSummary(after.mem[id]);
    }
  }

  lemma SummariesKeepQueue(d3: Db, after: Db)
    requires C.SoundQueue(d3) && after.queue == d3.queue && after.nextQueue == d3.nextQueue
    requires forall id :: id in d3.mem ==> id in after.mem && after.mem[id].user == d3.mem[id].user
    ensures C.SoundQueue(after)
  {
  }

  lemma SubqueueIsUnique(db: Db, after: Db)
    requires UniquePairs(db) && forall q :: q in after.queue ==> q in db.queue && after.queue[q] == db.queue[q]
    ensures UniquePairs(after)
  {
  }

  lemma LinksStaySound(db: Db, after: Db)
    requires SoundLinks(db) && after.assoc == db.assoc && db.mem.Keys <= after.mem.Keys
    ensures SoundLinks(after)
  {
  }

  lemma PassesKeepTables(db: Db, d2: Db, d3: Db, after: Db, now: int, cfg: Config)
    requires SoundTables(db) && Passes(db, d2, d3, after, now, cfg) && C.SoundQueue(d3)
    ensures SoundTables(after)
  {
    PassesKeepRows(db, d2, d3, after, now, cfg);
    SummariesKeepQueue(d3, after);
    SubqueueIsUnique(db, after);
    LinksStaySound(db, after);
  }
}
