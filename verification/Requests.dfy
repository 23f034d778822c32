/**
  Every request that writes, as a step on the tables.

  A request of this module has passed `require_user_match`; what the environment chose (search
  results, LLM answers, clocks) travels inside it.  `LinkRead` and `LinkWrite` are the two halves of
  a `create_or_strengthen` call that interleaves with other writers.
 */
module Requests {
  import opened Lifecycle
  import opened Collections
  import opened Tables
  import opened Hits
  import opened Associations
  import opened Ingest
  import opened Retrieval
  import opened Tick
  import S = Consolidation

  datatype MemoryUpdate = MemoryUpdate(
    content: Option<string>, category: Option<string>, floor: Option<real>,
    importance: Option<real>, stability: Option<real>, validUntil: Option<int>)

  datatype Request =
    | Store(user: string, content: string, category: string, importance: Option<real>, vector: seq<real>,
            stamp: S.Stamp, hits: seq<Ranked>)
    | StoreBatch(user: string, entries: seq<Entry>, weight: real, stamp: S.Stamp)
    | Search(user: string, results: seq<Retrieved>, deepRecall: bool, now: int)
    | Get(user: string, ids: seq<Id>)
    | Update(user: string, id: Id, changes: MemoryUpdate)
    | Delete(user: string, ids: seq<Id>)
    | Link(source: Id, target: Id, strength: real, bidirectional: bool, now: int)
    | Unlink(source: Id, target: Id, bidirectional: bool)
    | LinkRead(task: nat, source: Id, target: Id)
    | LinkWrite(task: nat, strength: real, now: int)
    | BatchUpdate(user: string, floors: seq<(Id, real)>)
    | Tick(log: TickLog, stamp: S.Stamp)
    | MarkSuperseded(user: string, ids: seq<Id>, summary: Id)
    | MigrateToCold(user: string, id: Id, coldSince: int)
    | MigrateToHot(user: string, id: Id)
    | ConvertToStub(user: string, id: Id, text: string)
    | UpdateRetention(user: string, id: Id, floor: real)
    | Clear(user: string, confirm: bool)

  function Or<T>(o: Option<T>, x: T): T {
    match o case Some(v) => v case None => x
  }

  function UpdatedRow(r: Row, u: MemoryUpdate): Row {
    r.(content := Or(u.content, r.content), category := Or(u.category, r.category), floor := Or(u.floor, r.floor),
       importance := Or(u.importance, r.importance), stability := Or(u.stability, r.stability),
       validUntil := if u.validUntil.Some? then u.validUntil else r.validUntil)
  }

  function EditOwned(db: Db, user: string, id: Id, f: Row -> Row): Db {
    MapRows(db, (i: Id, r: Row) => if i == id && r.user == user then f(r) else r)
  }

  function SettingFloor(floor: real): Row -> Row {
    (r: Row) => r.(floor := floor)
  }

  function Updating(changes: MemoryUpdate): Row -> Row {
    (r: Row) => UpdatedRow(r, changes)
  }

  function Cooling(since: int): Row -> Row {
    (r: Row) => r.(isCold := true, coldSince := Some(since))
  }

  function Heating(): Row -> Row {
    (r: Row) => ToHot(r)
  }

  function Stubbing(text: string): Row -> Row {
    (r: Row) => r.(isStub := true, stubContent := Some(text))
  }

  // The client's supersede request: ids and summary are not checked against each other.
  function Superseding(db: Db, user: string, ids: seq<Id>, summary: Id): Db {
    MapRows(db, (id: Id, r: Row) =>
      if id in ids && r.user == user then r.(isSuperseded := true, supersededBy := Some(summary)) else r)
  }

  function SetFloors(db: Db, user: string, floors: seq<(Id, real)>): Db {
    if floors == [] then db
    else
      var (id, floor) := floors[|floors| - 1];
      EditOwned(SetFloors(db, user, floors[..|floors| - 1]), user, id, SettingFloor(floor))
  }

  function OwnedAmong(db: Db, user: string, ids: seq<Id>): set<Id> {
    set id | id in ids && Owns(db, user, id)
  }

  function AllOwned(db: Db, user: string): set<Id> {
    set id | id in db.mem && Owns(db, user, id)
  }

  // A write of a pending link whose endpoint is gone fails on the foreign key.
  function FinishLink(db: Db, task: nat, strength: real, now: int): Db {
    if task !in db.pending then db
    else
      var p := db.pending[task];
      var done := db.(pending := db.pending - {task});
      if EndpointsExist(db, p.source, p.target)
      then done.(assoc := db.assoc[(p.source, p.target) := Edge(Bumped(p.seen, strength), Some(now))]) else done
  }

  function ApplyRequest(db: Db, req: Request, cfg: Config): Db
    requires cfg.intervalDays != 0.0 && !req.Tick?
  {
    match req
    case Store(user, content, category, importance, vector, stamp, hits) =>
      StoreMemory(db, StoredRow(user, content, category, importance, vector, stamp.provider, stamp.model, stamp.now), hits)
    case StoreBatch(user, entries, weight, stamp) =>
      Ingest.StoreBatch(db, user, entries, stamp.provider, stamp.model, weight, stamp.now)
    case Search(user, results, deepRecall, now) => AfterSearch(db, user, results, deepRecall, now, cfg)
    case Get(user, ids) => RestoreCold(db, user, ids)
    case Update(user, id, changes) => EditOwned(db, user, id, Updating(changes))
    case Delete(user, ids) => DeleteRows(db, OwnedAmong(db, user, ids))
    case Link(a, b, strength, bidirectional, now) =>
      if bidirectional then LinkBoth(db, a, b, strength, now) else CreateOrStrengthen(db, a, b, strength, now)
    case Unlink(a, b, bidirectional) => Unlinked(db, a, b, bidirectional)
    case LinkRead(task, a, b) => db.(pending := db.pending[task := PendingLink(a, b, SeenWeight(db.assoc, a, b))])
    case LinkWrite(task, strength, now) => FinishLink(db, task, strength, now)
    case BatchUpdate(user, floors) => SetFloors(db, user, floors)
    case MarkSuperseded(user, ids, summary) => Superseding(db, user, ids, summary)
    case MigrateToCold(user, id, since) => EditOwned(db, user, id, Cooling(since))
    case MigrateToHot(user, id) => EditOwned(db, user, id, Heating())
    case ConvertToStub(user, id, text) => EditOwned(db, user, id, Stubbing(text))
    case UpdateRetention(user, id, floor) => EditOwned(db, user, id, SettingFloor(floor))
    case Clear(user, confirm) => if confirm then DeleteRows(db, AllOwned(db, user)) else db
  }

  ghost predicate DistinctRows(db: Db, user: string, results: seq<Retrieved>) {
    && (forall i, j :: 0 <= i < j < |results| ==> results[i].id != results[j].id)
    && (forall i :: 0 <= i < |results| ==> Owns(db, user, results[i].id))
  }

  // What the search engine guarantees about the results it hands to the handlers.
  ghost predicate Legal(db: Db, req: Request) {
    match req
    case Store(user, content, category, importance, vector, stamp, hits) =>
      RankedHits(Insert(db, StoredRow(user, content, category, importance, vector, stamp.provider, stamp.model, stamp.now)),
                 user, hits)
    case Search(user, results, _, _) => DistinctRows(db, user, results)
    case _ => true
  }

  ghost predicate Next(db: Db, req: Request, after: Db, cfg: Config)
    requires cfg.intervalDays != 0.0
  {
    && Legal(db, req)
    && (match req
        case Tick(log, stamp) => TickStep(db, after, log, stamp, cfg)
        case _ => after == ApplyRequest(db, req, cfg))
  }

  ghost predicate StepAt(states: seq<Db>, reqs: seq<Request>, cfg: Config, n: nat)
    requires cfg.intervalDays != 0.0 && |states| == |reqs| + 1 && n < |reqs|
  {
    Next(states[n], reqs[n], states[n + 1], cfg)
  }

  // A run: successive states of the tables, from the empty database.
  ghost predicate Run(states: seq<Db>, reqs: seq<Request>, cfg: Config)
    requires cfg.intervalDays != 0.0
  {
    && |states| == |reqs| + 1
    && states[0] == EMPTY
    && forall i :: 0 <= i < |reqs| ==> StepAt(states, reqs, cfg, i)
  }

  // -------------------------------------------------------------------------
  // The handlers that issue single statements
  // -------------------------------------------------------------------------

  method EditOne(s: Tables.Store, user: string, id: Id, f: Row -> Row)
    modifies s
    ensures s.State() == EditOwned(old(s.State()), user, id, f)
  {
    ghost var start := s.State();
    if id in s.mem && s.mem[id].user == user {
      s.mem := s.mem[id := f(s.mem[id])];
    }
    assert s.mem == EditOwned(start, user, id, f).mem;
  }

  method SetFloorsInTransaction(s: Tables.Store, user: string, floors: seq<(Id, real)>)
    modifies s
    ensures s.State() == SetFloors(old(s.State()), user, floors)
  {
    for k := 0 to |floors|
      invariant s.State() == SetFloors(old(s.State()), user, floors[..k])
    {
      assert floors[..k + 1][..k] == floors[..k];
      EditOne(s, user, floors[k].0, SettingFloor(floors[k].1));
    }
    assert floors[..|floors|] == floors;
  }

  method SupersedeRows(s: Tables.Store, user: string, ids: seq<Id>, summary: Id)
    modifies s
    ensures s.State() == Superseding(old(s.State()), user, ids, summary)
  {
    ghost var start := s.State();
    var rows := SelectOwned(s, user, ids);
    RewriteRows(s, rows, (id: Id, r: Row) => r.(isSuperseded := true, supersededBy := Some(summary)));
    assert s.mem == Superseding(start, user, ids, summary).mem;
  }

  predicate EditsOne(req: Request) {
    req.Update? || req.MigrateToCold? || req.MigrateToHot? || req.ConvertToStub? || req.UpdateRetention?
  }

  method HandleOneRow(s: Tables.Store, req: Request, cfg: Config)
    requires EditsOne(req) && cfg.intervalDays != 0.0
    modifies s
    ensures s.State() == ApplyRequest(old(s.State()), req, cfg)
  {
    match req
    case Update(user, id, changes) => EditOne(s, user, id, Updating(changes));
    case MigrateToCold(user, id, since) => EditOne(s, user, id, Cooling(since));
    case MigrateToHot(user, id) => EditOne(s, user, id, Heating());
    case ConvertToStub(user, id, text) => EditOne(s, user, id, Stubbing(text));
    case UpdateRetention(user, id, floor) => EditOne(s, user, id, SettingFloor(floor));
  }

  method HandleRowEdit(s: Tables.Store, req: Request, cfg: Config)
    requires EditsOne(req) || req.Get? || req.BatchUpdate? || req.MarkSuperseded?
    requires cfg.intervalDays != 0.0
    modifies s
    ensures s.State() == ApplyRequest(old(s.State()), req, cfg)
  {
    if req.Get? {
      RestoreColdRows(s, req.user, req.ids);
    } else if req.BatchUpdate? {
      SetFloorsInTransaction(s, req.user, req.floors);
    } else if req.MarkSuperseded? {
      SupersedeRows(s, req.user, req.ids, req.summary);
    } else {
      HandleOneRow(s, req, cfg);
    }
  }

  method HandleLinks(s: Tables.Store, req: Request, cfg: Config)
    requires req.Link? || req.Unlink? || req.LinkRead? || req.LinkWrite?
    requires cfg.intervalDays != 0.0
    modifies s
    ensures s.State() == ApplyRequest(old(s.State()), req, cfg)
  {
    match req
    case Link(a, b, strength, bidirectional, now) =>
      LinkDirected(s, a, b, strength, now);
      if bidirectional {
        LinkDirected(s, b, a, strength, now);
      }
    case Unlink(a, b, bidirectional) =>
      s.assoc := map e | e in s.assoc && e != (a, b) && !(bidirectional && e == (b, a)) :: s.assoc[e];
    case LinkRead(task, a, b) => s.pending := s.pending[task := PendingLink(a, b, SeenWeight(s.assoc, a, b))];
    case LinkWrite(task, strength, now) =>
      if task in s.pending {
        var p := s.pending[task];
        s.pending := s.pending - {task};
        if p.source in s.mem && p.target in s.mem {
          s.assoc := s.assoc[(p.source, p.target) := Edge(Bumped(p.seen, strength), Some(now))];
        }
      }
  }

  method HandleRemoval(s: Tables.Store, req: Request, cfg: Config)
    requires req.Delete? || req.Clear?
    requires cfg.intervalDays != 0.0
    modifies s
    ensures s.State() == ApplyRequest(old(s.State()), req, cfg)
  {
    match req
    case Delete(user, ids) =>
      var gone := set id | id in ids && id in s.mem && s.mem[id].user == user;
      assert gone == OwnedAmong(s.State(), user, ids);
      s.Delete(gone);
    case Clear(user, confirm) =>
      if confirm {
        var gone := set id | id in s.mem && s.mem[id].user == user;
        assert gone == AllOwned(s.State(), user);
        s.Delete(gone);
      }
  }
}
