/**
  What each request of a run leaves behind, column by column: client edits, removals, batches and the rows a
  search touches.
 */
module Effects {
  import opened Lifecycle
  import opened Collections
  import opened Tables
  import opened Hits
  import opened Associations
  import opened Ingest
  import opened Retrieval
  import opened Tick
  import opened Requests
  import opened Steps
  import C = Conflicts
  import R = Runs

  // -------------------------------------------------------------------------
  // Edits of single rows
  // -------------------------------------------------------------------------

  // Nothing but rows in `ids` of `user` may differ.
  ghost predicate OnlyOwned(db: Db, after: Db, user: string, ids: set<Id>) {
    && after == db.(mem := after.mem) && after.mem.Keys == db.mem.Keys
    && forall id :: id in db.mem && !(id in ids && db.mem[id].user == user) ==> after.mem[id] == db.mem[id]
  }

  // A column takes the value that was named, or keeps its own.
  predicate Takes<T(==)>(asked: Option<T>, before: T, after: T) {
    match asked case Some(v) => after == v case None => after == before
  }

  ghost predicate UpdatedTo(r: Row, r': Row, u: MemoryUpdate) {
    && Takes(u.content, r.content, r'.content) && Takes(u.category, r.category, r'.category)
    && Takes(u.floor, r.floor, r'.floor) && Takes(u.importance, r.importance, r'.importance)
    && Takes(u.stability, r.stability, r'.stability)
    && r'.validUntil == (if u.validUntil.Some? then u.validUntil else r.validUntil)
    && r == r'.(content := r.content, category := r.category, floor := r.floor, importance := r.importance,
                stability := r.stability, validUntil := r.validUntil)
  }

  // What an edit of one row asks of that row.
  ghost predicate EditedTo(r: Row, r': Row, req: Request)
    requires EditsOne(req)
  {
    match req
    case Update(_, _, changes) => UpdatedTo(r, r', changes)
    case MigrateToCold(_, _, since) => r'.isCold && r'.coldSince == Some(since) && r == r'.(isCold := r.isCold, coldSince := r.coldSince)
    case MigrateToHot(_, _) =>
      !r'.isCold && r'.coldSince == None && r'.daysAtFloor == 0
      && r == r'.(isCold := r.isCold, coldSince := r.coldSince, daysAtFloor := r.daysAtFloor)
    case ConvertToStub(_, _, text) =>
      r'.isStub && r'.stubContent == Some(text) && r == r'.(isStub := r.isStub, stubContent := r.stubContent)
    case UpdateRetention(_, _, floor) => r'.floor == floor && r == r'.(floor := r.floor)
  }

  lemma EditOneTold(db: Db, req: Request, cfg: Config)
    requires cfg.intervalDays != 0.0 && EditsOne(req)
    ensures var after := ApplyRequest(db, req, cfg);
            && OnlyOwned(db, after, req.user, {req.id})
            && (Owns(db, req.user, req.id) ==> EditedTo(db.mem[req.id], after.mem[req.id], req))
  {
  }

  /** Every edit of one row in every run writes the named columns of that row, if the user owns it, and nothing else. */
  lemma EditsWriteWhatTheyName(states: seq<Db>, reqs: seq<Request>, cfg: Config, n: nat)
    requires cfg.intervalDays != 0.0 && Run(states, reqs, cfg) && n < |reqs| && EditsOne(reqs[n])
    ensures OnlyOwned(states[n], states[n + 1], reqs[n].user, {reqs[n].id})
    ensures Owns(states[n], reqs[n].user, reqs[n].id) ==>
      EditedTo(states[n].mem[reqs[n].id], states[n + 1].mem[reqs[n].id], reqs[n])
  {
    assert StepAt(states, reqs, cfg, n);
    EditOneTold(states[n], reqs[n], cfg);
  }

  // -------------------------------------------------------------------------
  // Edits of several rows
  // -------------------------------------------------------------------------

  // The floor that the last entry for `id` asks for.
  ghost predicate LastFloor(floors: seq<(Id, real)>, id: Id, floor: real) {
    exists i :: 0 <= i < |floors| && floors[i] == (id, floor) && forall j :: i < j < |floors| ==> floors[j].0 != id
  }

  lemma LastFloorStep(floors: seq<(Id, real)>, id: Id, floor: real)
    requires floors != []
    ensures LastFloor(floors, id, floor) <==>
      if floors[|floors| - 1].0 == id then floors[|floors| - 1].1 == floor else LastFloor(floors[..|floors| - 1], id, floor)
  {
    var front := floors[..|floors| - 1];
    if floors[|floors| - 1].0 != id && LastFloor(front, id, floor) {
      var i :| 0 <= i < |front| && front[i] == (id, floor) && forall j :: i < j < |front| ==> front[j].0 != id;
      assert floors[i] == (id, floor);
    }
    if LastFloor(floors, id, floor) {
      var i :| 0 <= i < |floors| && floors[i] == (id, floor) && forall j :: i < j < |floors| ==> floors[j].0 != id;
      if floors[|floors| - 1].0 != id {
        assert front[i] == (id, floor);
      }
    }
    if floors[|floors| - 1] == (id, floor) {
      assert LastFloor(floors, id, floor);
    }
  }

  lemma {:induction false} FloorsAreTold(db: Db, user: string, floors: seq<(Id, real)>, id: Id)
    requires id in db.mem
    ensures id in SetFloors(db, user, floors).mem
    ensures var (r, r') := (db.mem[id], SetFloors(db, user, floors).mem[id]);
            r' == r.(floor := r'.floor) && (r'.floor == r.floor || (r.user == user && LastFloor(floors, id, r'.floor)))
    ensures forall floor :: db.mem[id].user == user && LastFloor(floors, id, floor) ==> SetFloors(db, user, floors).mem[id].floor == floor
  {
    if floors != [] {
      var (front, last) := (floors[..|floors| - 1], floors[|floors| - 1]);
      FloorsAreTold(db, user, front, id);
      var mid := SetFloors(db, user, front);
      SetFloorRow(mid, user, last.0, last.1);
      LastFloorStep(floors, id, SetFloors(db, user, floors).mem[id].floor);
      forall floor | db.mem[id].user == user && LastFloor(floors, id, floor)
        ensures SetFloors(db, user, floors).mem[id].floor == floor
      {
        LastFloorStep(floors, id, floor);
      }
    }
  }

  /** A BatchUpdate gives each owned row it names the last floor it names for it, and changes nothing else in any row. */
  lemma BatchUpdatesSetFloors(states: seq<Db>, reqs: seq<Request>, cfg: Config, n: nat, id: Id)
    requires cfg.intervalDays != 0.0 && Run(states, reqs, cfg) && n < |reqs| && reqs[n].BatchUpdate? && id in states[n].mem
    ensures id in states[n + 1].mem
    ensures var (r, r') := (states[n].mem[id], states[n + 1].mem[id]);
            && r' == r.(floor := r'.floor)
            && (r'.floor != r.floor ==> r.user == reqs[n].user && LastFloor(reqs[n].floors, id, r'.floor))
            && forall floor :: r.user == reqs[n].user && LastFloor(reqs[n].floors, id, floor) ==> r'.floor == floor
  {
    assert StepAt(states, reqs, cfg, n);
    FloorsAreTold(states[n], reqs[n].user, reqs[n].floors, id);
  }

  // -------------------------------------------------------------------------
  // Removals
  // -------------------------------------------------------------------------

  // The rows that a removal takes away.
  predicate Removes(db: Db, req: Request, id: Id)
    requires req.Delete? || req.Clear?
  {
    && id in db.mem && db.mem[id].user == req.user
    && match req case Delete(_, ids) => id in ids case Clear(_, confirm) => confirm
  }

  /**
    Every removal of every run takes exactly the rows of the user that it names, or all of them, with the
    links and queued conflicts that mention one, and leaves everything else as it was.
   */
  lemma RemovalsRemove(states: seq<Db>, reqs: seq<Request>, cfg: Config, n: nat)
    requires cfg.intervalDays != 0.0 && Run(states, reqs, cfg) && n < |reqs| && (reqs[n].Delete? || reqs[n].Clear?)
    ensures var (db, req, after) := (states[n], reqs[n], states[n + 1]);
            && after == db.(mem := after.mem, assoc := after.assoc, queue := after.queue)
            && (forall id: Id :: id in after.mem <==> id in db.mem && !Removes(db, req, id))
            && (forall id: Id :: id in after.mem ==> after.mem[id] == db.mem[id])
            && (forall a: Id, b: Id :: (a, b) in after.assoc <==> (a, b) in db.assoc && !Removes(db, req, a) && !Removes(db, req, b))
            && (forall e :: e in after.assoc ==> e in db.assoc && after.assoc[e] == db.assoc[e])
            && (forall q :: q in after.queue <==>
                  q in db.queue && !Removes(db, req, db.queue[q].newId) && !Removes(db, req, db.queue[q].existingId))
            && (forall q :: q in after.queue ==> q in db.queue && after.queue[q] == db.queue[q])
  {
    assert StepAt(states, reqs, cfg, n);
    RemovalTold(states[n], reqs[n], cfg);
  }

  lemma RemovalTold(db: Db, req: Request, cfg: Config)
    requires cfg.intervalDays != 0.0 && (req.Delete? || req.Clear?)
    ensures var gone := set id | id in db.mem && Removes(db, req, id);
            ApplyRequest(db, req, cfg) == DeleteRows(db, gone)
  {
    var gone := set id | id in db.mem && Removes(db, req, id);
    match req
    case Delete(user, ids) => assert OwnedAmong(db, user, ids) == gone;
    case Clear(user, confirm) =>
      if confirm {
        assert AllOwned(db, user) == gone;
      } else {
        assert gone == {};
        assert DeleteRows(db, {}).mem == db.mem && DeleteRows(db, {}).assoc == db.assoc && DeleteRows(db, {}).queue == db.queue;
      }
  }

  // -------------------------------------------------------------------------
  // Batches
  // -------------------------------------------------------------------------

  lemma {:induction false} EntriesAreStored(db: Db, user: string, entries: seq<Entry>, provider: string, model: string, now: int, i: nat)
    requires i < |entries|
    ensures db.nextId + i in InsertEntries(db, user, entries, provider, model, now).mem
    ensures InsertEntries(db, user, entries, provider, model, now).mem[db.nextId + i]
         == NewRow(user, entries[i].content, entries[i].category, entries[i].vector, provider, model, now)
  {
    var front := entries[..|entries| - 1];
    EntryRows(db, user, front, provider, model, now);
    if i < |front| {
      EntriesAreStored(db, user, front, provider, model, now, i);
    }
  }

  /** Every StoreBatch of every run stores its entries under consecutive fresh ids, each as it was given. */
  lemma BatchesKeepWhatTheyAreGiven(states: seq<Db>, reqs: seq<Request>, cfg: Config, n: nat, i: nat)
    requires cfg.intervalDays != 0.0 && Run(states, reqs, cfg) && n < |reqs| && reqs[n].StoreBatch? && i < |reqs[n].entries|
    ensures var (id, e) := (states[n].nextId + i, reqs[n].entries[i]);
            && id !in states[n].mem && id in states[n + 1].mem
            && R.JustStored(states[n + 1].mem[id], reqs[n].user, e.content, e.category, e.vector, reqs[n].stamp)
            && R.WeighedBy(states[n + 1].mem[id], None)
  {
    R.TablesStaySound(states, reqs, cfg, n);
    assert StepAt(states, reqs, cfg, n);
    var (db, req) := (states[n], reqs[n]);
    EntriesAreStored(db, req.user, req.entries, req.stamp.provider, req.stamp.model, req.stamp.now, i);
    LinkPairsKeeps(InsertEntries(db, req.user, req.entries, req.stamp.provider, req.stamp.model, req.stamp.now),
                   PairsOf(Consecutive(db.nextId, |req.entries|)), req.weight, req.stamp.now);
  }

  // -------------------------------------------------------------------------
  // Searches and reads
  // -------------------------------------------------------------------------

  lemma {:induction false} SourceAtPosition(results: seq<Retrieved>, i: nat)
    requires i < |results| && forall j, k :: 0 <= j < k < |results| ==> results[j].id != results[k].id
    ensures SourceOf(results, results[i].id) == results[i].source
  {
    if i < |results| - 1 {
      SourceAtPosition(results[..|results| - 1], i);
    }
  }

  // What the source of a hit earns.
  function Earns(source: Source, cfg: Config): real {
    if source == Direct then cfg.directBoost else cfg.associativeBoost
  }

  // The restore of a deep search, and then the boost, on one row.
  lemma RestoredTold(db: Db, user: string, results: seq<Retrieved>, deepRecall: bool, id: Id)
    requires id in db.mem
    ensures var mid := Restored(db, user, results, deepRecall);
            && id in mid.mem && mid.mem[id].user == db.mem[id].user && mid.mem[id].isStub == db.mem[id].isStub
            && mid.mem[id] == (if deepRecall && id in IdsOf(results) && db.mem[id].user == user && db.mem[id].isCold
                               then ToHot(db.mem[id]) else db.mem[id])
  {
  }

  lemma StrengthenedTold(db: Db, user: string, results: seq<Retrieved>, now: int, cfg: Config, id: Id)
    requires cfg.intervalDays != 0.0 && id in db.mem
    ensures var after := StrengthenRows(db, user, results, now, cfg);
            && id in after.mem && after.mem[id].isCold == db.mem[id].isCold
            && (id !in IdsOf(results) || db.mem[id].user != user || db.mem[id].isStub ==> after.mem[id] == db.mem[id])
  {
  }

  lemma SearchRowTold(db: Db, user: string, results: seq<Retrieved>, deepRecall: bool, now: int, cfg: Config, id: Id)
    requires cfg.intervalDays != 0.0 && id in db.mem
    ensures var after := AfterSearch(db, user, results, deepRecall, now, cfg);
            && id in after.mem
            && (id !in IdsOf(results) || db.mem[id].user != user ==> after.mem[id] == db.mem[id])
            && (id in IdsOf(results) && db.mem[id].user == user ==>
                  && after.mem[id].isCold == (db.mem[id].isCold && !deepRecall)
                  && (db.mem[id].isStub && !(deepRecall && db.mem[id].isCold) ==> after.mem[id] == db.mem[id]))
  {
    if results != [] {
      var mid := Restored(db, user, results, deepRecall);
      RestoredTold(db, user, results, deepRecall, id);
      StrengthenedTold(mid, user, results, now, cfg, id);
      assert AfterSearch(db, user, results, deepRecall, now, cfg).mem == StrengthenRows(mid, user, results, now, cfg).mem;
    }
  }

  /**
    Every search of every run boosts each result that is no stub by the amount of its source, one more session
    and the promotion check; with deep recall no result stays cold; no other row changes.
   */
  lemma SearchesTouchTheirResults(states: seq<Db>, reqs: seq<Request>, cfg: Config, n: nat, i: nat)
    requires cfg.intervalDays != 0.0 && Run(states, reqs, cfg) && n < |reqs| && reqs[n].Search? && i < |reqs[n].results|
    ensures var (req, hit, after) := (reqs[n], reqs[n].results[i], states[n + 1]);
            && hit.id in states[n].mem && hit.id in after.mem
            && (!states[n].mem[hit.id].isStub ==>
                  FullState(after.mem[hit.id], cfg) == R.Reinforced(FullState(states[n].mem[hit.id], cfg), Earns(hit.source, cfg), req.now, cfg))
            && after.mem[hit.id].isCold == (states[n].mem[hit.id].isCold && !req.deepRecall)
  {
    assert StepAt(states, reqs, cfg, n);
    var (req, id) := (reqs[n], reqs[n].results[i].id);
    assert IdsOf(req.results)[i] == id;
    SearchRowTold(states[n], req.user, req.results, req.deepRecall, req.now, cfg, id);
    SourceAtPosition(req.results, i);
    if !states[n].mem[id].isStub {
      R.SearchesReinforce(states, reqs, cfg, n, id);
    }
  }

  lemma SearchesSpareTheRest(states: seq<Db>, reqs: seq<Request>, cfg: Config, n: nat, id: Id)
    requires cfg.intervalDays != 0.0 && Run(states, reqs, cfg) && n < |reqs| && reqs[n].Search? && id in states[n].mem
    requires forall i :: 0 <= i < |reqs[n].results| ==> reqs[n].results[i].id != id
    ensures id in states[n + 1].mem && states[n + 1].mem[id] == states[n].mem[id]
    ensures states[n + 1].mem.Keys == states[n].mem.Keys && states[n + 1].queue == states[n].queue
  {
    assert StepAt(states, reqs, cfg, n);
    SearchRowTold(states[n], reqs[n].user, reqs[n].results, reqs[n].deepRecall, reqs[n].now, cfg, id);
  }

  /** Every Get of every run restores exactly the cold rows of the user that it names. */
  lemma GetsRestore(states: seq<Db>, reqs: seq<Request>, cfg: Config, n: nat)
    requires cfg.intervalDays != 0.0 && Run(states, reqs, cfg) && n < |reqs| && reqs[n].Get?
    ensures OnlyOwned(states[n], states[n + 1], reqs[n].user, Elems(reqs[n].ids))
    ensures forall id :: id in reqs[n].ids && Owns(states[n], reqs[n].user, id) ==>
      var (r, r') := (states[n].mem[id], states[n + 1].mem[id]);
      if r.isCold then !r'.isCold && r'.coldSince == None && r'.daysAtFloor == 0
                       && r == r'.(isCold := true, coldSince := r.coldSince, daysAtFloor := r.daysAtFloor)
      else r' == r
  {
    assert StepAt(states, reqs, cfg, n);
  }

  /** Every MarkSuperseded of every run marks exactly the rows of the user that it names. */
  lemma MarksSupersede(states: seq<Db>, reqs: seq<Request>, cfg: Config, n: nat)
    requires cfg.intervalDays != 0.0 && Run(states, reqs, cfg) && n < |reqs| && reqs[n].MarkSuperseded?
    ensures OnlyOwned(states[n], states[n + 1], reqs[n].user, Elems(reqs[n].ids))
    ensures forall id :: id in reqs[n].ids && Owns(states[n], reqs[n].user, id) ==>
      var (r, r') := (states[n].mem[id], states[n + 1].mem[id]);
      r'.isSuperseded && r'.supersededBy == Some(reqs[n].summary)
      && r == r'.(isSuperseded := r.isSuperseded, supersededBy := r.supersededBy)
  {
    assert StepAt(states, reqs, cfg, n);
  }

  // -------------------------------------------------------------------------
  // Ticks
  // -------------------------------------------------------------------------

  // The row has been archived: a mark and the first 200 characters stay, the embedding goes.
  ghost predicate Archived(r: Row, r': Row) {
    && r'.isStub && r'.embedding.None? && r'.stubContent.Some?
    && var kept := if |r.content| < 200 then |r.content| else 200;
       |r'.stubContent.value| == 11 + kept && r'.stubContent.value[..11] == "[archived] " && r'.stubContent.value[11..] == r.content[..kept]
  }

  lemma ArchivedRow(r: Row, r3: Row, r4: Row, now: int, cfg: Config)
    requires C.ConflictEdit(ExpiredRow(r, now, cfg), r3) && SummaryEdit(r3, r4, now, cfg)
    ensures r4.content == r.content
    ensures if LongCold(r, now) && r.category != "core" then Archived(r, r4)
            else r4.isStub == r.isStub && r4.embedding == r.embedding && r4.stubContent == r.stubContent
  {
    var r2 := ExpiredRow(r, now, cfg);
    assert r4.isStub == r2.isStub && r4.embedding == r2.embedding && r4.stubContent == r2.stubContent && r4.content == r2.content;
    if r2.stubContent == Some(Preview(r.content)) {
      PreviewIsPrefix(r.content);
    }
  }

  lemma PreviewIsPrefix(content: string)
    ensures var (text, kept) := (Preview(content), if |content| < 200 then |content| else 200);
            |text| == 11 + kept && text[..11] == "[archived] " && text[11..] == content[..kept]
  {
  }

  /**
    Every tick of every run archives exactly the rows that it finds non-core and cold for more than 180 days, and
    keeps the content of every row.
   */
  lemma TicksArchive(states: seq<Db>, reqs: seq<Request>, cfg: Config, n: nat, id: Id)
    requires cfg.intervalDays != 0.0 && Run(states, reqs, cfg) && n < |reqs| && reqs[n].Tick? && id in states[n].mem
    ensures id in states[n + 1].mem
    ensures var (r, r', now) := (states[n].mem[id], states[n + 1].mem[id], reqs[n].stamp.now);
            && r'.content == r.content
            && (if LongCold(r, now) && r.category != "core" then Archived(r, r')
                else r'.isStub == r.isStub && r'.embedding == r.embedding && r'.stubContent == r.stubContent)
  {
    R.TablesStaySound(states, reqs, cfg, n);
    R.TickIn(states, reqs, cfg, n);
    var (log, now) := (reqs[n].log, reqs[n].stamp.now);
    TickPasses(states[n], states[n + 1], log, reqs[n].stamp, cfg);
    EarlyPassesEdit(states[n], now, cfg);
    ArchivedRow(states[n].mem[id], AfterConflicts(states[n], now, log, cfg).mem[id], states[n + 1].mem[id], now, cfg);
  }

  lemma CooledRow(r: Row, r3: Row, r4: Row, now: int, cfg: Config)
    requires C.ConflictEdit(ExpiredRow(r, now, cfg), r3) && SummaryEdit(r3, r4, now, cfg)
    requires r4.isCold && !r.isCold
    ensures r4.coldSince == Some(now) && Hot(r)
    ensures r4.supersededBy.Some? || (r.category != "core" && ScanRow(r, now, cfg).isCold)
  {
  }

  /**
    What a tick of a run makes cold was hot and is cold from now on: it was absorbed by a summary, or superseded,
    or its retention has been at a positive floor for seven scans or more, this one included.
   */
  lemma TicksCoolForAReason(states: seq<Db>, reqs: seq<Request>, cfg: Config, n: nat, id: Id)
    requires cfg.intervalDays != 0.0 && Run(states, reqs, cfg) && n < |reqs| && reqs[n].Tick?
    requires id in states[n].mem && id in states[n + 1].mem && states[n + 1].mem[id].isCold && !states[n].mem[id].isCold
    ensures Hot(states[n].mem[id]) && states[n + 1].mem[id].coldSince == Some(reqs[n].stamp.now)
    ensures
      || states[n + 1].mem[id].supersededBy.Some?
      || (states[n].mem[id].category != "core" && R.Streak(R.History(states, reqs, id, n + 1, cfg)) >= 7)
  {
    R.TablesStaySound(states, reqs, cfg, n);
    R.TickIn(states, reqs, cfg, n);
    var (log, now) := (reqs[n].log, reqs[n].stamp.now);
    TickPasses(states[n], states[n + 1], log, reqs[n].stamp, cfg);
    EarlyPassesEdit(states[n], now, cfg);
    CooledRow(states[n].mem[id], AfterConflicts(states[n], now, log, cfg).mem[id], states[n + 1].mem[id], now, cfg);
    if states[n].mem[id].category != "core" {
      R.ColdExactlyAtSeven(states, reqs, cfg, n, id);
    }
  }
}
