/** The four-pass lifecycle tick (`handle_tick`). */
module Tick {
  import opened Lifecycle
  import opened Collections
  import opened Tables
  import opened Lineage
  import opened Conflicts
  import opened Consolidation
  import opened Compression

  const COLD_MIGRATION_DAYS: nat := 7
  const COLD_TTL_DAYS: int := 180
  const AT_FLOOR_TOLERANCE: real := 0.000000001

  // -------- Pass 1: floor counter and cold migration --------

  predicate AtFloor(r: Row, now: int, cfg: Config) {
    Abs(Retention(r, now, cfg) - r.floor) < AT_FLOOR_TOLERANCE && r.floor > 0.0
  }

  function ScanRow(r: Row, now: int, cfg: Config): Row {
    var days := if AtFloor(r, now, cfg) then r.daysAtFloor + 1 else 0;
    var counted := r.(daysAtFloor := days);
    if r.category != "core" && days >= COLD_MIGRATION_DAYS then counted.(isCold := true, coldSince := Some(now)) else counted
  }

  function ScanFloors(db: Db, now: int, cfg: Config): Db {
    MapRows(db, (id: Id, r: Row) => if Hot(r) then ScanRow(r, now, cfg) else r)
  }

  // -------- Pass 2: cold rows past their time to live become stubs --------

  predicate Stale(r: Row, now: int) {
    r.isCold && !r.isStub && r.coldSince.Some? && r.coldSince.value < now - COLD_TTL_DAYS * 86400
  }

  function Preview(content: string): string {
    "[archived] " + if |content| <= 200 then content else content[..200]
  }

  function ExpireRow(r: Row): Row {
    r.(isStub := true, stubContent := Some(Preview(r.content)), embedding := None)
  }

  function ExpireCold(db: Db, now: int): Db {
    MapRows(db, (id: Id, r: Row) => if Stale(r, now) && r.category != "core" then ExpireRow(r) else r)
  }

  // -------- The whole tick --------

  // What the environment chose: the order of the conflict batch, the judge's answers, and the
  // clusters compressed with the summaries the LLM wrote for them.
  datatype TickLog = TickLog(batch: seq<nat>, answers: seq<Option<Label>>, clusters: seq<Cluster>, summaries: seq<Summary>)

  function AfterExpiry(db: Db, now: int, cfg: Config): Db {
    ExpireCold(ScanFloors(db, now, cfg), now)
  }

  function AfterConflicts(db: Db, now: int, log: TickLog, cfg: Config): Db
    requires |log.answers| == |log.batch|
  {
    Resolve(AfterExpiry(db, now, cfg), log.batch, log.answers)
  }

  ghost predicate TickStep(db: Db, after: Db, log: TickLog, stamp: Stamp, cfg: Config) {
    && |log.answers| == |log.batch| && |log.summaries| == |log.clusters|
    && IsBatch(AfterExpiry(db, stamp.now, cfg).queue, log.batch)
    && SoundClusters(AfterConflicts(db, stamp.now, log, cfg).mem, log.clusters, stamp.now, cfg)
    && after == CompressAll(AfterConflicts(db, stamp.now, log, cfg), log.clusters, log.summaries, stamp)
  }

  datatype Llm = Llm(judge: Oracle, summarise: Writer)

  function JudgeOf(llm: Option<Llm>): Option<Oracle> {
    match llm case None => None case Some(l) => Some(l.judge)
  }

  function AtFloorIds(db: Db, now: int, cfg: Config): set<Id> {
    set id | id in db.mem && Hot(db.mem[id]) && AtFloor(db.mem[id], now, cfg)
  }

  method ScanPass(s: Store, now: int, cfg: Config) returns (decayed: nat)
    modifies s
    ensures s.State() == ScanFloors(old(s.State()), now, cfg)
    ensures decayed == |AtFloorIds(old(s.State()), now, cfg)|
  {
    ghost var start := s.State();
    var hot := Enumerate(set id | id in s.mem && Hot(s.mem[id]));
    decayed := |AtFloorIds(s.State(), now, cfg)|;
    RewriteRows(s, hot, (id: Id, r: Row) => ScanRow(r, now, cfg));
    assert s.mem == ScanFloors(start, now, cfg).mem;
  }

  method ExpirePass(s: Store, now: int)
    modifies s
    ensures s.State() == ExpireCold(old(s.State()), now)
  {
    ghost var start := s.State();
    var stale := Enumerate(set id | id in s.mem && Stale(s.mem[id], now));
    RewriteRows(s, stale, (id: Id, r: Row) => if r.category == "core" then r else ExpireRow(r));
    assert s.mem == ExpireCold(start, now).mem;
  }

  /** A failing LLM ends pass 4 early; what was written before stays. */
  method HandleTick(s: Store, llm: Option<Llm>, stamp: Stamp, cfg: Config)
    returns (ok: bool, decayed: nat, ghost log: TickLog)
    requires Bounded(s.State())
    modifies s
    ensures TickStep(old(s.State()), s.State(), log, stamp, cfg)
    ensures decayed == |AtFloorIds(old(s.State()), stamp.now, cfg)|
    ensures SaidOf(old(s.State()), log.batch, JudgeOf(llm), log.answers)
    ensures llm.None? ==> ok && log.clusters == []
    ensures llm.Some? ==> WrittenFor(old(s.mem), llm.value.summarise, 0, log.clusters, log.summaries)
    ensures llm.Some? && ok && |log.clusters| < CONSOLIDATION_MAX_PER_TICK ==>
      forall user, category ::
        Exhausted(AfterConflicts(old(s.State()), stamp.now, log, cfg).mem, log.clusters, user, category, stamp.now, cfg)
  {
    ghost var start := s.State();
    decayed := ScanPass(s, stamp.now, cfg);
    ExpirePass(s, stamp.now);
    var resolved, batch := ResolveConflicts(s, JudgeOf(llm));
    ghost var answers := Answers(AfterExpiry(start, stamp.now, cfg), batch, JudgeOf(llm));
    assert s.State() == AfterConflicts(start, stamp.now, TickLog(batch, answers, [], []), cfg);
    ResolveKeepsIds(AfterExpiry(start, stamp.now, cfg), batch, answers);
    var created;
    ghost var clusters, summaries;
    created, ok, clusters, summaries := ConsolidateAtTick(s, match llm case None => None case Some(l) => Some(l.summarise), stamp, cfg);
    log := TickLog(batch, answers, clusters, summaries);
    PromptsReadTheStart(start, stamp.now, log, llm, cfg);
  }

  // The prompts of passes 3 and 4 show the contents of the start of the tick.
  lemma PromptsReadTheStart(db: Db, now: int, log: TickLog, llm: Option<Llm>, cfg: Config)
    requires |log.answers| == |log.batch| && |log.summaries| == |log.clusters|
    requires SoundClusters(AfterConflicts(db, now, log, cfg).mem, log.clusters, now, cfg)
    ensures Answers(AfterExpiry(db, now, cfg), log.batch, JudgeOf(llm)) == Answers(db, log.batch, JudgeOf(llm))
    ensures llm.Some? ==>
      (WrittenFor(AfterConflicts(db, now, log, cfg).mem, llm.value.summarise, 0, log.clusters, log.summaries)
       <==> WrittenFor(db.mem, llm.value.summarise, 0, log.clusters, log.summaries))
  {
    var (d2, d3) := (AfterExpiry(db, now, cfg), AfterConflicts(db, now, log, cfg));
    ExpiryKeepsContents(db, now, cfg);
    SameAnswers(db, d2, log.batch, JudgeOf(llm));
    ResolveKeepsContents(d2, log.batch, log.answers);
    ContentsCompose(db, d2, d3);
    forall i | 0 <= i < |log.clusters|
      ensures Contents(d3.mem, log.clusters[i].members) == Contents(db.mem, log.clusters[i].members)
    {
      SameContents(db, d3, log.clusters[i].members);
    }
  }

  lemma ExpiryKeepsContents(db: Db, now: int, cfg: Config)
    ensures AfterExpiry(db, now, cfg).queue == db.queue && AfterExpiry(db, now, cfg).mem.Keys == db.mem.Keys
    ensures ContentsKept(db, AfterExpiry(db, now, cfg))
  {
  }

  lemma SameAnswers(db: Db, after: Db, batch: seq<nat>, judge: Option<Oracle>)
    requires ContentsKept(db, after) && after.mem.Keys == db.mem.Keys && after.queue == db.queue
    ensures Answers(after, batch, judge) == Answers(db, batch, judge)
  {
  }

  lemma SameContents(db: Db, after: Db, ids: seq<Id>)
    requires ContentsKept(db, after) && after.mem.Keys == db.mem.Keys
    ensures Contents(after.mem, ids) == Contents(db.mem, ids)
  {
  }

  lemma {:induction false} ResolveKeepsIds(db: Db, batch: seq<nat>, answers: seq<Option<Label>>)
    requires |answers| == |batch|
    ensures Resolve(db, batch, answers).mem.Keys == db.mem.Keys && Resolve(db, batch, answers).nextId == db.nextId
  {
    if batch != [] {
      ResolveKeepsIds(db, batch[..|batch| - 1], answers[..|batch| - 1]);
    }
  }

  // -------------------------------------------------------------------------
  // What the first two passes change
  // -------------------------------------------------------------------------

  // Passes 1 and 2 touch only the tier columns.
  ghost predicate TierEdit(r: Row, r': Row) {
    && r'.user == r.user && r'.category == r.category && r'.floor == r.floor && r'.sessions == r.sessions
    && r'.isSuperseded == r.isSuperseded && r'.supersededBy == r.supersededBy && r'.stability == r.stability
    && r'.importance == r.importance && r'.createdAt == r.createdAt && r'.lastAccessedAt == r.lastAccessedAt
    && (r.isCold ==> r'.isCold) && (r.isStub ==> r'.isStub)
    && (r.category == "core" ==> r'.isCold == r.isCold && r'.isStub == r.isStub && r'.coldSince == r.coldSince)
  }

  ghost predicate TierEdits(db: Db, after: Db) {
    && after == db.(mem := after.mem)
    && after.mem.Keys == db.mem.Keys
    && forall id :: id in db.mem ==> TierEdit(db.mem[id], after.mem[id])
  }

  // The row of `id` once passes 1 and 2 are done.
  function ExpiredRow(r: Row, now: int, cfg: Config): Row {
    var scanned := if Hot(r) then ScanRow(r, now, cfg) else r;
    if Stale(scanned, now) && scanned.category != "core" then ExpireRow(scanned) else scanned
  }

  lemma ExpiredRowEdits(r: Row, now: int, cfg: Config)
    ensures TierEdit(r, ExpiredRow(r, now, cfg))
    ensures Stale(ExpiredRow(r, now, cfg), now) <==> Stale(r, now) && r.category == "core"
    ensures ExpiredRow(r, now, cfg).daysAtFloor ==
            if !Hot(r) then r.daysAtFloor else if AtFloor(r, now, cfg) then r.daysAtFloor + 1 else 0
  {
  }

  lemma EarlyPassesEdit(db: Db, now: int, cfg: Config)
    ensures TierEdits(db, AfterExpiry(db, now, cfg))
    ensures forall id :: id in db.mem ==> AfterExpiry(db, now, cfg).mem[id] == ExpiredRow(db.mem[id], now, cfg)
  {
    forall id | id in db.mem
      ensures TierEdit(db.mem[id], AfterExpiry(db, now, cfg).mem[id])
    {
      ExpiredRowEdits(db.mem[id], now, cfg);
    }
  }

  // What pass 4 may do to a row: nothing, or absorb a fading one into a summary.
  ghost predicate SummaryEdit(r: Row, r': Row, now: int, cfg: Config) {
    || r' == r
    || (Fading(r, now, cfg) && r'.supersededBy.Some?
        && r' == r.(isSuperseded := true, supersededBy := r'.supersededBy, isCold := true, coldSince := Some(now)))
  }

  ghost predicate NewSummary(r: Row) {
    && r.floor == FloorFor(r.category) && !r.isCold && !r.isStub && !r.isSuperseded && r.supersededBy.None?
    && r.daysAtFloor == 0 && r.retrievalCount == 0 && r.sessions == []
  }

  ghost predicate SummaryEdits(db: Db, after: Db, now: int, cfg: Config) {
    && after == db.(mem := after.mem, nextId := after.nextId) && db.nextId <= after.nextId
    && (forall id :: id in db.mem ==> id in after.mem && SummaryEdit(db.mem[id], after.mem[id], now, cfg))
    && (forall id :: id in after.mem && id !in db.mem ==> db.nextId <= id < after.nextId && NewSummary(after.mem[id]))
  }

  lemma AbsorbedIsSummaryEdit(db: Db, clusters: seq<Cluster>, after: Db, now: int, cfg: Config, id: Id)
    requires OthersKept(db, clusters, after) && OriginalsAbsorbed(db, clusters, after, now)
    requires SoundClusters(db.mem, clusters, now, cfg) && id in db.mem
    ensures id in after.mem && SummaryEdit(db.mem[id], after.mem[id], now, cfg)
  {
    if !Unclustered(clusters, id) {
      var i :| 0 <= i < |clusters| && id in clusters[i].members;
      assert SoundCluster(db.mem, clusters[i], now, cfg);
      assert after.mem[id] == Absorbed(db.mem[id], db.nextId + i, now);
    }
  }

  lemma CompressedIsSummaryEdits(db: Db, clusters: seq<Cluster>, after: Db, now: int, cfg: Config)
    requires CompressedTo(db, clusters, after, now) && SoundClusters(db.mem, clusters, now, cfg)
    ensures SummaryEdits(db, after, now, cfg)
  {
    forall id | id in db.mem
      ensures id in after.mem && SummaryEdit(db.mem[id], after.mem[id], now, cfg)
    {
      AbsorbedIsSummaryEdit(db, clusters, after, now, cfg, id);
    }
    forall id | id in after.mem && id !in db.mem
      ensures NewSummary(after.mem[id])
    {
      var i := id - db.nextId;
      assert FreshSummary(after.mem[db.nextId + i], clusters[i]);
    }
  }

  // The tables between the passes of one tick.
  ghost predicate Passes(db: Db, d2: Db, d3: Db, after: Db, now: int, cfg: Config) {
    TierEdits(db, d2) && ConflictEdits(d2, d3) && SummaryEdits(d3, after, now, cfg)
  }

  lemma TickPasses(db: Db, after: Db, log: TickLog, stamp: Stamp, cfg: Config)
    requires Bounded(db) && SoundQueue(db) && TickStep(db, after, log, stamp, cfg)
    ensures Passes(db, AfterExpiry(db, stamp.now, cfg), AfterConflicts(db, stamp.now, log, cfg), after, stamp.now, cfg)
    ensures SoundQueue(AfterExpiry(db, stamp.now, cfg)) && SoundQueue(AfterConflicts(db, stamp.now, log, cfg))
  {
    EarlyPassesEdit(db, stamp.now, cfg);
    TierEditsKeepQueue(db, AfterExpiry(db, stamp.now, cfg));
    ResolveEdits(AfterExpiry(db, stamp.now, cfg), log.batch, log.answers);
    CompressAllTo(AfterConflicts(db, stamp.now, log, cfg), log.clusters, log.summaries, stamp, cfg);
    CompressedIsSummaryEdits(AfterConflicts(db, stamp.now, log, cfg), log.clusters, after, stamp.now, cfg);
  }

  lemma TierEditsKeepQueue(db: Db, after: Db)
    requires SoundQueue(db) && TierEdits(db, after)
    ensures SoundQueue(after)
  {
    forall q | q in after.queue
      ensures Owns(after, after.queue[q].user, after.queue[q].newId) && Owns(after, after.queue[q].user, after.queue[q].existingId)
    {
      assert TierEdit(db.mem[db.queue[q].newId], after.mem[db.queue[q].newId]);
      assert TierEdit(db.mem[db.queue[q].existingId], after.mem[db.queue[q].existingId]);
    }
  }

  // -------------------------------------------------------------------------
  // Cold rows past their time to live
  // -------------------------------------------------------------------------

  ghost function LoserOf(db: Db, q: nat, answer: Option<Label>): set<Id> {
    if q in db.queue && VerdictOn(db, db.queue[q], answer).Supersede?
    then {VerdictOn(db, db.queue[q], answer).loser} else {}
  }

  // The rows a batch supersedes.
  ghost function Losers(db: Db, batch: seq<nat>, answers: seq<Option<Label>>): set<Id>
    requires |answers| == |batch|
  {
    if batch == [] then {}
    else
      var k := |batch| - 1;
      Losers(db, batch[..k], answers[..k]) + LoserOf(Resolve(db, batch[..k], answers[..k]), batch[k], answers[k])
  }

  predicate DemotedIf(r: Row, r': Row, lost: bool) {
    && r'.category == (if lost && r.category == "core" then "semantic" else r.category)
    && r'.isSuperseded == (r.isSuperseded || lost)
  }

  lemma OneDemotion(db: Db, q: nat, answer: Option<Label>, id: Id)
    requires SoundQueue(db) && id in db.mem
    ensures id in ResolveOne(db, q, answer).mem
    ensures DemotedIf(db.mem[id], ResolveOne(db, q, answer).mem[id], id in LoserOf(db, q, answer))
    ensures id in LoserOf(db, q, answer) ==> !db.mem[id].isSuperseded
  {
    if q in db.queue {
      VerdictIsSound(db, q, answer);
    }
  }

  lemma DemotionsCompose(r: Row, r': Row, r'': Row, lost: bool, lost': bool)
    requires DemotedIf(r, r', lost) && DemotedIf(r', r'', lost') && (lost' ==> !r'.isSuperseded)
    ensures DemotedIf(r, r'', lost || lost')
  {
  }

  // A loser is superseded and, if it was core, demoted; every other row keeps its category.
  lemma {:induction false} LosersAreDemoted(db: Db, batch: seq<nat>, answers: seq<Option<Label>>, id: Id)
    requires |answers| == |batch| && SoundQueue(db) && id in db.mem
    ensures id in Resolve(db, batch, answers).mem
    ensures DemotedIf(db.mem[id], Resolve(db, batch, answers).mem[id], id in Losers(db, batch, answers))
  {
    if batch != [] {
      var k := |batch| - 1;
      var mid := Resolve(db, batch[..k], answers[..k]);
      LosersAreDemoted(db, batch[..k], answers[..k], id);
      ResolveEdits(db, batch[..k], answers[..k]);
      OneDemotion(mid, batch[k], answers[k], id);
      DemotionsCompose(db.mem[id], mid.mem[id], ResolveOne(mid, batch[k], answers[k]).mem[id],
                       id in Losers(db, batch[..k], answers[..k]), id in LoserOf(mid, batch[k], answers[k]));
    }
  }

  // Cold, and not yet a stub, for more than 180 days.
  predicate LongCold(r: Row, now: int) {
    r.isCold && !r.isStub && r.coldSince.Some? && now - r.coldSince.value > 180 * 24 * 3600
  }

  ghost predicate Overdue(db: Db, now: int, id: Id) {
    id in db.mem && LongCold(db.mem[id], now) && db.mem[id].category != "core"
  }

  // No non-core row that is no stub has been cold for more than 180 days.
  ghost predicate TtlKept(db: Db, now: int) {
    forall id :: !Overdue(db, now, id)
  }

  ghost predicate StaleCore(db: Db, now: int, id: Id) {
    id in db.mem && LongCold(db.mem[id], now) && db.mem[id].category == "core"
  }

  ghost function TickLosers(db: Db, log: TickLog, now: int, cfg: Config): set<Id>
    requires |log.answers| == |log.batch|
  {
    Losers(AfterExpiry(db, now, cfg), log.batch, log.answers)
  }

  /**
    After a tick a non-core, non-stub row is cold for more than 180 days exactly when it was a core
    row that pass 2 spared and pass 3 then demoted.
   */
  lemma OverdueAfterTick(db: Db, after: Db, log: TickLog, stamp: Stamp, cfg: Config, id: Id)
    requires Bounded(db) && SoundQueue(db) && TickStep(db, after, log, stamp, cfg)
    ensures Overdue(after, stamp.now, id) <==> StaleCore(db, stamp.now, id) && id in TickLosers(db, log, stamp.now, cfg)
  {
    var (d2, d3) := (AfterExpiry(db, stamp.now, cfg), AfterConflicts(db, stamp.now, log, cfg));
    TickPasses(db, after, log, stamp, cfg);
    if id in db.mem {
      EarlyPassesEdit(db, stamp.now, cfg);
      ExpiredRowEdits(db.mem[id], stamp.now, cfg);
      LosersAreDemoted(d2, log.batch, log.answers, id);
      OverdueRow(db.mem[id], d2.mem[id], d3.mem[id], after.mem[id], id in TickLosers(db, log, stamp.now, cfg), stamp.now, cfg);
    }
  }

  lemma OverdueRow(r: Row, r2: Row, r3: Row, r4: Row, lost: bool, now: int, cfg: Config)
    requires TierEdit(r, r2) && ConflictEdit(r2, r3) && SummaryEdit(r3, r4, now, cfg)
    requires Stale(r2, now) <==> Stale(r, now) && r.category == "core"
    requires DemotedIf(r2, r3, lost)
    ensures (Stale(r4, now) && r4.category != "core") <==> (Stale(r, now) && r.category == "core" && lost)
  {
  }

  // -------------------------------------------------------------------------
  // Core rows and the floor rule
  // -------------------------------------------------------------------------

  predicate FloorByCategory(r: Row) {
    r.floor == FloorFor(r.category)
  }

  ghost predicate FloorRule(db: Db) {
    forall id :: id in db.mem ==> FloorByCategory(db.mem[id])
  }

  lemma CoreNeverFades(r: Row, now: int, cfg: Config)
    requires r.category == "core" && FloorByCategory(r)
    ensures !Fading(r, now, cfg)
  {
    if !r.isStub {
      FloorIsRespected(StateOf(r, cfg), now, cfg);
    }
  }

  lemma RowKeepsFloorRule(r: Row, r2: Row, r3: Row, r4: Row, now: int, cfg: Config)
    requires TierEdit(r, r2) && ConflictEdit(r2, r3) && SummaryEdit(r3, r4, now, cfg) && FloorByCategory(r)
    ensures FloorByCategory(r4)
    ensures r.category == "core" ==> r4.isCold == r.isCold && r4.isStub == r.isStub
  {
    assert FloorByCategory(r3);
    if r3.category == "core" {
      CoreNeverFades(r3, now, cfg);
    }
  }

  lemma TickKeepsFloorRule(db: Db, after: Db, log: TickLog, stamp: Stamp, cfg: Config)
    requires Bounded(db) && SoundQueue(db) && FloorRule(db) && TickStep(db, after, log, stamp, cfg)
    ensures FloorRule(after)
  {
    var (d2, d3) := (AfterExpiry(db, stamp.now, cfg), AfterConflicts(db, stamp.now, log, cfg));
    TickPasses(db, after, log, stamp, cfg);
    forall id | id in after.mem
      ensures FloorByCategory(after.mem[id])
    {
      if id in db.mem {
        RowKeepsFloorRule(db.mem[id], d2.mem[id], d3.mem[id], after.mem[id], stamp.now, cfg);
      } else {
        assert NewSummary(after.mem[id]);
      }
    }
  }

  /** While floors follow categories, no pass of a tick moves a core row between tiers. */
  lemma TickKeepsCoreTier(db: Db, after: Db, log: TickLog, stamp: Stamp, cfg: Config, id: Id)
    requires Bounded(db) && SoundQueue(db) && FloorRule(db) && TickStep(db, after, log, stamp, cfg)
    requires id in db.mem && db.mem[id].category == "core"
    ensures id in after.mem && after.mem[id].isCold == db.mem[id].isCold && after.mem[id].isStub == db.mem[id].isStub
  {
    var (d2, d3) := (AfterExpiry(db, stamp.now, cfg), AfterConflicts(db, stamp.now, log, cfg));
    TickPasses(db, after, log, stamp, cfg);
    RowKeepsFloorRule(db.mem[id], d2.mem[id], d3.mem[id], after.mem[id], stamp.now, cfg);
  }

  /** While floors follow categories, pass 1 moves nothing to cold: only client floors can trigger it. */
  lemma AutomaticColdNeedsAClientFloor(db: Db, now: int, cfg: Config, id: Id)
    requires FloorRule(db) && id in db.mem
    ensures ScanFloors(db, now, cfg).mem[id].isCold == db.mem[id].isCold
  {
    assert FloorByCategory(db.mem[id]);
  }

  // -------------------------------------------------------------------------
  // Counting and lineage
  // -------------------------------------------------------------------------

  lemma EarlyPassesKeepLineage(db: Db, d2: Db)
    requires TierEdits(db, d2)
    ensures LineageKept(db, d2) || !Bounded(db)
    ensures LiveSet(d2) == LiveSet(db)
    ensures Flagged(db) ==> Flagged(d2)
  {
    forall id | id in db.mem
      ensures SameLineage(db.mem[id], d2.mem[id])
    {
      assert TierEdit(db.mem[id], d2.mem[id]);
    }
  }

  /** The live rows lost in a tick: one per resolved conflict and four per summary. */
  lemma TickCountsLiveRows(db: Db, after: Db, log: TickLog, stamp: Stamp, cfg: Config)
    requires Bounded(db) && SoundQueue(db) && TickStep(db, after, log, stamp, cfg)
    ensures |LiveSet(after)| == |LiveSet(db)|
              - ResolvedCount(AfterExpiry(db, stamp.now, cfg), log.batch, log.answers) - 4 * |log.clusters|
    ensures |after.queue| == if |db.queue| < 50 then 0 else |db.queue| - 50
  {
    var (d2, d3) := (AfterExpiry(db, stamp.now, cfg), AfterConflicts(db, stamp.now, log, cfg));
    TickPasses(db, after, log, stamp, cfg);
    EarlyPassesKeepLineage(db, d2);
    ResolveCountsLosers(d2, log.batch, log.answers);
    ResolveDrainsBatch(d2, log.batch, log.answers);
    CompressAllCounts(d3, log.clusters, log.summaries, stamp, cfg);
  }

  lemma SummariesKeepFlags(db: Db, after: Db, now: int, cfg: Config)
    requires Flagged(db) && SummaryEdits(db, after, now, cfg)
    ensures Flagged(after)
  {
    forall id: Id | id in after.mem
      ensures after.mem[id].isSuperseded <==> after.mem[id].supersededBy.Some?
    {
      if id in db.mem {
        assert SummaryEdit(db.mem[id], after.mem[id], now, cfg);
      } else {
        assert NewSummary(after.mem[id]);
      }
    }
  }

  lemma TickKeepsFlags(db: Db, after: Db, log: TickLog, stamp: Stamp, cfg: Config)
    requires Bounded(db) && SoundQueue(db) && Flagged(db) && TickStep(db, after, log, stamp, cfg)
    ensures Flagged(AfterExpiry(db, stamp.now, cfg)) && Flagged(AfterConflicts(db, stamp.now, log, cfg)) && Flagged(after)
  {
    var (d2, d3) := (AfterExpiry(db, stamp.now, cfg), AfterConflicts(db, stamp.now, log, cfg));
    TickPasses(db, after, log, stamp, cfg);
    EarlyPassesKeepLineage(db, d2);
    ResolveKeepsFlags(d2, log.batch, log.answers);
    SummariesKeepFlags(d3, after, stamp.now, cfg);
  }

  // Pass 3 never supersedes all of a set of live memories whose conflicts stay within the set.
  lemma TickSparesSomeMember(db: Db, after: Db, log: TickLog, stamp: Stamp, cfg: Config, group: set<Id>)
    requires Bounded(db) && SoundQueue(db) && Flagged(db) && TickStep(db, after, log, stamp, cfg)
    requires group != {} && forall id: Id :: id in group ==> Live(db, id)
    requires ClosedUnderConflict(db.queue, log.batch, group)
    ensures exists id :: id in group && Live(AfterConflicts(db, stamp.now, log, cfg), id)
  {
    var d2 := AfterExpiry(db, stamp.now, cfg);
    TickPasses(db, after, log, stamp, cfg);
    TickKeepsFlags(db, after, log, stamp, cfg);
    EarlyPassesKeepLineage(db, d2);
    forall id: Id | id in group
      ensures Live(d2, id)
    {
      assert id in LiveSet(db) && id in LiveSet(d2);
    }
    SomeMemberSurvives(d2, log.batch, log.answers, group);
  }

  // Pass 4 leaves chains alone: it supersedes live rows only.
  lemma {:induction false} ChainSurvivesSummaries(db: Db, after: Db, now: int, cfg: Config, x: Id, y: Id, k: nat)
    requires Flagged(db) && SummaryEdits(db, after, now, cfg) && LeadsTo(db, x, y, k)
    ensures LeadsTo(after, x, y, k)
    decreases k
  {
    if k > 0 {
      assert SummaryEdit(db.mem[x], after.mem[x], now, cfg) && db.mem[x].isSuperseded;
      ChainSurvivesSummaries(db, after, now, cfg, db.mem[x].supersededBy.value, y, k - 1);
    }
  }

  // A live row is still live after the compressions, or its summary is.
  lemma RepresentedBySummary(db: Db, clusters: seq<Cluster>, after: Db, now: int, y: Id) returns (z: Id, k: nat)
    requires CompressedTo(db, clusters, after, now) && Live(db, y)
    ensures Live(after, z) && LeadsTo(after, y, z, k)
  {
    if Unclustered(clusters, y) {
      z, k := y, 0;
    } else {
      var i :| 0 <= i < |clusters| && y in clusters[i].members;
      z, k := db.nextId + i, 1;
      assert after.mem[y] == Absorbed(db.mem[y], z, now) && FreshSummary(after.mem[z], clusters[i]);
      assert LeadsTo(after, z, z, 0);
    }
  }

  // Pass 4 hands a chain on to a live row.
  lemma ChainHandedOn(d3: Db, clusters: seq<Cluster>, after: Db, now: int, cfg: Config, x: Id, y: Id, j: nat) returns (z: Id, k: nat)
    requires Flagged(d3) && SummaryEdits(d3, after, now, cfg) && CompressedTo(d3, clusters, after, now)
    requires Live(d3, y) && LeadsTo(d3, x, y, j)
    ensures Live(after, z) && LeadsTo(after, x, z, k)
  {
    ChainSurvivesSummaries(d3, after, now, cfg, x, y, j);
    z, k := RepresentedBySummary(d3, clusters, after, now, y);
    Concat(after, x, y, z, j, k);
    k := j + k;
  }

  /** Through all four passes, every live memory leads afterwards to a live one that represents it. */
  lemma TickLeavesARepresentative(db: Db, after: Db, log: TickLog, stamp: Stamp, cfg: Config, x: Id) returns (z: Id, k: nat)
    requires Bounded(db) && SoundQueue(db) && Flagged(db) && TickStep(db, after, log, stamp, cfg) && Live(db, x)
    ensures Live(after, z) && LeadsTo(after, x, z, k)
  {
    var y, j := SurvivorOfConflicts(db, after, log, stamp, cfg, x);
    TickPasses(db, after, log, stamp, cfg);
    TickKeepsFlags(db, after, log, stamp, cfg);
    CompressedInTick(db, after, log, stamp, cfg);
    z, k := ChainHandedOn(AfterConflicts(db, stamp.now, log, cfg), log.clusters, after, stamp.now, cfg, x, y, j);
  }

  lemma CompressedInTick(db: Db, after: Db, log: TickLog, stamp: Stamp, cfg: Config)
    requires Bounded(db) && TickStep(db, after, log, stamp, cfg)
    ensures CompressedTo(AfterConflicts(db, stamp.now, log, cfg), log.clusters, after, stamp.now)
  {
    ResolveKeepsIds(AfterExpiry(db, stamp.now, cfg), log.batch, log.answers);
    CompressAllTo(AfterConflicts(db, stamp.now, log, cfg), log.clusters, log.summaries, stamp, cfg);
  }

  lemma SurvivorOfConflicts(db: Db, after: Db, log: TickLog, stamp: Stamp, cfg: Config, x: Id) returns (y: Id, j: nat)
    requires Bounded(db) && SoundQueue(db) && Flagged(db) && TickStep(db, after, log, stamp, cfg) && Live(db, x)
    ensures var d3 := AfterConflicts(db, stamp.now, log, cfg); Live(d3, y) && LeadsTo(d3, x, y, j)
  {
    var d2 := AfterExpiry(db, stamp.now, cfg);
    TickPasses(db, after, log, stamp, cfg);
    TickKeepsFlags(db, after, log, stamp, cfg);
    EarlyPassesKeepLineage(db, d2);
    assert x in LiveSet(db) && x in LiveSet(d2);
    y, j := EveryMemoryHasASurvivor(d2, log.batch, log.answers, x);
  }

  lemma TickKeepsForest(db: Db, after: Db, log: TickLog, stamp: Stamp, cfg: Config)
    requires Forest(db) && SoundQueue(db) && TickStep(db, after, log, stamp, cfg)
    ensures Forest(after)
  {
    var (d2, d3) := (AfterExpiry(db, stamp.now, cfg), AfterConflicts(db, stamp.now, log, cfg));
    TickPasses(db, after, log, stamp, cfg);
    EarlyPassesKeepLineage(db, d2);
    KeptLineageIsForest(db, d2);
    ResolveKeepsForest(d2, log.batch, log.answers);
    CompressAllCounts(d3, log.clusters, log.summaries, stamp, cfg);
  }
}
