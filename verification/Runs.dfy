/** What holds in every run of the daemon, whatever clients, the LLM and the clock do. */
module Runs {
  import opened Lifecycle
  import opened Collections
  import opened Tables
  import opened Hits
  import opened Lineage
  import opened Associations
  import opened Retrieval
  import opened Tick
  import opened Requests
  import opened Steps
  import C = Conflicts
  import Cos = Cosine
  import I = Ingest
  import P = Compression
  import S = Consolidation
  import X = Searching
  import K = Ranking

  // -------------------------------------------------------------------------
  // One step
  // -------------------------------------------------------------------------

  lemma NextKeepsTables(db: Db, req: Request, after: Db, cfg: Config)
    requires cfg.intervalDays != 0.0 && SoundTables(db) && Next(db, req, after, cfg)
    ensures SoundTables(after)
    ensures Symmetric(db.assoc) && !OneSided(req) ==> Symmetric(after.assoc)
    ensures db.nextId <= after.nextId
  {
    if req.Tick? {
      TickKeepsTables(db, after, req.log, req.stamp, cfg);
    } else {
      RequestKeepsTables(db, req, cfg);
      RequestRows(db, req, cfg);
    }
  }

  lemma NextKeepsForest(db: Db, req: Request, after: Db, cfg: Config)
    requires cfg.intervalDays != 0.0 && SoundTables(db) && Forest(db) && Next(db, req, after, cfg) && !req.MarkSuperseded?
    ensures Forest(after)
  {
    if req.Tick? {
      TickKeepsForest(db, after, req.log, req.stamp, cfg);
    } else {
      RequestRows(db, req, cfg);
      RowsStepIsLineageKept(db, req, after);
      KeptLineageIsForest(db, after);
    }
  }

  lemma RowsStepIsLineageKept(db: Db, req: Request, after: Db)
    requires RowsStep(db, req, after) && !req.MarkSuperseded?
    ensures LineageKept(db, after)
  {
    forall id | id in after.mem
      ensures if id in db.mem then SameLineage(db.mem[id], after.mem[id])
              else db.nextId <= id < after.nextId && !after.mem[id].isSuperseded && after.mem[id].supersededBy.None?
    {
      assert BornAfter(db, after, id);
    }
  }

  lemma NextKeepsFloorRule(db: Db, req: Request, after: Db, cfg: Config)
    requires cfg.intervalDays != 0.0 && SoundTables(db) && FloorRule(db) && Next(db, req, after, cfg) && !SetsFloors(req)
    ensures FloorRule(after)
  {
    if req.Tick? {
      TickKeepsFloorRule(db, after, req.log, req.stamp, cfg);
    } else {
      RequestRows(db, req, cfg);
      forall id | id in after.mem
        ensures FloorByCategory(after.mem[id])
      {
        assert BornAfter(db, after, id);
      }
    }
  }

  // -------------------------------------------------------------------------
  // Every run
  // -------------------------------------------------------------------------

  // One more request continues a run.
  lemma Continued(states: seq<Db>, reqs: seq<Request>, req: Request, after: Db, cfg: Config)
    returns (states': seq<Db>, reqs': seq<Request>)
    requires cfg.intervalDays != 0.0 && Run(states, reqs, cfg) && Next(states[|reqs|], req, after, cfg)
    ensures states' == states + [after] && reqs' == reqs + [req] && Run(states', reqs', cfg)
  {
    states', reqs' := states + [after], reqs + [req];
    forall i | 0 <= i < |reqs'|
      ensures StepAt(states', reqs', cfg, i)
    {
      if i < |reqs| {
        EarlierStep(states, reqs, states', reqs', cfg, i);
      }
    }
  }

  lemma EarlierStep(states: seq<Db>, reqs: seq<Request>, states': seq<Db>, reqs': seq<Request>, cfg: Config, i: nat)
    requires cfg.intervalDays != 0.0 && Run(states, reqs, cfg) && i < |reqs|
    requires states <= states' && reqs <= reqs' && |states'| == |reqs'| + 1
    ensures StepAt(states', reqs', cfg, i)
  {
    assert StepAt(states, reqs, cfg, i);
    assert states'[i] == states[i] && reqs'[i] == reqs[i] && states'[i + 1] == states[i + 1];
  }

  // The steps of a run.
  lemma StepKeepsTablesIn(states: seq<Db>, reqs: seq<Request>, cfg: Config, n: nat)
    requires cfg.intervalDays != 0.0 && Run(states, reqs, cfg) && n < |reqs| && SoundTables(states[n])
    ensures SoundTables(states[n + 1]) && states[n].nextId <= states[n + 1].nextId
  {
    assert StepAt(states, reqs, cfg, n);
    NextKeepsTables(states[n], reqs[n], states[n + 1], cfg);
  }

  lemma StepKeepsForestIn(states: seq<Db>, reqs: seq<Request>, cfg: Config, n: nat)
    requires cfg.intervalDays != 0.0 && Run(states, reqs, cfg) && n < |reqs| && !reqs[n].MarkSuperseded?
    requires SoundTables(states[n]) && Forest(states[n])
    ensures Forest(states[n + 1])
  {
    assert StepAt(states, reqs, cfg, n);
    NextKeepsForest(states[n], reqs[n], states[n + 1], cfg);
  }

  lemma StepKeepsFloorRuleIn(states: seq<Db>, reqs: seq<Request>, cfg: Config, n: nat)
    requires cfg.intervalDays != 0.0 && Run(states, reqs, cfg) && n < |reqs| && !SetsFloors(reqs[n])
    requires SoundTables(states[n]) && FloorRule(states[n])
    ensures FloorRule(states[n + 1])
  {
    assert StepAt(states, reqs, cfg, n);
    NextKeepsFloorRule(states[n], reqs[n], states[n + 1], cfg);
  }

  lemma TickIn(states: seq<Db>, reqs: seq<Request>, cfg: Config, n: nat)
    requires cfg.intervalDays != 0.0 && Run(states, reqs, cfg) && n < |reqs| && reqs[n].Tick?
    ensures TickStep(states[n], states[n + 1], reqs[n].log, reqs[n].stamp, cfg)
  {
    assert StepAt(states, reqs, cfg, n);
  }

  /**
    Every association weight lies in [0, 1] and both its endpoints exist, in every reachable state,
    even when the halves of `create_or_strengthen` interleave with other writers.
   */
  lemma {:induction false} TablesStaySound(states: seq<Db>, reqs: seq<Request>, cfg: Config, n: nat)
    requires cfg.intervalDays != 0.0 && Run(states, reqs, cfg) && n < |states|
    ensures SoundTables(states[n])
  {
    if n > 0 {
      TablesStaySound(states, reqs, cfg, n - 1);
      StepKeepsTablesIn(states, reqs, cfg, n - 1);
    }
  }

  /** Without the client's MarkSuperseded, `superseded_by` is a forest within each user. */
  lemma {:induction false} LineageStaysAForest(states: seq<Db>, reqs: seq<Request>, cfg: Config, n: nat)
    requires cfg.intervalDays != 0.0 && Run(states, reqs, cfg) && n < |states|
    requires forall i :: 0 <= i < n ==> !reqs[i].MarkSuperseded?
    ensures Forest(states[n])
  {
    if n == 0 {
      EmptyIsForest();
    } else {
      LineageStaysAForest(states, reqs, cfg, n - 1);
      TablesStaySound(states, reqs, cfg, n - 1);
      StepKeepsForestIn(states, reqs, cfg, n - 1);
    }
  }

  /** ... so from any row the chain ends, without repetition, at a live row of the same user or at a deleted id. */
  lemma EveryLineageEnds(states: seq<Db>, reqs: seq<Request>, cfg: Config, n: nat, x: Id) returns (y: Id, k: nat)
    requires cfg.intervalDays != 0.0 && Run(states, reqs, cfg) && n < |states|
    requires forall i :: 0 <= i < n ==> !reqs[i].MarkSuperseded?
    requires x in states[n].mem
    ensures LeadsTo(states[n], x, y, k)
    ensures y in states[n].mem ==> Live(states[n], y) && states[n].mem[y].user == states[n].mem[x].user
    ensures forall j: nat :: LeadsTo(states[n], x, x, j) ==> j == 0
  {
    LineageStaysAForest(states, reqs, cfg, n);
    y, k := EveryChainEnds(states[n], x);
    forall j: nat | LeadsTo(states[n], x, x, j)
      ensures j == 0
    {
      NoCycle(states[n], x, j);
    }
  }

  /** Without client floor writes, the floor is 0.6 exactly for core rows and 0 for all others. */
  lemma {:induction false} FloorsFollowCategories(states: seq<Db>, reqs: seq<Request>, cfg: Config, n: nat)
    requires cfg.intervalDays != 0.0 && Run(states, reqs, cfg) && n < |states|
    requires forall i :: 0 <= i < n ==> !SetsFloors(reqs[i])
    ensures FloorRule(states[n])
  {
    if n > 0 {
      FloorsFollowCategories(states, reqs, cfg, n - 1);
      TablesStaySound(states, reqs, cfg, n - 1);
      StepKeepsFloorRuleIn(states, reqs, cfg, n - 1);
    }
  }

  /** ... so no tick of such a run moves a row that was core when it began to cold or to a stub. */
  lemma TicksSpareCoreRows(states: seq<Db>, reqs: seq<Request>, cfg: Config, n: nat, id: Id)
    requires cfg.intervalDays != 0.0 && Run(states, reqs, cfg) && n < |reqs| && reqs[n].Tick?
    requires forall i :: 0 <= i < n ==> !SetsFloors(reqs[i])
    requires id in states[n].mem && states[n].mem[id].category == "core"
    ensures id in states[n + 1].mem
    ensures states[n + 1].mem[id].isCold == states[n].mem[id].isCold
    ensures states[n + 1].mem[id].isStub == states[n].mem[id].isStub
  {
    FloorsFollowCategories(states, reqs, cfg, n);
    TablesStaySound(states, reqs, cfg, n);
    TickIn(states, reqs, cfg, n);
    TickKeepsCoreTier(states[n], states[n + 1], reqs[n].log, reqs[n].stamp, cfg, id);
  }

  /** ... and pass 1 of such a tick moves nothing to cold at all. */
  lemma NothingCoolsWithoutClientFloors(states: seq<Db>, reqs: seq<Request>, cfg: Config, n: nat, id: Id)
    requires cfg.intervalDays != 0.0 && Run(states, reqs, cfg) && n < |reqs| && reqs[n].Tick?
    requires forall i :: 0 <= i < n ==> !SetsFloors(reqs[i])
    requires id in states[n].mem
    ensures ScanFloors(states[n], reqs[n].stamp.now, cfg).mem[id].isCold == states[n].mem[id].isCold
  {
    FloorsFollowCategories(states, reqs, cfg, n);
    AutomaticColdNeedsAClientFloor(states[n], reqs[n].stamp.now, cfg, id);
  }

  lemma NextKeepsFlags(db: Db, req: Request, after: Db, cfg: Config)
    requires cfg.intervalDays != 0.0 && SoundTables(db) && Flagged(db) && Next(db, req, after, cfg)
    ensures Flagged(after)
  {
    if req.Tick? {
      TickKeepsFlags(db, after, req.log, req.stamp, cfg);
    } else if !req.MarkSuperseded? {
      RequestRows(db, req, cfg);
      RowsStepIsLineageKept(db, req, after);
    }
  }

  lemma StepKeepsFlagsIn(states: seq<Db>, reqs: seq<Request>, cfg: Config, n: nat)
    requires cfg.intervalDays != 0.0 && Run(states, reqs, cfg) && n < |reqs| && SoundTables(states[n]) && Flagged(states[n])
    ensures Flagged(states[n + 1])
  {
    assert StepAt(states, reqs, cfg, n);
    NextKeepsFlags(states[n], reqs[n], states[n + 1], cfg);
  }

  /** In every run, MarkSuperseded included, the superseded flag agrees with the reference. */
  lemma {:induction false} FlagsAgree(states: seq<Db>, reqs: seq<Request>, cfg: Config, n: nat)
    requires cfg.intervalDays != 0.0 && Run(states, reqs, cfg) && n < |states|
    ensures Flagged(states[n])
  {
    if n > 0 {
      FlagsAgree(states, reqs, cfg, n - 1);
      TablesStaySound(states, reqs, cfg, n - 1);
      StepKeepsFlagsIn(states, reqs, cfg, n - 1);
    }
  }

  /** A tick of any run loses one live row per resolved conflict and four per summary. */
  lemma TicksConserveLiveRows(states: seq<Db>, reqs: seq<Request>, cfg: Config, n: nat)
    requires cfg.intervalDays != 0.0 && Run(states, reqs, cfg) && n < |reqs| && reqs[n].Tick?
    ensures |reqs[n].log.answers| == |reqs[n].log.batch|
    ensures var resolved := C.ResolvedCount(AfterExpiry(states[n], reqs[n].stamp.now, cfg), reqs[n].log.batch, reqs[n].log.answers);
            && |C.LiveSet(states[n + 1])| == |C.LiveSet(states[n])| - resolved - 4 * |reqs[n].log.clusters|
            && |reqs[n].log.clusters| <= 5
            && |states[n + 1].queue| == if |states[n].queue| < 50 then 0 else |states[n].queue| - 50
  {
    TablesStaySound(states, reqs, cfg, n);
    TickIn(states, reqs, cfg, n);
    TickCountsLiveRows(states[n], states[n + 1], reqs[n].log, reqs[n].stamp, cfg);
  }

  /**
    At every tick of every run, for any answers, the conflict batch leaves some member of a non-empty set
    of live memories live, if the entries of the batch pair members with members only.
   */
  lemma TicksSpareSomeMember(states: seq<Db>, reqs: seq<Request>, cfg: Config, n: nat, group: set<Id>)
    requires cfg.intervalDays != 0.0 && Run(states, reqs, cfg) && n < |reqs| && reqs[n].Tick?
    requires group != {} && forall id: Id :: id in group ==> Live(states[n], id)
    requires C.ClosedUnderConflict(states[n].queue, reqs[n].log.batch, group)
    ensures |reqs[n].log.answers| == |reqs[n].log.batch|
    ensures exists id :: id in group && Live(AfterConflicts(states[n], reqs[n].stamp.now, reqs[n].log, cfg), id)
  {
    TablesStaySound(states, reqs, cfg, n);
    FlagsAgree(states, reqs, cfg, n);
    TickIn(states, reqs, cfg, n);
    TickSparesSomeMember(states[n], states[n + 1], reqs[n].log, reqs[n].stamp, cfg, group);
  }

  /** At every tick of every run, each live memory leads afterwards to a live one: itself, a winner or a summary. */
  lemma TicksLeaveARepresentative(states: seq<Db>, reqs: seq<Request>, cfg: Config, n: nat, x: Id) returns (z: Id, k: nat)
    requires cfg.intervalDays != 0.0 && Run(states, reqs, cfg) && n < |reqs| && reqs[n].Tick? && Live(states[n], x)
    ensures Live(states[n + 1], z) && LeadsTo(states[n + 1], x, z, k)
  {
    TablesStaySound(states, reqs, cfg, n);
    FlagsAgree(states, reqs, cfg, n);
    TickIn(states, reqs, cfg, n);
    z, k := TickLeavesARepresentative(states[n], states[n + 1], reqs[n].log, reqs[n].stamp, cfg, x);
  }

  // Five hot memories of one user and category that faded below a fifth, each at least 0.7 similar to the first.
  ghost predicate FadedTogether(db: Db, c: S.Cluster, now: int, cfg: Config) {
    && |c.members| == 5 && NoDup(c.members)
    && (forall id :: id in c.members ==>
          && id in db.mem && db.mem[id].user == c.user && db.mem[id].category == c.category
          && Hot(db.mem[id]) && db.mem[id].embedding.Some? && Retention(db.mem[id], now, cfg) < 0.2)
    && (forall i :: 1 <= i < 5 ==>
          |Vec(db.mem[c.members[i]])| == |Vec(db.mem[c.members[0]])| > 0
          && Cos.Similarity(Vec(db.mem[c.members[0]]), Vec(db.mem[c.members[i]]), cfg.sqrt) >= 0.7)
  }

  // The members of a cluster are superseded by its summary and cold from now on, and otherwise unchanged.
  ghost predicate GaveWayTo(db: Db, after: Db, c: S.Cluster, summary: Id, now: int) {
    forall id :: id in c.members ==>
      && id in db.mem && id in after.mem
      && after.mem[id] == db.mem[id].(isSuperseded := true, supersededBy := Some(summary), isCold := true, coldSince := Some(now))
  }

  lemma ClusterIsFadedTogether(db: Db, c: S.Cluster, now: int, cfg: Config)
    requires S.SoundCluster(db.mem, c, now, cfg)
    ensures FadedTogether(db, c, now, cfg)
  {
  }

  lemma MembersGaveWay(d3: Db, clusters: seq<S.Cluster>, after: Db, now: int, i: nat)
    requires i < |clusters| && P.OriginalsAbsorbed(d3, clusters, after, now)
    ensures GaveWayTo(d3, after, clusters[i], d3.nextId + i, now)
  {
  }

  ghost predicate InOneCluster(clusters: seq<S.Cluster>, i: nat)
    requires i < |clusters|
  {
    forall j, id :: 0 <= j < |clusters| && j != i && id in clusters[i].members ==> id !in clusters[j].members
  }

  // Cluster `i` of a tick, the rows before and after its compression, and its summary.
  ghost predicate Summarised(d3: Db, after: Db, log: TickLog, stamp: S.Stamp, cfg: Config, i: nat)
    requires i < |log.clusters| == |log.summaries|
  {
    && FadedTogether(d3, log.clusters[i], stamp.now, cfg)
    && InOneCluster(log.clusters, i)
    && GaveWayTo(d3, after, log.clusters[i], d3.nextId + i, stamp.now)
    && P.SpeaksAt(d3, log.clusters, log.summaries, after, stamp, i)
  }

  lemma SummaryIsWritten(d3: Db, after: Db, log: TickLog, stamp: S.Stamp, cfg: Config, i: nat)
    requires i < |log.clusters| == |log.summaries| && P.Bounded(d3)
    requires S.SoundClusters(d3.mem, log.clusters, stamp.now, cfg) && after == S.CompressAll(d3, log.clusters, log.summaries, stamp)
    ensures Summarised(d3, after, log, stamp, cfg, i)
  {
    ClusterIsFadedTogether(d3, log.clusters[i], stamp.now, cfg);
    assert GaveWayTo(d3, after, log.clusters[i], d3.nextId + i, stamp.now) by {
      P.CompressAllTo(d3, log.clusters, log.summaries, stamp, cfg);
      MembersGaveWay(d3, log.clusters, after, stamp.now, i);
    }
    assert P.SpeaksAt(d3, log.clusters, log.summaries, after, stamp, i) by {
      P.CompressAllSpeaks(d3, log.clusters, log.summaries, stamp, cfg);
    }
  }

  /**
    At every tick of every run each cluster is of five distinct memories that faded together, no memory is in
    two, and the summary that takes their place speaks for them.
   */
  lemma TicksSummariseWhatFaded(states: seq<Db>, reqs: seq<Request>, cfg: Config, n: nat, i: nat)
    requires cfg.intervalDays != 0.0 && Run(states, reqs, cfg) && n < |reqs| && reqs[n].Tick?
    requires i < |reqs[n].log.clusters|
    ensures |reqs[n].log.answers| == |reqs[n].log.batch| && |reqs[n].log.summaries| == |reqs[n].log.clusters|
    ensures AfterConflicts(states[n], reqs[n].stamp.now, reqs[n].log, cfg).nextId == states[n].nextId
    ensures Summarised(AfterConflicts(states[n], reqs[n].stamp.now, reqs[n].log, cfg), states[n + 1], reqs[n].log, reqs[n].stamp, cfg, i)
  {
    TablesStaySound(states, reqs, cfg, n);
    TickIn(states, reqs, cfg, n);
    ResolveKeepsIdsInTick(states[n], reqs[n].stamp.now, reqs[n].log, cfg);
    SummaryIsWritten(AfterConflicts(states[n], reqs[n].stamp.now, reqs[n].log, cfg), states[n + 1], reqs[n].log, reqs[n].stamp, cfg, i);
  }

  lemma ResolveKeepsIdsInTick(db: Db, now: int, log: TickLog, cfg: Config)
    requires |log.answers| == |log.batch| && P.Bounded(db)
    ensures AfterConflicts(db, now, log, cfg).nextId == db.nextId && P.Bounded(AfterConflicts(db, now, log, cfg))
  {
    ResolveKeepsIds(AfterExpiry(db, now, cfg), log.batch, log.answers);
  }

  // -------------------------------------------------------------------------
  // The floor counter
  // -------------------------------------------------------------------------

  // What a row lives through that concerns its floor counter.
  datatype Event = RestoredToHot | Scanned(atFloor: bool)

  // The floor is positive and the retention within a billionth of it.
  predicate SeenAtFloor(r: Row, now: int, cfg: Config) {
    r.floor > 0.0 && r.floor - 0.000000001 < Retention(r, now, cfg) < r.floor + 0.000000001
  }

  ghost function EventsOf(db: Db, req: Request, id: Id, cfg: Config): seq<Event> {
    if id !in db.mem then []
    else if req.Tick? then (if Hot(db.mem[id]) then [Scanned(SeenAtFloor(db.mem[id], req.stamp.now, cfg))] else [])
    else if Restores(db, req, id) then [RestoredToHot]
    else []
  }

  ghost function History(states: seq<Db>, reqs: seq<Request>, id: Id, n: nat, cfg: Config): seq<Event>
    requires n <= |reqs| && |states| == |reqs| + 1
  {
    if n == 0 then [] else History(states, reqs, id, n - 1, cfg) + EventsOf(states[n - 1], reqs[n - 1], id, cfg)
  }

  // The number of latest events that are consecutive scans at the floor.
  ghost function Streak(events: seq<Event>): nat {
    if events == [] || events[|events| - 1] != Scanned(true) then 0 else 1 + Streak(events[..|events| - 1])
  }

  /** The streak is the longest suffix of scans that all saw the row at a positive floor. */
  lemma {:induction false} StreakIsLongestSuffix(events: seq<Event>)
    ensures var k := Streak(events);
            && k <= |events|
            && (forall i :: |events| - k <= i < |events| ==> events[i] == Scanned(true))
            && (k < |events| ==> events[|events| - 1 - k] != Scanned(true))
  {
    if events != [] && events[|events| - 1] == Scanned(true) {
      StreakIsLongestSuffix(events[..|events| - 1]);
    }
  }

  lemma StreakStep(events: seq<Event>, e: Event)
    ensures Streak(events + [e]) == if e == Scanned(true) then Streak(events) + 1 else 0
  {
    assert (events + [e])[..|events|] == events;
  }

  // What one request does to the counter of a row.
  ghost predicate Counts(db: Db, req: Request, after: Db, cfg: Config, id: Id) {
    id in after.mem ==>
      if id in db.mem then
        var events := EventsOf(db, req, id, cfg);
        after.mem[id].daysAtFloor == (if events == [] then db.mem[id].daysAtFloor
                                      else if events[0] == Scanned(true) then db.mem[id].daysAtFloor + 1 else 0)
      else db.nextId <= id && after.mem[id].daysAtFloor == 0
  }

  lemma NextCounts(db: Db, req: Request, after: Db, cfg: Config, id: Id)
    requires cfg.intervalDays != 0.0 && SoundTables(db) && Next(db, req, after, cfg)
    ensures Counts(db, req, after, cfg, id)
  {
    if id in after.mem {
      if req.Tick? {
        TickCounter(db, after, req.log, req.stamp, cfg, id);
      } else {
        RequestRows(db, req, cfg);
        assert BornAfter(db, after, id);
      }
    }
  }

  ghost predicate CountsAt(states: seq<Db>, reqs: seq<Request>, cfg: Config, i: nat, id: Id)
    requires |states| == |reqs| + 1 && i < |reqs|
  {
    Counts(states[i], reqs[i], states[i + 1], cfg, id)
  }

  // The part of a run that concerns counters.
  ghost predicate Chronicle(states: seq<Db>, reqs: seq<Request>, cfg: Config) {
    && |states| == |reqs| + 1
    && states[0] == EMPTY
    && (forall i :: 0 <= i < |states| ==> P.Bounded(states[i]))
    && (forall i :: 0 <= i < |reqs| ==> states[i].nextId <= states[i + 1].nextId)
    && (forall i: nat, id: Id :: i < |reqs| ==> CountsAt(states, reqs, cfg, i, id))
  }

  lemma StepCountsIn(states: seq<Db>, reqs: seq<Request>, cfg: Config, n: nat, id: Id)
    requires cfg.intervalDays != 0.0 && Run(states, reqs, cfg) && n < |reqs| && SoundTables(states[n])
    ensures CountsAt(states, reqs, cfg, n, id)
  {
    assert StepAt(states, reqs, cfg, n);
    NextCounts(states[n], reqs[n], states[n + 1], cfg, id);
  }

  lemma RunIsChronicle(states: seq<Db>, reqs: seq<Request>, cfg: Config)
    requires cfg.intervalDays != 0.0 && Run(states, reqs, cfg)
    ensures Chronicle(states, reqs, cfg)
  {
    forall i | 0 <= i < |states|
      ensures P.Bounded(states[i])
    {
      TablesStaySound(states, reqs, cfg, i);
    }
    forall i | 0 <= i < |reqs|
      ensures states[i].nextId <= states[i + 1].nextId
    {
      TablesStaySound(states, reqs, cfg, i);
      StepKeepsTablesIn(states, reqs, cfg, i);
    }
    forall i: nat, id: Id | i < |reqs|
      ensures CountsAt(states, reqs, cfg, i, id)
    {
      TablesStaySound(states, reqs, cfg, i);
      StepCountsIn(states, reqs, cfg, i, id);
    }
  }

  lemma {:induction false} NoHistoryBeforeBirth(states: seq<Db>, reqs: seq<Request>, cfg: Config, n: nat, id: Id)
    requires Chronicle(states, reqs, cfg) && n < |states| && states[n].nextId <= id
    ensures History(states, reqs, id, n, cfg) == []
  {
    if n > 0 {
      assert states[n - 1].nextId <= states[n - 1 + 1].nextId;
      NoHistoryBeforeBirth(states, reqs, cfg, n - 1, id);
      assert P.Bounded(states[n - 1]);
    }
  }

  lemma {:induction false} ChronicleCounts(states: seq<Db>, reqs: seq<Request>, cfg: Config, n: nat, id: Id)
    requires Chronicle(states, reqs, cfg) && n < |states| && id in states[n].mem
    ensures states[n].mem[id].daysAtFloor == Streak(History(states, reqs, id, n, cfg))
  {
    if n > 0 {
      var (db, req) := (states[n - 1], reqs[n - 1]);
      assert CountsAt(states, reqs, cfg, n - 1, id);
      var past := History(states, reqs, id, n - 1, cfg);
      if id in db.mem {
        ChronicleCounts(states, reqs, cfg, n - 1, id);
        var events := EventsOf(db, req, id, cfg);
        if events == [] {
          assert past + events == past;
        } else {
          assert events == [events[0]];
          StreakStep(past, events[0]);
        }
      } else {
        NoHistoryBeforeBirth(states, reqs, cfg, n - 1, id);
      }
    }
  }

  lemma LaterPassesKeepCounter(r2: Row, r3: Row, r4: Row, now: int, cfg: Config)
    requires C.ConflictEdit(r2, r3) && SummaryEdit(r3, r4, now, cfg)
    ensures r4.daysAtFloor == r2.daysAtFloor
  {
  }

  lemma TickCounter(db: Db, after: Db, log: TickLog, stamp: S.Stamp, cfg: Config, id: Id)
    requires P.Bounded(db) && C.SoundQueue(db) && TickStep(db, after, log, stamp, cfg) && id in after.mem
    ensures if id in db.mem
            then after.mem[id].daysAtFloor == (if !Hot(db.mem[id]) then db.mem[id].daysAtFloor
                                               else if AtFloor(db.mem[id], stamp.now, cfg) then db.mem[id].daysAtFloor + 1 else 0)
            else db.nextId <= id && after.mem[id].daysAtFloor == 0
  {
    var (d2, d3) := (AfterExpiry(db, stamp.now, cfg), AfterConflicts(db, stamp.now, log, cfg));
    TickPasses(db, after, log, stamp, cfg);
    if id in db.mem {
      EarlyPassesEdit(db, stamp.now, cfg);
      ExpiredRowEdits(db.mem[id], stamp.now, cfg);
      LaterPassesKeepCounter(d2.mem[id], d3.mem[id], after.mem[id], stamp.now, cfg);
    } else {
      assert NewSummary(after.mem[id]);
    }
  }

  /**
    Along every run `days_at_floor` is the number of consecutive latest tick scans, since creation
    or the last restore to hot, that saw the row at a positive floor.
   */
  lemma FloorCounterIsStreak(states: seq<Db>, reqs: seq<Request>, cfg: Config, n: nat, id: Id)
    requires cfg.intervalDays != 0.0 && Run(states, reqs, cfg) && n < |states| && id in states[n].mem
    ensures states[n].mem[id].daysAtFloor == Streak(History(states, reqs, id, n, cfg))
  {
    RunIsChronicle(states, reqs, cfg);
    ChronicleCounts(states, reqs, cfg, n, id);
  }

  /** A tick's first pass makes a scanned non-core row cold exactly when that count reaches seven or more. */
  lemma ColdExactlyAtSeven(states: seq<Db>, reqs: seq<Request>, cfg: Config, n: nat, id: Id)
    requires cfg.intervalDays != 0.0 && Run(states, reqs, cfg) && n < |reqs| && reqs[n].Tick?
    requires id in states[n].mem && Hot(states[n].mem[id]) && states[n].mem[id].category != "core"
    ensures ScanFloors(states[n], reqs[n].stamp.now, cfg).mem[id].isCold <==>
            Streak(History(states, reqs, id, n + 1, cfg)) >= 7
  {
    FloorCounterIsStreak(states, reqs, cfg, n, id);
    StreakStep(History(states, reqs, id, n, cfg), Scanned(SeenAtFloor(states[n].mem[id], reqs[n].stamp.now, cfg)));
  }

  // -------------------------------------------------------------------------
  // Ingest in a run
  // -------------------------------------------------------------------------

  function RowOf(req: Request): Row
    requires req.Store?
  {
    I.StoredRow(req.user, req.content, req.category, req.importance, req.vector, req.stamp.provider, req.stamp.model, req.stamp.now)
  }

  lemma FreshIsUnconnected(db: Db, row: Row)
    requires SoundTables(db)
    ensures I.Unconnected(Insert(db, row), db.nextId)
  {
  }

  // A memory as it is first written: hot, unread, dated now, and with the protected floor if it is core.
  ghost predicate JustStored(r: Row, user: string, content: string, category: string, vector: seq<real>, stamp: S.Stamp) {
    && r.user == user && r.content == content && r.category == category && r.embedding == Some(vector)
    && r.provider == stamp.provider && r.model == stamp.model && r.createdAt == stamp.now && r.lastAccessedAt == stamp.now
    && r.validFrom.None? && r.validUntil.None? && r.retrievalCount == 0 && r.sessions == []
    && r.floor == (if category == "core" then 0.6 else 0.0)
    && Hot(r) && r.coldSince.None? && r.daysAtFloor == 0 && r.supersededBy.None? && r.contradictedBy.None? && r.stubContent.None?
  }

  // The importance lies in [0, 1], is the one asked for if that does, and sets the stability.
  ghost predicate WeighedBy(r: Row, importance: Option<real>) {
    && 0.0 <= r.importance <= 1.0 && r.stability == 0.1 + 0.3 * r.importance
    && match importance
       case None => r.importance == 0.0
       case Some(x) => (0.0 <= x <= 1.0 ==> r.importance == x) && (x < 0.0 ==> r.importance == 0.0) && (x > 1.0 ==> r.importance == 1.0)
  }

  lemma StoredRowIsTold(req: Request)
    requires req.Store?
    ensures JustStored(RowOf(req), req.user, req.content, req.category, req.vector, req.stamp) && WeighedBy(RowOf(req), req.importance)
  {
  }

  /** Every Store of every run adds one memory, under a fresh id, that says what the request says. */
  lemma StoresKeepWhatTheyAreGiven(states: seq<Db>, reqs: seq<Request>, cfg: Config, n: nat)
    requires cfg.intervalDays != 0.0 && Run(states, reqs, cfg) && n < |reqs| && reqs[n].Store?
    ensures var (id, after, req) := (states[n].nextId, states[n + 1], reqs[n]);
            && id !in states[n].mem && after.mem.Keys == states[n].mem.Keys + {id} && after.nextId == id + 1
            && JustStored(after.mem[id], req.user, req.content, req.category, req.vector, req.stamp)
            && WeighedBy(after.mem[id], req.importance)
  {
    StoresTreatByScore(states, reqs, cfg, n);
    StoredRowIsTold(reqs[n]);
  }

  /**
    Every Store of every run treats each older memory by the score of its hit and in no other way, and
    leaves the links and conflicts among older memories alone.
   */
  lemma StoresTreatByScore(states: seq<Db>, reqs: seq<Request>, cfg: Config, n: nat)
    requires cfg.intervalDays != 0.0 && Run(states, reqs, cfg) && n < |reqs| && reqs[n].Store?
    ensures states[n].nextId !in states[n].mem
    ensures var (db, id, after) := (Insert(states[n], RowOf(reqs[n])), states[n].nextId, states[n + 1]);
            && I.Dispatched(db, after, id) && after.mem[id] == RowOf(reqs[n])
            && forall x :: x in states[n].mem ==>
                 x in db.mem && x != id && I.Outcome(db, after, reqs[n].user, id, x, I.ScoreFor(reqs[n].hits, id, x))
  {
    TablesStaySound(states, reqs, cfg, n);
    FreshIsUnconnected(states[n], RowOf(reqs[n]));
    assert StepAt(states, reqs, cfg, n) && Legal(states[n], reqs[n]);
    I.DispatchOutcome(Insert(states[n], RowOf(reqs[n])), reqs[n].user, states[n].nextId, reqs[n].hits);
  }

  /** ... where the score of a memory is the one it has in the list of hits, and none if it is not there. */
  lemma StoresScoreByPosition(states: seq<Db>, reqs: seq<Request>, cfg: Config, n: nat, x: Id)
    requires cfg.intervalDays != 0.0 && Run(states, reqs, cfg) && n < |reqs| && reqs[n].Store? && x in states[n].mem
    ensures forall i :: 0 <= i < |reqs[n].hits| && reqs[n].hits[i].id == x ==>
      I.ScoreFor(reqs[n].hits, states[n].nextId, x) == Some(reqs[n].hits[i].score)
    ensures (forall i :: 0 <= i < |reqs[n].hits| ==> reqs[n].hits[i].id != x) ==> I.ScoreFor(reqs[n].hits, states[n].nextId, x) == None
  {
    TablesStaySound(states, reqs, cfg, n);
    assert StepAt(states, reqs, cfg, n) && Legal(states[n], reqs[n]);
    if i :| 0 <= i < |reqs[n].hits| && reqs[n].hits[i].id == x {
      forall j | 0 <= j < |reqs[n].hits| && reqs[n].hits[j].id == x
        ensures I.ScoreFor(reqs[n].hits, states[n].nextId, x) == Some(reqs[n].hits[j].score)
      {
        I.ScoreAtPosition(reqs[n].hits, states[n].nextId, j);
      }
    } else {
      I.NotAmong(reqs[n].hits, states[n].nextId, x);
    }
  }

  // -------------------------------------------------------------------------
  // Retrieval in a run
  // -------------------------------------------------------------------------

  // The lifecycle functions alone: the boost, one more session, then the promotion check.
  function Reinforced(m: MemoryState, amount: real, now: int, cfg: Config): MemoryState
    requires cfg.intervalDays != 0.0
  {
    var b := Boosted(m, amount, now, cfg).(sessionCount := m.sessionCount + 1);
    if b.category != Core && MeetsCoreThresholds(b, cfg)
    then b.(category := Core, floor := CORE_RETENTION_FLOOR, rate := BetaFor(cfg, "core"))
    else b
  }

  lemma StrengthenRowIsReinforced(r: Row, source: Source, now: int, next: nat, cfg: Config)
    requires cfg.intervalDays != 0.0 && SessionsDrawn(r, next)
    ensures FullState(StrengthenRow(r, source, now, Stored(next), cfg), cfg)
         == Reinforced(FullState(r, cfg), Amount(source, cfg), now, cfg)
  {
    StrengtheningMatchesLifecycle(r, source, now, next, cfg);
  }

  lemma SearchReinforces(db: Db, user: string, results: seq<Retrieved>, deepRecall: bool, now: int, cfg: Config, id: Id)
    requires cfg.intervalDays != 0.0 && SessionsOk(db) && Strengthened(db, user, results, id)
    ensures id in AfterSearch(db, user, results, deepRecall, now, cfg).mem
    ensures FullState(AfterSearch(db, user, results, deepRecall, now, cfg).mem[id], cfg)
         == Reinforced(FullState(db.mem[id], cfg), Amount(SourceOf(results, id), cfg), now, cfg)
  {
    var hot := Restored(db, user, results, deepRecall);
    assert SessionsDrawn(db.mem[id], db.nextSession);
    StrengthenRowIsReinforced(hot.mem[id], SourceOf(results, id), now, db.nextSession, cfg);
  }

  /**
    In every run, a search leaves each non-stub result in the state that the lifecycle boost and
    promotion check give it; a promoted row also takes the core floor and the core decay rate.
   */
  lemma SearchesReinforce(states: seq<Db>, reqs: seq<Request>, cfg: Config, n: nat, id: Id)
    requires cfg.intervalDays != 0.0 && Run(states, reqs, cfg) && n < |reqs| && reqs[n].Search?
    requires Strengthened(states[n], reqs[n].user, reqs[n].results, id)
    ensures id in states[n + 1].mem
    ensures FullState(states[n + 1].mem[id], cfg)
         == Reinforced(FullState(states[n].mem[id], cfg), Amount(SourceOf(reqs[n].results, id), cfg), reqs[n].now, cfg)
  {
    TablesStaySound(states, reqs, cfg, n);
    assert StepAt(states, reqs, cfg, n);
    SearchReinforces(states[n], reqs[n].user, reqs[n].results, reqs[n].deepRecall, reqs[n].now, cfg, id);
  }

  function AsRetrieved(rs: seq<Ranked>): seq<Retrieved> {
    seq(|rs|, i requires 0 <= i < |rs| => Retrieved(rs[i].id, rs[i].source))
  }

  /** What the search returns is what a run asks of a Search request: distinct rows of the user. */
  lemma SearchResultsAreLegal(db: Db, user: string, query: seq<real>, o: X.Options, cfg: Config,
                              dense: seq<Ranked>, ranked: seq<Ranked>, rs: seq<Ranked>)
    requires cfg.tauDays != 0.0 && X.IsPool(db, user, query, o, cfg, dense)
    requires ranked == dense || X.IsHybridPool(dense, o.lexical, ranked)
    requires X.IsAnswer(db, user, query, o, cfg, ranked, rs)
    ensures Legal(db, Search(user, AsRetrieved(rs), o.deepRecall, o.now))
  {
    forall i | 0 <= i < |rs|
      ensures Owns(db, user, rs[i].id)
    {
      if o.hops == 0 || ranked == [] {
        RankedIsOwned(db, user, query, o, cfg, dense, ranked, rs[i]);
      } else {
        var all :| X.ExpandedFrom(db, user, query, ranked, o, cfg, all) && K.IsTop(all, rs, o.limit);
        assert rs[i] in all;
        var j :| 0 <= j < |all| && all[j] == rs[i];
        if j < |ranked| {
          assert all[j] == ranked[j];
          RankedIsOwned(db, user, query, o, cfg, dense, ranked, rs[i]);
        }
      }
    }
  }

  lemma RankedIsOwned(db: Db, user: string, query: seq<real>, o: X.Options, cfg: Config,
                      dense: seq<Ranked>, ranked: seq<Ranked>, x: Ranked)
    requires X.IsPool(db, user, query, o, cfg, dense) && x in ranked
    requires ranked == dense || X.IsHybridPool(dense, o.lexical, ranked)
    ensures Owns(db, user, x.id)
  {
    var j :| 0 <= j < |ranked| && ranked[j] == x;
    assert x.id in K.IdSet(ranked);
    assert x.id in X.CandidateIds(db, user, o);
  }

  // -------------------------------------------------------------------------
  // Where the hypotheses are needed
  // -------------------------------------------------------------------------

  // Two rows, linked a -> b -> a with weight `w`.
  function Linked(w: real): Db {
    var row := NewRow("u", "", "semantic", [], "local", "m", 0);
    EMPTY.(mem := map[0 := row, 1 := row], nextId := 2,
           assoc := map[(0, 1) := Edge(w, Some(0)), (1, 0) := Edge(w, Some(0))])
  }

  /** A client's MarkSuperseded can make a memory supersede itself. */
  lemma MarkSupersededBreaksTheForest(cfg: Config)
    requires cfg.intervalDays != 0.0
    ensures !Forest(ApplyRequest(Linked(0.5), MarkSuperseded("u", [0], 0), cfg))
  {
    var after := ApplyRequest(Linked(0.5), MarkSuperseded("u", [0], 0), cfg);
    assert LeadsTo(after, 0, 0, 0);
    assert LeadsTo(after, 0, 0, 1);
    if Forest(after) {
      NoCycle(after, 0, 1);
    }
  }
}
