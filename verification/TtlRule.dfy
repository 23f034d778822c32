/**
  The rule that no non-core memory stays cold for more than 180 days: exactly when a tick keeps it,
  stated on the tables before the tick, and a run that breaks it.
 */
module TtlRule {
  import opened Collections
  import opened RealArith
  import opened Lifecycle
  import opened Cosine
  import opened Tables
  import opened Hits
  import opened Conflicts
  import opened Consolidation
  import opened Compression
  import opened Tick
  import I = Ingest
  import Q = Requests
  import R = Runs
  import X = Searching
  import K = Ranking

  // An LLM is configured: every entry gets an answer.
  predicate AllJudged(answers: seq<Option<Label>>) {
    forall i :: 0 <= i < |answers| ==> answers[i].Some?
  }

  // No LLM is configured: the heuristic decides.
  predicate NoneJudged(answers: seq<Option<Label>>) {
    forall i :: 0 <= i < |answers| ==> answers[i].None?
  }

  // A tick over this batch, with or without an LLM.
  ghost predicate TickOver(db: Db, batch: seq<nat>, judged: bool, after: Db, log: TickLog, stamp: Stamp, cfg: Config) {
    && TickStep(db, after, log, stamp, cfg) && log.batch == batch
    && (if judged then AllJudged(log.answers) else NoneJudged(log.answers))
  }

  // Every such tick leaves the rule intact.
  ghost predicate RuleKept(db: Db, batch: seq<nat>, judged: bool, stamp: Stamp, cfg: Config) {
    forall after, log :: TickOver(db, batch, judged, after, log, stamp, cfg) ==> TtlKept(after, stamp.now)
  }

  lemma RuleBroken(db: Db, batch: seq<nat>, judged: bool, after: Db, log: TickLog, stamp: Stamp, cfg: Config, id: Id)
    requires TickOver(db, batch, judged, after, log, stamp, cfg) && Overdue(after, stamp.now, id)
    ensures !RuleKept(db, batch, judged, stamp, cfg)
  {
  }

  // The entry would still be judged, on the tables as they are.
  predicate Pending(db: Db, q: nat) {
    q in db.queue && Contested(db, db.queue[q])
  }

  // -------------------------------------------------------------------------
  // With an LLM
  // -------------------------------------------------------------------------

  // No core row past its time is the existing side of a pending entry of the batch.
  ghost predicate SparesOldCores(db: Db, batch: seq<nat>, now: int) {
    forall q :: q in batch && Pending(db, q) ==> !StaleCore(db, now, db.queue[q].existingId)
  }

  lemma ContestedBefore(db: Db, mid: Db, c: Conflict)
    requires ConflictEdits(db, mid) && Contested(mid, c)
    ensures Contested(db, c)
  {
    assert ConflictEdit(db.mem[c.newId], mid.mem[c.newId]) && ConflictEdit(db.mem[c.existingId], mid.mem[c.existingId]);
  }

  // Whoever loses to an LLM's verdict is the existing side of an entry that was pending at the start.
  lemma {:induction false} LosersWerePending(db: Db, batch: seq<nat>, answers: seq<Option<Label>>, id: Id)
    requires |answers| == |batch| && SoundQueue(db) && AllJudged(answers) && id in Losers(db, batch, answers)
    ensures exists q :: q in batch && Pending(db, q) && db.queue[q].existingId == id
  {
    var k := |batch| - 1;
    var (front, mid) := (Losers(db, batch[..k], answers[..k]), Resolve(db, batch[..k], answers[..k]));
    if id in front {
      LosersWerePending(db, batch[..k], answers[..k], id);
      var q :| q in batch[..k] && Pending(db, q) && db.queue[q].existingId == id;
      assert q in batch;
    } else {
      ResolveEdits(db, batch[..k], answers[..k]);
      assert batch[k] in batch && answers[k].Some?;
      ContestedBefore(db, mid, mid.queue[batch[k]]);
    }
  }

  // An LLM that finds every pair unrelated changes no row.
  lemma {:induction false} UnrelatedChangesNothing(db: Db, batch: seq<nat>, answers: seq<Option<Label>>)
    requires |answers| == |batch| && forall i :: 0 <= i < |answers| ==> answers[i] == Some(Unrelated)
    ensures Resolve(db, batch, answers).mem == db.mem
  {
    if batch != [] {
      UnrelatedChangesNothing(db, batch[..|batch| - 1], answers[..|batch| - 1]);
    }
  }

  lemma {:induction false} LosersGrow(db: Db, batch: seq<nat>, answers: seq<Option<Label>>, k: nat)
    requires |answers| == |batch| && k <= |batch|
    ensures Losers(db, batch[..k], answers[..k]) <= Losers(db, batch, answers)
    decreases |batch|
  {
    if k < |batch| {
      var n := |batch| - 1;
      LosersGrow(db, batch[..n], answers[..n], k);
      assert batch[..n][..k] == batch[..k] && answers[..n][..k] == answers[..k];
    } else {
      assert batch[..k] == batch && answers[..k] == answers;
    }
  }

  // The answers of an LLM that sees a contradiction in entry `k` only.
  function OneContradiction(n: nat, k: nat): seq<Option<Label>> {
    seq(n, i requires 0 <= i < n => Some(if i == k then Contradiction else Unrelated))
  }

  // ... which makes the existing side of that entry lose.
  lemma ContradictionDefeats(db: Db, batch: seq<nat>, k: nat)
    requires NoDup(batch) && k < |batch| && Pending(db, batch[k])
    ensures db.queue[batch[k]].existingId in Losers(db, batch, OneContradiction(|batch|, k))
  {
    var answers := OneContradiction(|batch|, k);
    StillPending(db, batch[..k], answers[..k], batch[k]);
    assert batch[..k + 1][..k] == batch[..k] && answers[..k + 1][..k] == answers[..k];
    LastLoser(db, batch[..k + 1], answers[..k + 1]);
    LosersGrow(db, batch, answers, k + 1);
  }

  lemma StillPending(db: Db, batch: seq<nat>, answers: seq<Option<Label>>, q: nat)
    requires |answers| == |batch| && forall i :: 0 <= i < |answers| ==> answers[i] == Some(Unrelated)
    requires Pending(db, q) && q !in batch
    ensures var mid := Resolve(db, batch, answers);
            Pending(mid, q) && LoserOf(mid, q, Some(Contradiction)) == {db.queue[q].existingId}
  {
    UnrelatedChangesNothing(db, batch, answers);
    BatchLeavesQueue(db, batch, answers);
  }

  lemma LastLoser(db: Db, batch: seq<nat>, answers: seq<Option<Label>>)
    requires |answers| == |batch| && batch != []
    ensures var k := |batch| - 1;
            LoserOf(Resolve(db, batch[..k], answers[..k]), batch[k], answers[k]) <= Losers(db, batch, answers)
  {
  }

  lemma ExpiryKeepsPending(db: Db, d2: Db, q: nat)
    requires TierEdits(db, d2) && SoundQueue(db)
    ensures Pending(d2, q) <==> Pending(db, q)
  {
    if q in db.queue {
      var c := db.queue[q];
      assert TierEdit(db.mem[c.newId], d2.mem[c.newId]) && TierEdit(db.mem[c.existingId], d2.mem[c.existingId]);
    }
  }

  // The tick that compresses nothing.
  lemma TickWithoutSummaries(db: Db, batch: seq<nat>, answers: seq<Option<Label>>, judged: bool, stamp: Stamp, cfg: Config)
    returns (after: Db, log: TickLog)
    requires |answers| == |batch| && IsBatch(db.queue, batch) && if judged then AllJudged(answers) else NoneJudged(answers)
    ensures log == TickLog(batch, answers, [], []) && TickOver(db, batch, judged, after, log, stamp, cfg)
  {
    log := TickLog(batch, answers, [], []);
    after := AfterConflicts(db, stamp.now, log, cfg);
  }

  lemma JudgedRuleIsKept(db: Db, after: Db, log: TickLog, stamp: Stamp, cfg: Config)
    requires Bounded(db) && SoundQueue(db) && TickStep(db, after, log, stamp, cfg) && AllJudged(log.answers)
    requires SparesOldCores(db, log.batch, stamp.now)
    ensures TtlKept(after, stamp.now)
  {
    var d2 := AfterExpiry(db, stamp.now, cfg);
    TickPasses(db, after, log, stamp, cfg);
    forall id
      ensures !Overdue(after, stamp.now, id)
    {
      OverdueAfterTick(db, after, log, stamp, cfg, id);
      if id in TickLosers(db, log, stamp.now, cfg) {
        LosersWerePending(d2, log.batch, log.answers, id);
        var q :| q in log.batch && Pending(d2, q) && d2.queue[q].existingId == id;
        ExpiryKeepsPending(db, d2, q);
      }
    }
  }

  /**
    With an LLM, the rule holds after the tick for every sequence of answers if and only if no core row
    past its time is the existing side of an entry of the batch whose two memories are live.
   */
  lemma RuleHoldsForAnyJudgeIff(db: Db, batch: seq<nat>, stamp: Stamp, cfg: Config)
    requires Bounded(db) && SoundQueue(db) && IsBatch(db.queue, batch)
    ensures RuleKept(db, batch, true, stamp, cfg) <==> SparesOldCores(db, batch, stamp.now)
  {
    if SparesOldCores(db, batch, stamp.now) {
      forall after, log | TickOver(db, batch, true, after, log, stamp, cfg)
        ensures TtlKept(after, stamp.now)
      {
        JudgedRuleIsKept(db, after, log, stamp, cfg);
      }
    } else {
      var q :| q in batch && Pending(db, q) && StaleCore(db, stamp.now, db.queue[q].existingId);
      var k :| 0 <= k < |batch| && batch[k] == q;
      SomeJudgeBreaksTheRule(db, batch, k, stamp, cfg);
    }
  }

  lemma SomeJudgeBreaksTheRule(db: Db, batch: seq<nat>, k: nat, stamp: Stamp, cfg: Config)
    requires Bounded(db) && SoundQueue(db) && IsBatch(db.queue, batch)
    requires k < |batch| && Pending(db, batch[k]) && StaleCore(db, stamp.now, db.queue[batch[k]].existingId)
    ensures !RuleKept(db, batch, true, stamp, cfg)
  {
    var after, log := TickWithoutSummaries(db, batch, OneContradiction(|batch|, k), true, stamp, cfg);
    DefeatedInTick(db, batch, k, log, stamp, cfg);
    OverdueAfterTick(db, after, log, stamp, cfg, db.queue[batch[k]].existingId);
    RuleBroken(db, batch, true, after, log, stamp, cfg, db.queue[batch[k]].existingId);
  }

  lemma DefeatedInTick(db: Db, batch: seq<nat>, k: nat, log: TickLog, stamp: Stamp, cfg: Config)
    requires SoundQueue(db) && NoDup(batch) && k < |batch| && Pending(db, batch[k])
    requires log == TickLog(batch, OneContradiction(|batch|, k), [], [])
    ensures db.queue[batch[k]].existingId in TickLosers(db, log, stamp.now, cfg)
  {
    EarlyPassesEdit(db, stamp.now, cfg);
    ExpiryKeepsPending(db, AfterExpiry(db, stamp.now, cfg), batch[k]);
    ContradictionDefeats(AfterExpiry(db, stamp.now, cfg), batch, k);
  }

  // -------------------------------------------------------------------------
  // Without an LLM
  // -------------------------------------------------------------------------

  // The side that the heuristic decides against: the less important, then the older one.
  function WeakerSide(db: Db, c: Conflict): Id
    requires c.newId in db.mem && c.existingId in db.mem
  {
    var (n, e) := (db.mem[c.newId], db.mem[c.existingId]);
    if n.importance > e.importance || (n.importance == e.importance && n.createdAt > e.createdAt) then c.existingId else c.newId
  }

  // The rows the batch decides against, read off the tables before the tick: an entry counts while
  // neither of its two memories has been decided against by a stronger entry.
  function Doomed(db: Db, batch: seq<nat>): set<Id> {
    if batch == [] then {}
    else
      var before := Doomed(db, batch[..|batch| - 1]);
      before + Struck(db, before, batch[|batch| - 1])
  }

  function Struck(db: Db, out: set<Id>, q: nat): set<Id> {
    if Pending(db, q) && db.queue[q].newId !in out && db.queue[q].existingId !in out then {WeakerSide(db, db.queue[q])} else {}
  }

  // What a heuristic batch leaves of a row: everything the heuristic reads, and who is out.
  ghost predicate RankKept(db: Db, mid: Db, out: set<Id>) {
    && mid.mem.Keys == db.mem.Keys
    && forall id: Id :: id in db.mem ==> RankedRow(db.mem[id], mid.mem[id], id in out)
  }

  predicate RankedRow(r: Row, r': Row, out: bool) {
    && r'.user == r.user && r'.importance == r.importance && r'.createdAt == r.createdAt
    && (r'.isSuperseded <==> r.isSuperseded || out)
  }

  lemma HeuristicStep(db: Db, mid: Db, out: set<Id>, q: nat)
    requires SoundQueue(db) && SoundQueue(mid) && RankKept(db, mid, out)
    requires q in mid.queue && q in db.queue && mid.queue[q] == db.queue[q]
    ensures LoserOf(mid, q, None) == Struck(db, out, q)
    ensures RankKept(db, ResolveOne(mid, q, None), out + Struck(db, out, q))
  {
    var c := db.queue[q];
    SameContest(db, mid, out, c);
    if Contested(mid, c) {
      VerdictIsSound(mid, q, None);
      HeuristicVerdict(db, mid, out, q, VerdictOn(mid, c, None));
    }
  }

  lemma SameContest(db: Db, mid: Db, out: set<Id>, c: Conflict)
    requires RankKept(db, mid, out) && Owns(db, c.user, c.newId) && Owns(db, c.user, c.existingId)
    ensures Contested(mid, c) <==> Contested(db, c) && c.newId !in out && c.existingId !in out
    ensures WeakerSide(mid, c) == WeakerSide(db, c)
  {
  }

  lemma HeuristicVerdict(db: Db, mid: Db, out: set<Id>, q: nat, v: Verdict)
    requires RankKept(db, mid, out) && SoundVerdict(mid, v) && v.Supersede? && v.importance == mid.mem[v.winner].importance
    ensures RankKept(db, ApplyVerdict(mid, v).(queue := mid.queue - {q}), out + {v.loser})
  {
    var after := ApplyVerdict(mid, v);
    forall id: Id | id in mid.mem
      ensures id in after.mem && RankedRow(mid.mem[id], after.mem[id], id == v.loser)
    {
      RowAfterVerdict(mid, v, id);
    }
    assert after.mem.Keys == mid.mem.Keys;
    forall id: Id | id in db.mem
      ensures RankedRow(db.mem[id], after.mem[id], id in out + {v.loser})
    {
      assert RankedRow(db.mem[id], mid.mem[id], id in out);
    }
  }

  lemma RowAfterVerdict(mid: Db, v: Verdict, id: Id)
    requires SoundVerdict(mid, v) && v.Supersede? && v.importance == mid.mem[v.winner].importance && id in mid.mem
    ensures id in ApplyVerdict(mid, v).mem && RankedRow(mid.mem[id], ApplyVerdict(mid, v).mem[id], id == v.loser)
  {
  }

  lemma {:induction false} LosersAreDoomed(db: Db, batch: seq<nat>, answers: seq<Option<Label>>)
    requires |answers| == |batch| && SoundQueue(db) && NoneJudged(answers) && NoDup(batch)
    requires forall q :: q in batch ==> q in db.queue
    ensures Losers(db, batch, answers) == Doomed(db, batch)
    ensures RankKept(db, Resolve(db, batch, answers), Doomed(db, batch))
  {
    if batch != [] {
      var k := |batch| - 1;
      LosersAreDoomed(db, batch[..k], answers[..k]);
      EntryIsUntouched(db, batch, answers);
      HeuristicStep(db, Resolve(db, batch[..k], answers[..k]), Doomed(db, batch[..k]), batch[k]);
      DoomedIs(db, batch);
      assert answers[k] == None;
    }
  }

  // The last entry of a batch is in the queue, as it was, when its turn comes.
  lemma EntryIsUntouched(db: Db, batch: seq<nat>, answers: seq<Option<Label>>)
    requires |answers| == |batch| && SoundQueue(db) && NoDup(batch) && batch != [] && forall q :: q in batch ==> q in db.queue
    ensures var k := |batch| - 1;
            var mid := Resolve(db, batch[..k], answers[..k]);
            SoundQueue(mid) && batch[k] in db.queue && batch[k] in mid.queue && mid.queue[batch[k]] == db.queue[batch[k]]
  {
    var k := |batch| - 1;
    ResolveEdits(db, batch[..k], answers[..k]);
    BatchLeavesQueue(db, batch[..k], answers[..k]);
    assert batch[k] in batch;
  }

  lemma DoomedIs(db: Db, batch: seq<nat>)
    requires batch != []
    ensures var before := Doomed(db, batch[..|batch| - 1]);
            Doomed(db, batch) == before + Struck(db, before, batch[|batch| - 1])
  {
  }

  lemma {:induction false} ExpiryKeepsDoomed(db: Db, d2: Db, batch: seq<nat>)
    requires TierEdits(db, d2) && SoundQueue(db)
    ensures Doomed(d2, batch) == Doomed(db, batch)
  {
    if batch != [] {
      var q := batch[|batch| - 1];
      ExpiryKeepsDoomed(db, d2, batch[..|batch| - 1]);
      ExpiryKeepsPending(db, d2, q);
      if q in db.queue {
        var c := db.queue[q];
        assert TierEdit(db.mem[c.newId], d2.mem[c.newId]) && TierEdit(db.mem[c.existingId], d2.mem[c.existingId]);
      }
    }
  }

  lemma HeuristicLosers(db: Db, log: TickLog, stamp: Stamp, cfg: Config)
    requires SoundQueue(db) && IsBatch(db.queue, log.batch) && |log.answers| == |log.batch| && NoneJudged(log.answers)
    ensures TickLosers(db, log, stamp.now, cfg) == Doomed(db, log.batch)
  {
    var d2 := AfterExpiry(db, stamp.now, cfg);
    EarlyPassesEdit(db, stamp.now, cfg);
    TierEditsKeepQueue(db, d2);
    LosersAreDoomed(d2, log.batch, log.answers);
    ExpiryKeepsDoomed(db, d2, log.batch);
  }

  /**
    Without an LLM, the rule holds after the tick if and only if no core row past its time is among the
    rows that the batch decides against by importance and recency.
   */
  lemma RuleHoldsForTheHeuristicIff(db: Db, batch: seq<nat>, stamp: Stamp, cfg: Config)
    requires Bounded(db) && SoundQueue(db) && IsBatch(db.queue, batch)
    ensures RuleKept(db, batch, false, stamp, cfg) <==> NoOldCoreDoomed(db, batch, stamp.now)
  {
    if NoOldCoreDoomed(db, batch, stamp.now) {
      forall after, log | TickOver(db, batch, false, after, log, stamp, cfg)
        ensures TtlKept(after, stamp.now)
      {
        HeuristicTick(db, after, log, stamp, cfg);
      }
    } else {
      var id :| id in Doomed(db, batch) && StaleCore(db, stamp.now, id);
      HeuristicBreaksTheRule(db, batch, stamp, cfg, id);
    }
  }

  lemma HeuristicBreaksTheRule(db: Db, batch: seq<nat>, stamp: Stamp, cfg: Config, id: Id)
    requires Bounded(db) && SoundQueue(db) && IsBatch(db.queue, batch)
    requires id in Doomed(db, batch) && StaleCore(db, stamp.now, id)
    ensures !RuleKept(db, batch, false, stamp, cfg)
  {
    var after, log := TickWithoutSummaries(db, batch, seq(|batch|, i requires 0 <= i < |batch| => None), false, stamp, cfg);
    OverdueByHeuristic(db, after, log, stamp, cfg, id);
    RuleBroken(db, batch, false, after, log, stamp, cfg, id);
  }

  lemma OverdueByHeuristic(db: Db, after: Db, log: TickLog, stamp: Stamp, cfg: Config, id: Id)
    requires Bounded(db) && SoundQueue(db) && IsBatch(db.queue, log.batch)
    requires TickStep(db, after, log, stamp, cfg) && NoneJudged(log.answers)
    requires id in Doomed(db, log.batch) && StaleCore(db, stamp.now, id)
    ensures Overdue(after, stamp.now, id)
  {
    HeuristicTick(db, after, log, stamp, cfg);
  }

  ghost predicate NoOldCoreDoomed(db: Db, batch: seq<nat>, now: int) {
    forall id :: id in Doomed(db, batch) ==> !StaleCore(db, now, id)
  }

  lemma HeuristicTick(db: Db, after: Db, log: TickLog, stamp: Stamp, cfg: Config)
    requires Bounded(db) && SoundQueue(db) && IsBatch(db.queue, log.batch)
    requires TickStep(db, after, log, stamp, cfg) && NoneJudged(log.answers)
    ensures forall id :: Overdue(after, stamp.now, id) <==> StaleCore(db, stamp.now, id) && id in Doomed(db, log.batch)
  {
    HeuristicLosers(db, log, stamp, cfg);
    forall id
      ensures Overdue(after, stamp.now, id) <==> StaleCore(db, stamp.now, id) && id in Doomed(db, log.batch)
    {
      OverdueAfterTick(db, after, log, stamp, cfg, id);
    }
  }

  /** Only the weaker sides of pending entries can be decided against, so checking those suffices. */
  lemma {:induction false} DoomedAreWeakerSides(db: Db, batch: seq<nat>, id: Id)
    requires id in Doomed(db, batch)
    ensures exists q :: q in batch && Pending(db, q) && WeakerSide(db, db.queue[q]) == id
  {
    var (front, q) := (batch[..|batch| - 1], batch[|batch| - 1]);
    assert q in batch;
    if id in Doomed(db, front) {
      DoomedAreWeakerSides(db, front, id);
      var p :| p in front && Pending(db, p) && WeakerSide(db, db.queue[p]) == id;
      assert p in batch;
    }
  }

  /** In every run: when the next tick is bound to keep the rule, for both modes. */
  lemma TicksKeepTheRuleIff(states: seq<Db>, reqs: seq<Q.Request>, cfg: Config, n: nat, batch: seq<nat>, stamp: Stamp)
    requires cfg.intervalDays != 0.0 && Q.Run(states, reqs, cfg) && n < |states| && IsBatch(states[n].queue, batch)
    ensures RuleKept(states[n], batch, true, stamp, cfg) <==> SparesOldCores(states[n], batch, stamp.now)
    ensures RuleKept(states[n], batch, false, stamp, cfg) <==>
            NoOldCoreDoomed(states[n], batch, stamp.now)
  {
    R.TablesStaySound(states, reqs, cfg, n);
    RuleHoldsForAnyJudgeIff(states[n], batch, stamp, cfg);
    RuleHoldsForTheHeuristicIff(states[n], batch, stamp, cfg);
  }

  // -------------------------------------------------------------------------
  // A run that breaks the rule
  // -------------------------------------------------------------------------

  const START: Stamp := Stamp("local", "m", 0)
  const LATE: Stamp := Stamp("local", "m", 180 * 86400 + 1)

  const OLD: Row := I.StoredRow("u", "old", "core", None, [1.0], "local", "m", 0)
  const RIVAL: Row := I.StoredRow("u", "new", "semantic", Some(1.0), [1.0], "local", "m", 0)

  // Store a core memory, store a more important one that conflicts with it, archive the first, and
  // tick 180 days later.
  const FIRST: Q.Request := Q.Store("u", "old", "core", None, [1.0], START, [Ranked(0, 1.0, Direct)])
  const SECOND: Q.Request :=
    Q.Store("u", "new", "semantic", Some(1.0), [1.0], START, [Ranked(0, 1.0, Direct), Ranked(1, 1.0, Direct)])
  const THIRD: Q.Request := Q.MigrateToCold("u", 0, 0)

  const STORED: Db := EMPTY.(mem := map[0 := OLD], nextId := 1)
  const QUEUED: Db := STORED.(mem := map[0 := OLD, 1 := RIVAL], nextId := 2,
                              queue := map[0 := Conflict("u", 1, 0, 1.0)], nextQueue := 1)
  const ARCHIVED: Db := QUEUED.(mem := map[0 := OLD.(isCold := true, coldSince := Some(0)), 1 := RIVAL])

  lemma FirstStores(cfg: Config)
    requires cfg.intervalDays != 0.0
    ensures Q.Next(EMPTY, FIRST, STORED, cfg)
  {
    var mid := Insert(EMPTY, OLD);
    assert mid == STORED;
    assert FIRST.hits[..0] == [];
    assert I.DispatchAll(mid, "u", 0, FIRST.hits) == I.DispatchHit(I.DispatchAll(mid, "u", 0, []), "u", 0, FIRST.hits[0]);
  }

  lemma SecondQueues(cfg: Config)
    requires cfg.intervalDays != 0.0
    ensures Q.Next(STORED, SECOND, QUEUED, cfg)
  {
    var (mid, hits) := (Insert(STORED, RIVAL), SECOND.hits);
    assert mid == STORED.(mem := map[0 := OLD, 1 := RIVAL], nextId := 2);
    assert hits[..1] == [Ranked(0, 1.0, Direct)] && hits[..1][..0] == [];
    assert I.DispatchAll(mid, "u", 1, []) == mid;
    assert I.DispatchAll(mid, "u", 1, hits[..1]) == I.DispatchHit(mid, "u", 1, hits[0]);
    assert !I.PairQueued(mid, "u", 1, 0);
    assert I.DispatchHit(mid, "u", 1, hits[0]) == QUEUED;
    assert I.DispatchAll(mid, "u", 1, hits) == I.DispatchHit(QUEUED, "u", 1, hits[1]);
  }

  lemma ThirdArchives(cfg: Config)
    requires cfg.intervalDays != 0.0
    ensures Q.Next(QUEUED, THIRD, ARCHIVED, cfg)
  {
    var after := Q.EditOwned(QUEUED, "u", 0, Q.Cooling(0));
    assert after.mem.Keys == {0, 1};
    assert after.mem[0] == ARCHIVED.mem[0] && after.mem[1] == ARCHIVED.mem[1];
    assert after.mem == ARCHIVED.mem;
  }

  lemma ArchivedIsDoomed()
    ensures IsBatch(ARCHIVED.queue, [0]) && Doomed(ARCHIVED, [0]) == {0} && StaleCore(ARCHIVED, LATE.now, 0)
  {
    assert |ARCHIVED.queue| == 1;
    DoomedIs(ARCHIVED, [0]);
    assert [0][..0] == [] && Doomed(ARCHIVED, []) == {};
    assert RIVAL.importance == 1.0 && OLD.importance == 0.0;
  }

  // What ingest searches with.
  const INGEST: X.Options := X.Options(5, false, "local", "m", 0, false, false, [], 0, 0.3)

  ghost predicate Usual(cfg: Config) {
    && GoodMath(cfg) && GoodSqrt(cfg.sqrt)
    && (BetaFor(cfg, "core").Finite? ==> BetaFor(cfg, "core").days > 0.0)
    && (BetaFor(cfg, "semantic").Finite? ==> BetaFor(cfg, "semantic").days > 0.0)
  }

  lemma FreshRetention(m: MemoryState, cfg: Config)
    requires GoodMath(cfg) && !m.isStub && m.lastAccessedAt == 0 && m.floor <= 1.0 && m.importance >= 0.0
    requires m.rate.Finite? ==> m.rate.days > 0.0
    ensures ComputeRetention(m, 0, cfg) == 1.0
  {
    CurveStrictlyFalls(0.0, 0.0, cfg);
    if m.rate.Finite? {
      var (a, b) := (Max(m.stability, 0.01), Min(1.0 + m.importance * 2.0, 3.0));
      PositiveProduct(a, b);
      PositiveProduct(a * b, m.rate.days);
      assert EffectiveRate(m) > 0.0;
      assert DaysSince(0, 0) / EffectiveRate(m) == 0.0;
    }
  }

  lemma UnitSimilarity(sqrt: real -> real)
    requires GoodSqrt(sqrt)
    ensures Similarity([1.0], [1.0], sqrt) == 1.0
  {
    assert [1.0][..1] == [1.0] && [1.0][..0] == [];
    assert Dot([1.0], [1.0]) == Dot([], []) + 1.0 * 1.0;
    assert sqrt(1.0) * sqrt(1.0) == 1.0;
  }

  lemma FreshScore(r: Row, cfg: Config)
    requires Usual(cfg) && (r == OLD || r == RIVAL)
    ensures X.Composite(r, [1.0], 0, cfg) == 1.0
  {
    UnitSimilarity(cfg.sqrt);
    FreshRetention(StateOf(r, cfg), cfg);
  }

  /** The hits in the two Store requests are the pools that a search of the tables returns. */
  lemma HitsAreSearched(cfg: Config)
    requires Usual(cfg)
    ensures X.IsPool(Insert(EMPTY, OLD), "u", [1.0], INGEST, cfg, FIRST.hits)
    ensures X.IsPool(Insert(STORED, RIVAL), "u", [1.0], INGEST, cfg, SECOND.hits)
  {
    FreshScore(OLD, cfg);
    FreshScore(RIVAL, cfg);
    var (d1, d2) := (Insert(EMPTY, OLD), Insert(STORED, RIVAL));
    assert d1.mem == map[0 := OLD] && d2.mem == map[0 := OLD, 1 := RIVAL];
    assert K.IdSet(FIRST.hits) == {0} by {
      assert FIRST.hits[0].id == 0;
    }
    assert K.IdSet(SECOND.hits) == {0, 1} by {
      assert SECOND.hits[0].id == 0 && SECOND.hits[1].id == 1;
    }
    assert X.CandidateIds(d1, "u", INGEST) == {0} && X.CandidateIds(d2, "u", INGEST) == {0, 1};
  }

  /** A run of four requests from the empty tables, after which a non-core memory has been cold for too long. */
  lemma TtlCanBeEscaped(cfg: Config) returns (states: seq<Db>, reqs: seq<Q.Request>)
    requires cfg.intervalDays != 0.0
    ensures Q.Run(states, reqs, cfg) && |reqs| == 4
    ensures reqs[..3] == [FIRST, SECOND, THIRD] && reqs[3].Tick? && reqs[3].stamp == LATE && NoneJudged(reqs[3].log.answers)
    ensures Overdue(states[4], LATE.now, 0)
  {
    states, reqs := ArchivingRun(cfg);
    EndsSound(states, reqs, cfg);
    var after, log := LastTick(cfg);
    states, reqs := R.Continued(states, reqs, Q.Tick(log, LATE), after, cfg);
  }

  lemma EndsSound(states: seq<Db>, reqs: seq<Q.Request>, cfg: Config)
    requires cfg.intervalDays != 0.0 && Q.Run(states, reqs, cfg)
    ensures Bounded(states[|reqs|]) && SoundQueue(states[|reqs|])
  {
    R.TablesStaySound(states, reqs, cfg, |reqs|);
  }

  lemma StoringRun(cfg: Config) returns (states: seq<Db>, reqs: seq<Q.Request>)
    requires cfg.intervalDays != 0.0
    ensures Q.Run(states, reqs, cfg) && reqs == [FIRST] && states[1] == STORED
  {
    FirstStores(cfg);
    states, reqs := R.Continued([EMPTY], [], FIRST, STORED, cfg);
  }

  lemma QueueingRun(cfg: Config) returns (states: seq<Db>, reqs: seq<Q.Request>)
    requires cfg.intervalDays != 0.0
    ensures Q.Run(states, reqs, cfg) && reqs == [FIRST, SECOND] && states[2] == QUEUED
  {
    states, reqs := StoringRun(cfg);
    SecondQueues(cfg);
    states, reqs := R.Continued(states, reqs, SECOND, QUEUED, cfg);
  }

  lemma ArchivingRun(cfg: Config) returns (states: seq<Db>, reqs: seq<Q.Request>)
    requires cfg.intervalDays != 0.0
    ensures Q.Run(states, reqs, cfg) && reqs == [FIRST, SECOND, THIRD] && states[3] == ARCHIVED
  {
    states, reqs := QueueingRun(cfg);
    ThirdArchives(cfg);
    states, reqs := R.Continued(states, reqs, THIRD, ARCHIVED, cfg);
  }

  lemma LastTick(cfg: Config) returns (after: Db, log: TickLog)
    requires Bounded(ARCHIVED) && SoundQueue(ARCHIVED)
    ensures TickStep(ARCHIVED, after, log, LATE, cfg) && NoneJudged(log.answers) && Overdue(after, LATE.now, 0)
  {
    ArchivedIsDoomed();
    after, log := TickWithoutSummaries(ARCHIVED, [0], [None], false, LATE, cfg);
    OverdueByHeuristic(ARCHIVED, after, log, LATE, cfg, 0);
  }
}
