/**
  What an answer of the conflict judge leads to, told by the rows alone: for every batch, for any
  answers, and at every tick of every run (`resolve_conflicts`).
 */
module Verdicts {
  import opened Lifecycle
  import opened Collections
  import opened Tables
  import opened Conflicts
  import opened Tick
  import opened Requests
  import P = Compression
  import R = Runs
  import S = Consolidation

  // -------------------------------------------------------------------------
  // One entry
  // -------------------------------------------------------------------------

  // The tables when entry `k` of the batch has its turn.
  function Before(db: Db, batch: seq<nat>, answers: seq<Option<Label>>, k: nat): Db
    requires |answers| == |batch| && k <= |batch|
  {
    Resolve(db, batch[..k], answers[..k])
  }

  ghost predicate BothLive(db: Db, c: Conflict) {
    Live(db, c.newId) && Live(db, c.existingId)
  }

  // Without an LLM the more important memory wins, among equals the more recent one.
  predicate Outranks(n: Row, e: Row) {
    n.importance > e.importance || (n.importance == e.importance && n.createdAt > e.createdAt)
  }

  // The row has lost to `w`: it names `w` twice, a core row is demoted, and all else is as it was.
  ghost predicate LostTo(r: Row, r': Row, w: Id) {
    && r'.isSuperseded && r'.supersededBy == Some(w) && r'.contradictedBy == Some(w)
    && (if r.category == "core" then r'.category == "semantic" && r'.floor == 0.0
        else r'.category == r.category && r'.floor == r.floor)
    && r == r'.(isSuperseded := r.isSuperseded, supersededBy := r.supersededBy, contradictedBy := r.contradictedBy,
                category := r.category, floor := r.floor)
  }

  // `r'` is `r` with the larger of the two importances, up to the rounding guard.
  ghost predicate TookImportance(r: Row, r': Row, other: Row) {
    && r == r'.(importance := r.importance)
    && (r'.importance == r.importance || r'.importance == other.importance)
    && r'.importance >= r.importance && other.importance - r'.importance <= EPSILON
  }

  ghost predicate OthersUntouched(db: Db, after: Db, c: Conflict) {
    after.mem.Keys == db.mem.Keys
    && forall id: Id :: id in db.mem && id != c.newId && id != c.existingId ==> after.mem[id] == db.mem[id]
  }

  // What one judged entry does to the rows.
  ghost predicate Told(db: Db, after: Db, c: Conflict, answer: Option<Label>) {
    if !BothLive(db, c) || answer == Some(Overlap) || answer == Some(Unrelated) then after.mem == db.mem
    else
      && OthersUntouched(db, after, c)
      && c.newId in after.mem && c.existingId in after.mem
      && var (n, e, n', e') := (db.mem[c.newId], db.mem[c.existingId], after.mem[c.newId], after.mem[c.existingId]);
         if answer == Some(Contradiction) then LostTo(e, e', c.newId) && n' == n
         else if answer == Some(Label.Update) then LostTo(e, e', c.newId) && TookImportance(n, n', e)
         else if Outranks(n, e) then LostTo(e, e', c.newId) && n' == n
         else LostTo(n, n', c.existingId) && e' == e
  }

  // What a verdict does to the rows it names.
  ghost predicate Decided(db: Db, after: Db, w: Id, l: Id, importance: real) {
    && after.mem.Keys == db.mem.Keys && w in db.mem && l in db.mem
    && (forall id: Id :: id in db.mem && id != w && id != l ==> after.mem[id] == db.mem[id])
    && after.mem[w] == db.mem[w].(importance := importance)
    && LostTo(db.mem[l], after.mem[l], w)
  }

  lemma VerdictDecides(db: Db, q: nat, w: Id, l: Id, importance: real)
    requires w in db.mem && l in db.mem && w != l
    ensures Decided(db, ApplyVerdict(db, Supersede(w, l, importance)).(queue := db.queue - {q}), w, l, importance)
  {
  }

  lemma EntryIsTold(db: Db, q: nat, answer: Option<Label>)
    requires SoundQueue(db) && q in db.queue
    ensures Told(db, ResolveOne(db, q, answer), db.queue[q], answer)
  {
    var (c, after) := (db.queue[q], ResolveOne(db, q, answer));
    match VerdictOn(db, c, answer)
    case BothStay =>
    case Supersede(w, l, importance) =>
      VerdictDecides(db, q, w, l, importance);
      VerdictIsTold(db, after, c, answer, w, l, importance);
  }

  lemma VerdictIsTold(db: Db, after: Db, c: Conflict, answer: Option<Label>, w: Id, l: Id, importance: real)
    requires c.newId != c.existingId && VerdictOn(db, c, answer) == Supersede(w, l, importance)
    requires Decided(db, after, w, l, importance)
    ensures Told(db, after, c, answer)
  {
  }

  // -------------------------------------------------------------------------
  // A batch
  // -------------------------------------------------------------------------

  lemma TurnOf(db: Db, batch: seq<nat>, answers: seq<Option<Label>>, k: nat)
    requires |answers| == |batch| && SoundQueue(db) && NoDup(batch) && k < |batch| && batch[k] in db.queue
    ensures SoundQueue(Before(db, batch, answers, k))
    ensures batch[k] in Before(db, batch, answers, k).queue
    ensures Before(db, batch, answers, k).queue[batch[k]] == db.queue[batch[k]]
    ensures Before(db, batch, answers, k + 1) == ResolveOne(Before(db, batch, answers, k), batch[k], answers[k])
  {
    assert SoundQueue(Before(db, batch, answers, k)) by {
      ResolveEdits(db, batch[..k], answers[..k]);
    }
    BatchLeavesQueue(db, batch[..k], answers[..k]);
    assert batch[k] !in Elems(batch[..k]);
    assert batch[..k + 1][..k] == batch[..k] && answers[..k + 1][..k] == answers[..k];
  }

  // From a turn on, later entries only edit live rows.
  lemma {:induction false} LaterEdits(db: Db, batch: seq<nat>, answers: seq<Option<Label>>, k: nat)
    requires |answers| == |batch| && SoundQueue(db) && k <= |batch|
    ensures ConflictEdits(Before(db, batch, answers, k), Resolve(db, batch, answers))
    decreases |batch|
  {
    ResolveEdits(db, batch[..k], answers[..k]);
    if k < |batch| {
      var n := |batch| - 1;
      LaterEdits(db, batch[..n], answers[..n], k);
      assert batch[..n][..k] == batch[..k] && answers[..n][..k] == answers[..k];
      ResolveEdits(db, batch[..n], answers[..n]);
      ResolveOneEdits(Resolve(db, batch[..n], answers[..n]), batch[n], answers[n]);
      EditsCompose(Before(db, batch, answers, k), Resolve(db, batch[..n], answers[..n]), Resolve(db, batch, answers));
    } else {
      assert batch[..k] == batch && answers[..k] == answers;
    }
  }

  /**
    Every entry of a batch does what its answer says: after Contradiction or Update the existing memory is
    superseded by the new one, for good, and after Overlap or Unrelated, or if a side is no longer live,
    no row changes.  Only Update touches the winner, which takes the larger importance.
   */
  lemma JudgedEntriesDecide(db: Db, batch: seq<nat>, answers: seq<Option<Label>>, k: nat)
    requires |answers| == |batch| && SoundQueue(db) && NoDup(batch) && k < |batch| && batch[k] in db.queue
    ensures var c := db.queue[batch[k]];
            var (mid, next, end) := (Before(db, batch, answers, k), Before(db, batch, answers, k + 1), Resolve(db, batch, answers));
            && Told(mid, next, c, answers[k])
            && (BothLive(mid, c) && (answers[k] == Some(Contradiction) || answers[k] == Some(Label.Update)) ==>
                  c.existingId in end.mem
                  && end.mem[c.existingId] == next.mem[c.existingId] && end.mem[c.existingId].supersededBy == Some(c.newId))
  {
    TurnOf(db, batch, answers, k);
    EntryIsTold(Before(db, batch, answers, k), batch[k], answers[k]);
    LaterEdits(db, batch, answers, k + 1);
    var c := db.queue[batch[k]];
    var (next, end) := (Before(db, batch, answers, k + 1), Resolve(db, batch, answers));
    if c.existingId in next.mem {
      assert ConflictEdit(next.mem[c.existingId], end.mem[c.existingId]);
    }
  }

  // Entry `k` is why `id` is not live: what its answer, and the rows at its turn, must have been.
  ghost predicate LostAt(db: Db, batch: seq<nat>, answers: seq<Option<Label>>, k: nat, id: Id, winner: Id)
    requires |answers| == |batch|
  {
    && k < |batch| && batch[k] in db.queue
    && var (c, mid) := (db.queue[batch[k]], Before(db, batch, answers, k));
       && BothLive(mid, c)
       && match answers[k]
          case Some(Contradiction) => id == c.existingId && winner == c.newId
          case Some(Update) => id == c.existingId && winner == c.newId
          case Some(_) => false
          case None =>
            if Outranks(mid.mem[c.newId], mid.mem[c.existingId]) then id == c.existingId && winner == c.newId
            else id == c.newId && winner == c.existingId
  }

  lemma LossHasAReason(db: Db, q: nat, answer: Option<Label>, id: Id) returns (winner: Id)
    requires SoundQueue(db) && Live(db, id) && !Live(ResolveOne(db, q, answer), id)
    ensures q in db.queue && BothLive(db, db.queue[q])
    ensures LostAt(db, [q], [answer], 0, id, winner)
    ensures ResolveOne(db, q, answer).mem[id].supersededBy == Some(winner)
  {
    EntryIsTold(db, q, answer);
    assert [q][..0] == [] && [answer][..0] == [];
    var c := db.queue[q];
    winner := if id == c.existingId then c.newId else c.existingId;
  }

  /**
    A memory that a batch takes out of the live ones is the existing side of an entry answered
    Contradiction or Update while both sides were live, or without an LLM the side that the other one
    outranks; and it ends superseded by the other side.
   */
  lemma {:induction false} LosersWereJudged(db: Db, batch: seq<nat>, answers: seq<Option<Label>>, id: Id)
    returns (k: nat, winner: Id)
    requires |answers| == |batch| && SoundQueue(db) && Live(db, id) && !Live(Resolve(db, batch, answers), id)
    ensures LostAt(db, batch, answers, k, id, winner)
    ensures id in Resolve(db, batch, answers).mem && Resolve(db, batch, answers).mem[id].supersededBy == Some(winner)
  {
    var n := |batch| - 1;
    var mid := Resolve(db, batch[..n], answers[..n]);
    ResolveEdits(db, batch[..n], answers[..n]);
    if Live(mid, id) {
      k := n;
      winner := LossHasAReason(mid, batch[n], answers[n], id);
      LostLast(db, batch, answers, id, winner);
    } else {
      k, winner := LosersWereJudged(db, batch[..n], answers[..n], id);
      LostEarlier(db, batch, answers, k, id, winner);
      LossStays(mid, batch[n], answers[n], id);
    }
  }

  lemma LostLast(db: Db, batch: seq<nat>, answers: seq<Option<Label>>, id: Id, winner: Id)
    requires |answers| == |batch| && batch != []
    requires var n := |batch| - 1;
             var mid := Before(db, batch, answers, n);
             && ConflictEdits(db, mid) && LostAt(mid, [batch[n]], [answers[n]], 0, id, winner)
    ensures LostAt(db, batch, answers, |batch| - 1, id, winner)
  {
    var n := |batch| - 1;
    var mid := Before(db, batch, answers, n);
    assert Before(mid, [batch[n]], [answers[n]], 0) == mid;
  }

  lemma LostEarlier(db: Db, batch: seq<nat>, answers: seq<Option<Label>>, k: nat, id: Id, winner: Id)
    requires |answers| == |batch| && batch != []
    requires LostAt(db, batch[..|batch| - 1], answers[..|batch| - 1], k, id, winner)
    ensures LostAt(db, batch, answers, k, id, winner)
  {
    var n := |batch| - 1;
    assert batch[..n][..k] == batch[..k] && answers[..n][..k] == answers[..k];
  }

  lemma LossStays(db: Db, q: nat, answer: Option<Label>, id: Id)
    requires SoundQueue(db) && id in db.mem && db.mem[id].isSuperseded
    ensures id in ResolveOne(db, q, answer).mem && ResolveOne(db, q, answer).mem[id] == db.mem[id]
  {
    ResolveOneEdits(db, q, answer);
    assert ConflictEdit(db.mem[id], ResolveOne(db, q, answer).mem[id]);
  }

  // -------------------------------------------------------------------------
  // Every tick of every run
  // -------------------------------------------------------------------------

  lemma TickBatch(states: seq<Db>, reqs: seq<Request>, cfg: Config, n: nat)
    requires cfg.intervalDays != 0.0 && Run(states, reqs, cfg) && n < |reqs| && reqs[n].Tick?
    ensures TickStep(states[n], states[n + 1], reqs[n].log, reqs[n].stamp, cfg)
    ensures SoundQueue(AfterExpiry(states[n], reqs[n].stamp.now, cfg))
    ensures Passes(states[n], AfterExpiry(states[n], reqs[n].stamp.now, cfg),
                   AfterConflicts(states[n], reqs[n].stamp.now, reqs[n].log, cfg), states[n + 1], reqs[n].stamp.now, cfg)
    ensures NoDup(reqs[n].log.batch) && forall q :: q in reqs[n].log.batch ==> q in states[n].queue
    ensures AfterExpiry(states[n], reqs[n].stamp.now, cfg).queue == states[n].queue
  {
    R.TablesStaySound(states, reqs, cfg, n);
    R.TickIn(states, reqs, cfg, n);
    TickPasses(states[n], states[n + 1], reqs[n].log, reqs[n].stamp, cfg);
  }

  /** At every tick of every run each entry of the batch does what its answer says, until the end of the tick. */
  lemma TicksFollowTheAnswers(states: seq<Db>, reqs: seq<Request>, cfg: Config, n: nat, k: nat)
    requires cfg.intervalDays != 0.0 && Run(states, reqs, cfg) && n < |reqs| && reqs[n].Tick? && k < |reqs[n].log.batch|
    ensures |reqs[n].log.answers| == |reqs[n].log.batch| && reqs[n].log.batch[k] in states[n].queue
    ensures var (log, c) := (reqs[n].log, states[n].queue[reqs[n].log.batch[k]]);
            var d2 := AfterExpiry(states[n], reqs[n].stamp.now, cfg);
            var mid := Before(d2, log.batch, log.answers, k);
            && Told(mid, Before(d2, log.batch, log.answers, k + 1), c, log.answers[k])
            && (BothLive(mid, c) && (log.answers[k] == Some(Contradiction) || log.answers[k] == Some(Label.Update)) ==>
                  && c.existingId in states[n + 1].mem && !Live(states[n + 1], c.existingId)
                  && states[n + 1].mem[c.existingId].supersededBy == Some(c.newId))
  {
    TickBatch(states, reqs, cfg, n);
    var (log, now) := (reqs[n].log, reqs[n].stamp.now);
    var (d2, d3) := (AfterExpiry(states[n], now, cfg), AfterConflicts(states[n], now, log, cfg));
    assert log.batch[k] in log.batch;
    JudgedEntriesDecide(d2, log.batch, log.answers, k);
    var c := states[n].queue[log.batch[k]];
    if c.existingId in d3.mem && d3.mem[c.existingId].isSuperseded {
      LossOutlastsTheTick(d3, states[n + 1], now, cfg, c.existingId);
    }
  }

  lemma LossOutlastsTheTick(d3: Db, after: Db, now: int, cfg: Config, id: Id)
    requires SummaryEdits(d3, after, now, cfg) && id in d3.mem && d3.mem[id].isSuperseded
    ensures id in after.mem && after.mem[id] == d3.mem[id]
  {
    assert SummaryEdit(d3.mem[id], after.mem[id], now, cfg);
  }

  /**
    A memory that a tick of a run takes out of the live ones was absorbed by a new summary, or lost an
    entry of the batch to the other side for one of the reasons above.
   */
  lemma TicksSupersedeForAReason(states: seq<Db>, reqs: seq<Request>, cfg: Config, n: nat, id: Id) returns (winner: Id)
    requires cfg.intervalDays != 0.0 && Run(states, reqs, cfg) && n < |reqs| && reqs[n].Tick?
    requires Live(states[n], id) && !Live(states[n + 1], id)
    ensures id in states[n + 1].mem && states[n + 1].mem[id].supersededBy == Some(winner)
    ensures |reqs[n].log.answers| == |reqs[n].log.batch|
    ensures
      || states[n].nextId <= winner < states[n].nextId + |reqs[n].log.clusters|
      || exists k :: LostAt(AfterExpiry(states[n], reqs[n].stamp.now, cfg), reqs[n].log.batch, reqs[n].log.answers, k, id, winner)
  {
    TickBatch(states, reqs, cfg, n);
    R.TablesStaySound(states, reqs, cfg, n);
    var (log, now) := (reqs[n].log, reqs[n].stamp.now);
    var (d2, d3) := (AfterExpiry(states[n], now, cfg), AfterConflicts(states[n], now, log, cfg));
    LiveAtTheBatch(states[n], d2, id);
    if Live(d3, id) {
      ResolveKeepsIds(d2, log.batch, log.answers);
      CompressedInTick(states[n], states[n + 1], log, reqs[n].stamp, cfg);
      winner := AbsorbedBy(d3, states[n + 1], log, now, id);
    } else {
      var k;
      k, winner := LosersWereJudged(d2, log.batch, log.answers, id);
      LossOutlastsTheTick(d3, states[n + 1], now, cfg, id);
    }
  }

  lemma LiveAtTheBatch(db: Db, d2: Db, id: Id)
    requires TierEdits(db, d2) && Live(db, id)
    ensures Live(d2, id)
  {
    assert TierEdit(db.mem[id], d2.mem[id]);
  }

  lemma AbsorbedBy(d3: Db, after: Db, log: TickLog, now: int, id: Id) returns (winner: Id)
    requires P.CompressedTo(d3, log.clusters, after, now) && Live(d3, id) && !Live(after, id)
    ensures id in after.mem && after.mem[id].supersededBy == Some(winner)
    ensures d3.nextId <= winner < d3.nextId + |log.clusters|
  {
    assert !S.Unclustered(log.clusters, id);
    var i :| 0 <= i < |log.clusters| && id in log.clusters[i].members;
    assert after.mem[id] == S.Absorbed(d3.mem[id], d3.nextId + i, now);
    winner := d3.nextId + i;
  }
}
