/** Pass 3 of the tick: resolving queued conflicts (`resolve_conflicts`). */
module Conflicts {
  import opened Lifecycle
  import opened Collections
  import opened Tables
  import opened Lineage

  const CONFLICT_RESOLUTION_BATCH: nat := 50
  const EPSILON: real := 0.0000000000000002220446049250313

  // An unparseable or failed LLM answer counts as `Unrelated`.
  datatype Label = Contradiction | Update | Overlap | Unrelated

  datatype Verdict = BothStay | Supersede(winner: Id, loser: Id, importance: real)

  function Queued(queue: map<nat, Conflict>, q: nat): Conflict
    requires q in queue
  {
    queue[q]
  }

  // Without an LLM (`answer` is None) the more important, then the more recent, memory wins.
  function Judge(n: Row, newId: Id, e: Row, existingId: Id, answer: Option<Label>): Verdict {
    match answer
    case None =>
      if n.importance > e.importance || (n.importance == e.importance && n.createdAt > e.createdAt)
      then Supersede(newId, existingId, n.importance) else Supersede(existingId, newId, e.importance)
    case Some(Contradiction) => Supersede(newId, existingId, n.importance)
    case Some(Update) =>
      var top := Max(n.importance, e.importance);
      Supersede(newId, existingId, if Abs(top - n.importance) > EPSILON then top else n.importance)
    case Some(_) => BothStay
  }

  function SupersededRow(r: Row, winner: Id): Row {
    var marked := r.(isSuperseded := true, supersededBy := Some(winner), contradictedBy := Some(winner));
    if r.category == "core" then marked.(category := "semantic", floor := 0.0) else marked
  }

  // Both rows are re-fetched under the entry's user and must still be live.
  predicate Contested(db: Db, c: Conflict) {
    && Owns(db, c.user, c.newId) && Owns(db, c.user, c.existingId)
    && Live(db, c.newId) && Live(db, c.existingId)
  }

  function VerdictOn(db: Db, c: Conflict, answer: Option<Label>): Verdict {
    if Contested(db, c) then Judge(db.mem[c.newId], c.newId, db.mem[c.existingId], c.existingId, answer)
    else BothStay
  }

  function ApplyVerdict(db: Db, v: Verdict): Db {
    match v
    case BothStay => db
    case Supersede(w, l, importance) =>
      if w in db.mem && l in db.mem then
        var mem := db.mem[w := db.mem[w].(importance := importance)];
        db.(mem := mem[l := SupersededRow(mem[l], w)])
      else db
  }

  function ResolveOne(db: Db, q: nat, answer: Option<Label>): Db {
    if q !in db.queue then db
    else ApplyVerdict(db, VerdictOn(db, db.queue[q], answer)).(queue := db.queue - {q})
  }

  function Resolve(db: Db, batch: seq<nat>, answers: seq<Option<Label>>): Db
    requires |answers| == |batch|
  {
    if batch == [] then db
    else
      var k := |batch| - 1;
      ResolveOne(Resolve(db, batch[..k], answers[..k]), batch[k], answers[k])
  }

  function ResolvedCount(db: Db, batch: seq<nat>, answers: seq<Option<Label>>): nat
    requires |answers| == |batch|
  {
    if batch == [] then 0
    else
      var k := |batch| - 1;
      var before := Resolve(db, batch[..k], answers[..k]);
      ResolvedCount(db, batch[..k], answers[..k])
      + if batch[k] in before.queue && VerdictOn(before, before.queue[batch[k]], answers[k]).Supersede? then 1 else 0
  }

  // ORDER BY similarity DESC LIMIT 50, ties in any order
  ghost predicate IsBatch(queue: map<nat, Conflict>, batch: seq<nat>) {
    && NoDup(batch)
    && (forall q :: q in batch ==> q in queue)
    && |batch| == (if |queue| < CONFLICT_RESOLUTION_BATCH then |queue| else CONFLICT_RESOLUTION_BATCH)
    && (forall i, j :: 0 <= i < j < |batch| ==> Queued(queue, batch[j]).similarity <= Queued(queue, batch[i]).similarity)
    && (forall q, i :: q in queue && q !in batch && 0 <= i < |batch| ==>
          Queued(queue, q).similarity <= Queued(queue, batch[i]).similarity)
  }

  method SelectBatch(queue: map<nat, Conflict>) returns (batch: seq<nat>)
    ensures IsBatch(queue, batch)
  {
    var ranked := EnumerateFalling(queue.Keys, q => if q in queue then queue[q].similarity else 0.0);
    batch := if |ranked| <= CONFLICT_RESOLUTION_BATCH then ranked else ranked[..CONFLICT_RESOLUTION_BATCH];
    BatchIsTop(queue, ranked, batch);
  }

  lemma BatchIsTop(queue: map<nat, Conflict>, ranked: seq<nat>, batch: seq<nat>)
    requires NoDup(ranked) && forall q :: q in ranked <==> q in queue
    requires forall i, j :: 0 <= i < j < |ranked| ==> Queued(queue, ranked[j]).similarity <= Queued(queue, ranked[i]).similarity
    requires batch == if |ranked| <= CONFLICT_RESOLUTION_BATCH then ranked else ranked[..CONFLICT_RESOLUTION_BATCH]
    ensures IsBatch(queue, batch)
  {
    DistinctCount(ranked);
    assert Elems(ranked) == queue.Keys;
    forall q, i | q in queue && q !in batch && 0 <= i < |batch|
      ensures Queued(queue, q).similarity <= Queued(queue, batch[i]).similarity
    {
      LeftOutIsWeaker(queue, ranked, |batch|, q, i);
    }
  }

  lemma LeftOutIsWeaker(queue: map<nat, Conflict>, ranked: seq<nat>, n: nat, q: nat, i: nat)
    requires n <= |ranked| && q in ranked && q !in ranked[..n] && i < n && forall p :: p in ranked ==> p in queue
    requires forall i, j :: 0 <= i < j < |ranked| ==> Queued(queue, ranked[j]).similarity <= Queued(queue, ranked[i]).similarity
    ensures Queued(queue, q).similarity <= Queued(queue, ranked[i]).similarity
  {
    var j :| 0 <= j < |ranked| && ranked[j] == q;
    assert j >= n;
  }

  // The LLM as a judge: what it says to its k-th prompt, made of the existing and the new content.
  type Oracle = (nat, string, string) -> Label

  // What the judge says to entry `q`, asked as number `k`; none when no LLM is configured.
  function AnswerTo(mem: map<Id, Row>, queue: map<nat, Conflict>, q: nat, judge: Option<Oracle>, k: nat): Option<Label> {
    match judge
    case None => None
    case Some(f) =>
      if q in queue && queue[q].newId in mem && queue[q].existingId in mem
      then Some(f(k, mem[queue[q].existingId].content, mem[queue[q].newId].content)) else Some(Unrelated)
  }

  // The answers of one pass.
  function Answers(db: Db, batch: seq<nat>, judge: Option<Oracle>): seq<Option<Label>> {
    seq(|batch|, k requires 0 <= k < |batch| => AnswerTo(db.mem, db.queue, batch[k], judge, k))
  }

  // With an LLM every answer is what it says of the two contents, the existing one first; without one there is none.
  ghost predicate SaidOf(db: Db, batch: seq<nat>, judge: Option<Oracle>, answers: seq<Option<Label>>) {
    && |answers| == |batch|
    && forall k :: 0 <= k < |batch| ==>
         match judge
         case None => answers[k] == None
         case Some(f) =>
           batch[k] in db.queue && db.queue[batch[k]].newId in db.mem && db.queue[batch[k]].existingId in db.mem ==>
             answers[k] == Some(f(k, db.mem[db.queue[batch[k]].existingId].content, db.mem[db.queue[batch[k]].newId].content))
  }

  ghost predicate ContentsKept(db: Db, after: Db) {
    forall id :: id in db.mem ==> id in after.mem && after.mem[id].content == db.mem[id].content
  }

  lemma ContentsCompose(a: Db, b: Db, c: Db)
    requires ContentsKept(a, b) && ContentsKept(b, c)
    ensures ContentsKept(a, c)
  {
  }

  // Judging changes no content, so every prompt reads the contents of the start.
  lemma {:induction false} ResolveKeepsContents(db: Db, batch: seq<nat>, answers: seq<Option<Label>>)
    requires |answers| == |batch|
    ensures ContentsKept(db, Resolve(db, batch, answers)) && Resolve(db, batch, answers).mem.Keys == db.mem.Keys
  {
    if batch != [] {
      var k := |batch| - 1;
      var mid := Resolve(db, batch[..k], answers[..k]);
      ResolveKeepsContents(db, batch[..k], answers[..k]);
      ResolveOneKeepsContents(mid, batch[k], answers[k]);
      ContentsCompose(db, mid, ResolveOne(mid, batch[k], answers[k]));
    }
  }

  lemma ResolveOneKeepsContents(db: Db, q: nat, answer: Option<Label>)
    ensures ContentsKept(db, ResolveOne(db, q, answer)) && ResolveOne(db, q, answer).mem.Keys == db.mem.Keys
  {
    if q in db.queue {
      VerdictKeepsContents(db, VerdictOn(db, db.queue[q], answer));
    }
  }

  lemma VerdictKeepsContents(db: Db, v: Verdict)
    ensures ContentsKept(db, ApplyVerdict(db, v)) && ApplyVerdict(db, v).mem.Keys == db.mem.Keys
  {
  }

  lemma SamePrompt(db: Db, mid: Db, q: nat, judge: Option<Oracle>, k: nat)
    requires ContentsKept(db, mid) && mid.mem.Keys == db.mem.Keys && q in db.queue && q in mid.queue && mid.queue[q] == db.queue[q]
    ensures AnswerTo(mid.mem, mid.queue, q, judge, k) == AnswerTo(db.mem, db.queue, q, judge, k)
  {
  }

  // One entry of the batch: judge it, write the verdict, remove it.
  method ResolveEntry(s: Store, q: nat, answer: Option<Label>) returns (superseded: bool)
    requires q in s.queue
    modifies s
    ensures s.State() == ResolveOne(old(s.State()), q, answer)
    ensures s.queue == old(s.queue) - {q}
    ensures superseded == VerdictOn(old(s.State()), old(s.queue)[q], answer).Supersede?
  {
    superseded := false;
    var c := s.queue[q];
    if c.newId in s.mem && s.mem[c.newId].user == c.user && c.existingId in s.mem && s.mem[c.existingId].user == c.user {
      var n, e := s.mem[c.newId], s.mem[c.existingId];
      if !n.isSuperseded && !e.isSuperseded {
        var verdict := Judge(n, c.newId, e, c.existingId, answer);
        if verdict.Supersede? {
          s.mem := s.mem[verdict.winner := s.mem[verdict.winner].(importance := verdict.importance)];
          s.mem := s.mem[verdict.loser := SupersededRow(s.mem[verdict.loser], verdict.winner)];
          superseded := true;
        }
      }
    }
    s.queue := s.queue - {q};
  }

  /** One pass: the top of the queue is judged in order, each entry on the contents of its two memories. */
  method ResolveConflicts(s: Store, judge: Option<Oracle>) returns (resolved: nat, batch: seq<nat>)
    modifies s
    ensures IsBatch(old(s.queue), batch)
    ensures s.State() == Resolve(old(s.State()), batch, Answers(old(s.State()), batch, judge))
    ensures resolved == ResolvedCount(old(s.State()), batch, Answers(old(s.State()), batch, judge))
  {
    batch := SelectBatch(s.queue);
    ghost var start := s.State();
    ghost var answers := Answers(start, batch, judge);
    resolved := 0;
    for k := 0 to |batch|
      invariant s.State() == Resolve(start, batch[..k], answers[..k])
      invariant resolved == ResolvedCount(start, batch[..k], answers[..k])
      invariant forall i :: k <= i < |batch| ==> batch[i] in s.queue && batch[i] in start.queue && s.queue[batch[i]] == start.queue[batch[i]]
    {
      assert batch[..k + 1][..k] == batch[..k] && answers[..k + 1][..k] == answers[..k];
      ResolveKeepsContents(start, batch[..k], answers[..k]);
      SamePrompt(start, s.State(), batch[k], judge, k);
      var answer := AnswerTo(s.mem, s.queue, batch[k], judge, k);
      var superseded := ResolveEntry(s, batch[k], answer);
      resolved := if superseded then resolved + 1 else resolved;
    }
    assert batch[..|batch|] == batch && answers[..|batch|] == answers;
  }

  // -------------------------------------------------------------------------
  // What a batch does, for any answers
  // -------------------------------------------------------------------------

  // Queue entries name two different rows of the entry's user.
  ghost predicate SoundQueue(db: Db) {
    forall q :: q in db.queue ==>
      && q < db.nextQueue
      && db.queue[q].newId != db.queue[q].existingId
      && Owns(db, db.queue[q].user, db.queue[q].newId)
      && Owns(db, db.queue[q].user, db.queue[q].existingId)
  }

  ghost function LiveSet(db: Db): set<Id> {
    set id | id in db.mem && Live(db, id)
  }

  // What pass 3 may change in a row; a superseded row is never touched again.
  ghost predicate ConflictEdit(r: Row, r': Row) {
    && r' == r.(isSuperseded := r'.isSuperseded, supersededBy := r'.supersededBy, contradictedBy := r'.contradictedBy,
                category := r'.category, floor := r'.floor, importance := r'.importance)
    && (r.isSuperseded ==> r' == r)
    && ((r'.category == r.category && r'.floor == r.floor)
        || (r.category == "core" && r'.category == "semantic" && r'.floor == 0.0 && r'.isSuperseded))
    && (r.category == "core" && r'.category == "core" ==> r'.isSuperseded == r.isSuperseded)
  }

  ghost predicate ConflictEdits(db: Db, after: Db) {
    && after == db.(mem := after.mem, queue := after.queue)
    && after.mem.Keys == db.mem.Keys
    && after.queue.Keys <= db.queue.Keys
    && (forall q :: q in after.queue ==> after.queue[q] == db.queue[q])
    && forall id: Id :: id in db.mem ==> ConflictEdit(db.mem[id], after.mem[id])
  }

  // A verdict names the two contested rows, one as winner and the other as loser.
  ghost predicate SoundVerdict(db: Db, v: Verdict) {
    v.Supersede? ==>
      && v.winner != v.loser && Live(db, v.winner) && Live(db, v.loser)
      && db.mem[v.winner].user == db.mem[v.loser].user
  }

  lemma VerdictIsSound(db: Db, q: nat, answer: Option<Label>)
    requires SoundQueue(db) && q in db.queue
    ensures SoundVerdict(db, VerdictOn(db, db.queue[q], answer))
  {
  }

  lemma VerdictEdits(db: Db, v: Verdict, q: nat)
    requires SoundVerdict(db, v)
    ensures ConflictEdits(db, ApplyVerdict(db, v).(queue := db.queue - {q}))
  {
    var after := ApplyVerdict(db, v).(queue := db.queue - {q});
    assert after.mem.Keys == db.mem.Keys;
  }

  lemma ResolveOneEdits(db: Db, q: nat, answer: Option<Label>)
    requires SoundQueue(db)
    ensures ConflictEdits(db, ResolveOne(db, q, answer))
    ensures SoundQueue(ResolveOne(db, q, answer))
  {
    if q in db.queue {
      VerdictIsSound(db, q, answer);
      VerdictEdits(db, VerdictOn(db, db.queue[q], answer), q);
    }
    EditsKeepQueue(db, ResolveOne(db, q, answer));
  }

  lemma EditsKeepQueue(db: Db, after: Db)
    requires SoundQueue(db) && ConflictEdits(db, after)
    ensures SoundQueue(after)
  {
    forall q | q in after.queue
      ensures Owns(after, after.queue[q].user, after.queue[q].newId) && Owns(after, after.queue[q].user, after.queue[q].existingId)
    {
      assert ConflictEdit(db.mem[db.queue[q].newId], after.mem[db.queue[q].newId]);
      assert ConflictEdit(db.mem[db.queue[q].existingId], after.mem[db.queue[q].existingId]);
    }
  }

  lemma EditsCompose(a: Db, b: Db, c: Db)
    requires ConflictEdits(a, b) && ConflictEdits(b, c)
    ensures ConflictEdits(a, c)
  {
    forall id | id in a.mem
      ensures ConflictEdit(a.mem[id], c.mem[id])
    {
      assert ConflictEdit(a.mem[id], b.mem[id]) && ConflictEdit(b.mem[id], c.mem[id]);
    }
  }

  lemma {:induction false} ResolveEdits(db: Db, batch: seq<nat>, answers: seq<Option<Label>>)
    requires |answers| == |batch| && SoundQueue(db)
    ensures ConflictEdits(db, Resolve(db, batch, answers))
    ensures SoundQueue(Resolve(db, batch, answers))
  {
    if batch != [] {
      var k := |batch| - 1;
      ResolveEdits(db, batch[..k], answers[..k]);
      ResolveOneEdits(Resolve(db, batch[..k], answers[..k]), batch[k], answers[k]);
      EditsCompose(db, Resolve(db, batch[..k], answers[..k]), Resolve(db, batch, answers));
    }
  }

  lemma {:induction false} BatchLeavesQueue(db: Db, batch: seq<nat>, answers: seq<Option<Label>>)
    requires |answers| == |batch|
    ensures Resolve(db, batch, answers).queue == db.queue - Elems(batch)
  {
    if batch != [] {
      var k := |batch| - 1;
      BatchLeavesQueue(db, batch[..k], answers[..k]);
      assert Elems(batch) == Elems(batch[..k]) + {batch[k]};
      assert Resolve(db, batch, answers).queue == Resolve(db, batch[..k], answers[..k]).queue - {batch[k]};
    }
  }

  /** The batch, and nothing else, leaves the queue: exactly min(50, queue length) entries. */
  lemma ResolveDrainsBatch(db: Db, batch: seq<nat>, answers: seq<Option<Label>>)
    requires |answers| == |batch| && IsBatch(db.queue, batch)
    ensures Resolve(db, batch, answers).queue == db.queue - Elems(batch)
    ensures |Resolve(db, batch, answers).queue| == if |db.queue| < 50 then 0 else |db.queue| - 50
  {
    BatchLeavesQueue(db, batch, answers);
    DistinctCount(batch);
    var rest := db.queue - Elems(batch);
    assert Elems(batch) <= db.queue.Keys;
    assert rest.Keys == db.queue.Keys - Elems(batch);
    assert |rest| == |rest.Keys| && |db.queue| == |db.queue.Keys|;
  }

  // One verdict: the loser, live until now, points at a different row that is live before and after.
  lemma VerdictRows(db: Db, v: Verdict, q: nat)
    requires SoundVerdict(db, v) && v.Supersede?
    ensures var after := ApplyVerdict(db, v).(queue := db.queue - {q});
            && after.nextId == db.nextId && after.mem.Keys == db.mem.Keys
            && (forall id: Id :: id in db.mem && id != v.loser ==> SameLineage(db.mem[id], after.mem[id]))
            && after.mem[v.loser].user == db.mem[v.loser].user
            && after.mem[v.loser].isSuperseded && after.mem[v.loser].supersededBy == Some(v.winner)
  {
  }

  lemma VerdictGrafts(db: Db, v: Verdict, q: nat)
    requires WellMarked(db) && SoundVerdict(db, v) && v.Supersede?
    ensures Grafted(db, ApplyVerdict(db, v).(queue := db.queue - {q}), {v.loser}, v.winner)
  {
    VerdictRows(db, v, q);
  }

  // The loser, and nobody else, stops being live.
  lemma VerdictLive(db: Db, v: Verdict, q: nat)
    requires SoundVerdict(db, v)
    ensures var after := ApplyVerdict(db, v).(queue := db.queue - {q});
            && LiveSet(after) == (if v.Supersede? then LiveSet(db) - {v.loser} else LiveSet(db))
            && (Flagged(db) ==> Flagged(after))
  {
    var after := ApplyVerdict(db, v).(queue := db.queue - {q});
    if v.Supersede? {
      VerdictRows(db, v, q);
      forall id: Id
        ensures id in LiveSet(after) <==> id in LiveSet(db) - {v.loser}
        ensures id in after.mem && Flagged(db) ==> (after.mem[id].isSuperseded <==> after.mem[id].supersededBy.Some?)
      {
        assert id in after.mem <==> id in db.mem;
      }
    }
  }

  lemma {:induction false} ResolveKeepsForest(db: Db, batch: seq<nat>, answers: seq<Option<Label>>)
    requires |answers| == |batch| && SoundQueue(db) && Forest(db)
    ensures Forest(Resolve(db, batch, answers))
  {
    if batch != [] {
      var k := |batch| - 1;
      var (mid, q) := (Resolve(db, batch[..k], answers[..k]), batch[k]);
      ResolveKeepsForest(db, batch[..k], answers[..k]);
      ResolveEdits(db, batch[..k], answers[..k]);
      if q in mid.queue {
        var v := VerdictOn(mid, mid.queue[q], answers[k]);
        VerdictIsSound(mid, q, answers[k]);
        var after := ApplyVerdict(mid, v).(queue := mid.queue - {q});
        if v.Supersede? {
          VerdictGrafts(mid, v, q);
          GraftedIsForest(mid, after, {v.loser}, v.winner);
        } else {
          KeptLineageIsForest(mid, after);
        }
      }
    }
  }

  lemma VerdictCounts(db: Db, v: Verdict, q: nat)
    requires SoundVerdict(db, v)
    ensures var after := ApplyVerdict(db, v).(queue := db.queue - {q});
            LiveSet(after) <= LiveSet(db) && |LiveSet(after)| == |LiveSet(db)| - (if v.Supersede? then 1 else 0)
  {
    VerdictLive(db, v, q);
    assert v.Supersede? ==> v.loser in LiveSet(db);
  }

  /** Exactly `resolved` rows move from live to superseded. */
  lemma {:induction false} ResolveCountsLosers(db: Db, batch: seq<nat>, answers: seq<Option<Label>>)
    requires |answers| == |batch| && SoundQueue(db)
    ensures LiveSet(Resolve(db, batch, answers)) <= LiveSet(db)
    ensures |LiveSet(Resolve(db, batch, answers))| == |LiveSet(db)| - ResolvedCount(db, batch, answers)
  {
    if batch != [] {
      var k := |batch| - 1;
      var (mid, q) := (Resolve(db, batch[..k], answers[..k]), batch[k]);
      ResolveCountsLosers(db, batch[..k], answers[..k]);
      ResolveEdits(db, batch[..k], answers[..k]);
      if q in mid.queue {
        VerdictIsSound(mid, q, answers[k]);
        VerdictCounts(mid, VerdictOn(mid, mid.queue[q], answers[k]), q);
      }
    }
  }

  lemma {:induction false} ResolveKeepsFlags(db: Db, batch: seq<nat>, answers: seq<Option<Label>>)
    requires |answers| == |batch| && SoundQueue(db) && Flagged(db)
    ensures Flagged(Resolve(db, batch, answers))
  {
    if batch != [] {
      var k := |batch| - 1;
      var (mid, q) := (Resolve(db, batch[..k], answers[..k]), batch[k]);
      ResolveKeepsFlags(db, batch[..k], answers[..k]);
      ResolveEdits(db, batch[..k], answers[..k]);
      if q in mid.queue {
        VerdictIsSound(mid, q, answers[k]);
        VerdictLive(mid, VerdictOn(mid, mid.queue[q], answers[k]), q);
      }
    }
  }

  // Extending the table with more verdicts keeps every chain that stays among superseded rows.
  lemma {:induction false} ChainSurvivesEdit(db: Db, after: Db, x: Id, y: Id, k: nat)
    requires Flagged(db) && ConflictEdits(db, after) && LeadsTo(db, x, y, k)
    ensures LeadsTo(after, x, y, k)
    decreases k
  {
    if k > 0 {
      assert ConflictEdit(db.mem[x], after.mem[x]);
      ChainSurvivesEdit(db, after, db.mem[x].supersededBy.value, y, k - 1);
    }
  }

  /** Every memory live before the batch is represented afterwards by a live memory it leads to. */
  lemma {:induction false} EveryMemoryHasASurvivor(db: Db, batch: seq<nat>, answers: seq<Option<Label>>, x: Id)
    returns (y: Id, steps: nat)
    requires |answers| == |batch| && SoundQueue(db) && Flagged(db) && Live(db, x)
    ensures Live(db, y) && Live(Resolve(db, batch, answers), y)
    ensures LeadsTo(Resolve(db, batch, answers), x, y, steps)
  {
    if batch == [] {
      y, steps := x, 0;
    } else {
      var k := |batch| - 1;
      var (mid, q) := (Resolve(db, batch[..k], answers[..k]), batch[k]);
      y, steps := EveryMemoryHasASurvivor(db, batch[..k], answers[..k], x);
      ResolveEdits(db, batch[..k], answers[..k]);
      ResolveCountsLosers(db, batch[..k], answers[..k]);
      ResolveKeepsFlags(db, batch[..k], answers[..k]);
      if q in mid.queue {
        var v := VerdictOn(mid, mid.queue[q], answers[k]);
        VerdictIsSound(mid, q, answers[k]);
        y, steps := SurvivorOfVerdict(mid, v, q, x, y, steps);
        assert y in LiveSet(mid);
      }
    }
  }

  lemma SurvivorOfVerdict(db: Db, v: Verdict, q: nat, x: Id, y: Id, steps: nat) returns (y': Id, steps': nat)
    requires Flagged(db) && SoundVerdict(db, v) && Live(db, y) && LeadsTo(db, x, y, steps)
    ensures var after := ApplyVerdict(db, v).(queue := db.queue - {q});
            Live(db, y') && Live(after, y') && LeadsTo(after, x, y', steps')
  {
    var after := ApplyVerdict(db, v).(queue := db.queue - {q});
    VerdictEdits(db, v, q);
    ChainSurvivesEdit(db, after, x, y, steps);
    y', steps' := y, steps;
    VerdictLive(db, v, q);
    assert y in LiveSet(db);
    if v.Supersede? && y == v.loser {
      VerdictRows(db, v, q);
      assert LeadsTo(after, v.winner, v.winner, 0);
      assert LeadsTo(after, y, v.winner, 1);
      Concat(after, x, y, v.winner, steps, 1);
      y', steps' := v.winner, steps + 1;
      assert v.winner in LiveSet(db);
    }
    assert y' in LiveSet(after);
  }

  // Whoever supersedes a member is a member.
  ghost predicate Closed(db: Db, members: set<Id>) {
    forall id: Id :: id in members && id in db.mem && db.mem[id].supersededBy.Some? ==>
      db.mem[id].supersededBy.value in members
  }

  lemma {:induction false} ChainStaysInside(db: Db, members: set<Id>, x: Id, y: Id, k: nat)
    requires x in members && LeadsTo(db, x, y, k)
    requires Closed(db, members)
    ensures y in members
    decreases k
  {
    if k > 0 {
      ChainStaysInside(db, members, db.mem[x].supersededBy.value, y, k - 1);
    }
  }

  // Every entry of the batch that names a member names two.
  ghost predicate ClosedUnderConflict(queue: map<nat, Conflict>, batch: seq<nat>, members: set<Id>) {
    forall q :: q in batch && q in queue ==> (queue[q].newId in members <==> queue[q].existingId in members)
  }

  lemma WinnerStaysInside(db: Db, q: nat, answer: Option<Label>, members: set<Id>)
    requires Closed(db, members)
    requires q in db.queue ==> (db.queue[q].newId in members <==> db.queue[q].existingId in members)
    ensures Closed(ResolveOne(db, q, answer), members)
  {
    var after := ResolveOne(db, q, answer);
    forall id: Id | id in members && id in after.mem && after.mem[id].supersededBy.Some?
      ensures after.mem[id].supersededBy.value in members
    {
      assert id in db.mem;
    }
  }

  lemma {:induction false} WinnersStayInside(db: Db, batch: seq<nat>, answers: seq<Option<Label>>, members: set<Id>)
    requires |answers| == |batch| && SoundQueue(db) && Closed(db, members) && ClosedUnderConflict(db.queue, batch, members)
    ensures Closed(Resolve(db, batch, answers), members)
  {
    if batch != [] {
      var k := |batch| - 1;
      WinnersStayInside(db, batch[..k], answers[..k], members);
      ResolveEdits(db, batch[..k], answers[..k]);
      assert batch[k] in batch;
      WinnerStaysInside(Resolve(db, batch[..k], answers[..k]), batch[k], answers[k], members);
    }
  }

  /**
    No batch supersedes every member of a set of conflicting memories: if the conflicts of the batch
    pair members with members only, then for any answers some live member is still live afterwards.
   */
  lemma SomeMemberSurvives(db: Db, batch: seq<nat>, answers: seq<Option<Label>>, group: set<Id>)
    requires |answers| == |batch| && SoundQueue(db) && Flagged(db)
    requires group != {} && forall id: Id :: id in group ==> Live(db, id)
    requires ClosedUnderConflict(db.queue, batch, group)
    ensures exists id :: id in group && Live(Resolve(db, batch, answers), id)
  {
    WinnersStayInside(db, batch, answers, group);
    var x :| x in group;
    var y, k := EveryMemoryHasASurvivor(db, batch, answers, x);
    ChainStaysInside(Resolve(db, batch, answers), group, x, y, k);
  }
}
