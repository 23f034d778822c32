/** Storing memories: band dispatch and co-creation links (`handle_memory_store`, `queue_conflicts_for`). */
module Ingest {
  import opened Lifecycle
  import opened Collections
  import opened Tables
  import opened Hits
  import opened Associations

  const CONFLICT_SIMILARITY_THRESHOLD: real := 0.85
  const STABILITY_REINFORCEMENT_THRESHOLD: real := 0.75
  const STABILITY_REINFORCEMENT_AMOUNT: real := 0.05
  const SYNAPTIC_TAG_THRESHOLD: real := 0.4
  const SYNAPTIC_TAG_BASE_WEIGHT: real := 0.2

  datatype Band = Queued | Reinforced | Tagged | Ignored

  function BandOf(score: real): Band {
    if score >= CONFLICT_SIMILARITY_THRESHOLD then Queued
    else if score >= STABILITY_REINFORCEMENT_THRESHOLD then Reinforced
    else if score >= SYNAPTIC_TAG_THRESHOLD then Tagged
    else Ignored
  }

  function SynapticTagWeight(sim: real): real {
    Min(SYNAPTIC_TAG_BASE_WEIGHT + (sim - SYNAPTIC_TAG_THRESHOLD) * 0.5, 0.5)
  }

  predicate SamePair(c: Conflict, user: string, newId: Id, existingId: Id) {
    c.user == user && c.newId == newId && c.existingId == existingId
  }

  predicate PairQueued(db: Db, user: string, newId: Id, existingId: Id) {
    exists q :: q in db.queue && SamePair(db.queue[q], user, newId, existingId)
  }

  // INSERT OR IGNORE under the uniqueness constraint on the pair.
  function Enqueue(db: Db, user: string, newId: Id, existingId: Id, sim: real): Db {
    if PairQueued(db, user, newId, existingId) then db
    else db.(queue := db.queue[db.nextQueue := Conflict(user, newId, existingId, sim)], nextQueue := db.nextQueue + 1)
  }

  function Reinforce(db: Db, user: string, id: Id): Db {
    if Owns(db, user, id)
    then db.(mem := db.mem[id := db.mem[id].(stability := Min(1.0, db.mem[id].stability + STABILITY_REINFORCEMENT_AMOUNT))])
    else db
  }

  // The synaptic upsert replaces the weight and keeps the co-retrieval time of an existing link.
  function Tag(assoc: Links, a: Id, b: Id, weight: real): Links {
    assoc[(a, b) := Edge(weight, if (a, b) in assoc then assoc[(a, b)].lastCoRetrieval else None)]
  }

  function DispatchHit(db: Db, user: string, newId: Id, h: Ranked): Db {
    if h.id == newId then db
    else match BandOf(h.score)
      case Queued => Enqueue(db, user, newId, h.id, h.score)
      case Reinforced => Reinforce(db, user, h.id)
      case Tagged =>
        var w := SynapticTagWeight(h.score);
        db.(assoc := Tag(Tag(db.assoc, newId, h.id, w), h.id, newId, w))
      case Ignored => db
  }

  function DispatchAll(db: Db, user: string, newId: Id, hits: seq<Ranked>): Db {
    if hits == [] then db
    else DispatchHit(DispatchAll(db, user, newId, hits[..|hits| - 1]), user, newId, hits[|hits| - 1])
  }

  // What a search for `user` hands over: ranked, without repetition, rows of that user.
  ghost predicate RankedHits(db: Db, user: string, hits: seq<Ranked>) {
    && Descending(hits)
    && DistinctIds(hits)
    && forall h :: h in hits ==> Owns(db, user, h.id)
  }

  lemma {:induction false} IdleTail(db: Db, user: string, newId: Id, hits: seq<Ranked>, k: nat)
    requires k <= |hits|
    requires forall i :: k <= i < |hits| ==> BandOf(hits[i].score) == Ignored
    ensures DispatchAll(db, user, newId, hits) == DispatchAll(db, user, newId, hits[..k])
    decreases |hits|
  {
    if k < |hits| {
      assert hits[..|hits| - 1][..k] == hits[..k];
      IdleTail(db, user, newId, hits[..|hits| - 1], k);
    } else {
      assert hits[..k] == hits;
    }
  }

  /** The loop that stops below the lowest band has the effect of dispatching every hit. */
  method DispatchHits(s: Store, user: string, newId: Id, hits: seq<Ranked>)
    requires Descending(hits)
    modifies s
    ensures s.State() == DispatchAll(old(s.State()), user, newId, hits)
  {
    for k := 0 to |hits|
      invariant s.State() == DispatchAll(old(s.State()), user, newId, hits[..k])
    {
      var h := hits[k];
      assert hits[..k + 1][..k] == hits[..k];
      if h.id == newId {
        continue;
      }
      if h.score >= CONFLICT_SIMILARITY_THRESHOLD {
        if !exists q :: q in s.queue && SamePair(s.queue[q], user, newId, h.id) {
          s.queue := s.queue[s.nextQueue := Conflict(user, newId, h.id, h.score)];
          s.nextQueue := s.nextQueue + 1;
        }
      } else if h.score >= STABILITY_REINFORCEMENT_THRESHOLD {
        if h.id in s.mem && s.mem[h.id].user == user {
          var row := s.mem[h.id];
          s.mem := s.mem[h.id := row.(stability := Min(1.0, row.stability + STABILITY_REINFORCEMENT_AMOUNT))];
        }
      } else if h.score >= SYNAPTIC_TAG_THRESHOLD {
        var weight := SynapticTagWeight(h.score);
        s.assoc := Tag(s.assoc, newId, h.id, weight);
        s.assoc := Tag(s.assoc, h.id, newId, weight);
      } else {
        IdleTail(old(s.State()), user, newId, hits, k);
        return;
      }
    }
    assert hits[..|hits|] == hits;
  }

  function StoredRow(user: string, content: string, category: string, importance: Option<real>,
                     vector: seq<real>, provider: string, model: string, now: int): Row {
    var row := NewRow(user, content, category, vector, provider, model, now);
    match importance
    case Some(imp) => row.(importance := Clamp01(imp), stability := 0.1 + 0.3 * Clamp01(imp))
    case None => row
  }

  function StoreMemory(db: Db, row: Row, hits: seq<Ranked>): Db {
    DispatchAll(Insert(db, row), row.user, db.nextId, hits)
  }

  method HandleStore(s: Store, user: string, content: string, category: string, importance: Option<real>,
                     vector: seq<real>, provider: string, model: string, now: int, hits: seq<Ranked>)
    returns (id: Id)
    requires Descending(hits)
    modifies s
    ensures id == old(s.nextId)
    ensures s.State() == StoreMemory(old(s.State()),
                           StoredRow(user, content, category, importance, vector, provider, model, now), hits)
  {
    var row := NewRow(user, content, category, vector, provider, model, now);
    if importance.Some? {
      row := row.(importance := Clamp01(importance.value));
      row := row.(stability := 0.1 + 0.3 * row.importance);
    }
    id := s.InsertRow(row);
    DispatchHits(s, user, id, hits);
  }

  datatype Entry = Entry(content: string, category: string, vector: seq<real>)

  function InsertEntries(db: Db, user: string, entries: seq<Entry>, provider: string, model: string, now: int): Db {
    if entries == [] then db
    else
      var e := entries[|entries| - 1];
      Insert(InsertEntries(db, user, entries[..|entries| - 1], provider, model, now),
             NewRow(user, e.content, e.category, e.vector, provider, model, now))
  }

  function Consecutive(first: nat, n: nat): seq<Id> {
    seq(n, i requires 0 <= i < n => first + i)
  }

  function StoreBatch(db: Db, user: string, entries: seq<Entry>, provider: string, model: string,
                      weight: real, now: int): Db {
    LinkPairs(InsertEntries(db, user, entries, provider, model, now),
              PairsOf(Consecutive(db.nextId, |entries|)), weight, now)
  }

  method HandleStoreBatch(s: Store, user: string, entries: seq<Entry>, provider: string, model: string,
                          weight: real, now: int) returns (ids: seq<Id>)
    modifies s
    ensures ids == Consecutive(old(s.nextId), |entries|)
    ensures s.State() == StoreBatch(old(s.State()), user, entries, provider, model, weight, now)
  {
    ids := [];
    for k := 0 to |entries|
      invariant ids == Consecutive(old(s.nextId), k)
      invariant s.nextId == old(s.nextId) + k
      invariant s.State() == InsertEntries(old(s.State()), user, entries[..k], provider, model, now)
    {
      var e := entries[k];
      assert entries[..k + 1][..k] == entries[..k];
      var id := s.InsertRow(NewRow(user, e.content, e.category, e.vector, provider, model, now));
      ids := ids + [id];
    }
    assert entries[..|entries|] == entries;
    LinkAllPairs(s, ids, weight, now);
  }

  // -------------------------------------------------------------------------
  // The effect of the dispatch, hit by hit
  // -------------------------------------------------------------------------

  // The memory just inserted has no links and no queued conflicts yet.
  ghost predicate Unconnected(db: Db, newId: Id) {
    && (forall e :: e in db.assoc ==> e.0 != newId && e.1 != newId)
    && (forall q :: q in db.queue ==> db.queue[q].newId != newId && q < db.nextQueue)
  }

  // The score of the last hit on `x`, if there is one and `x` is not the new memory itself.
  function ScoreFor(hits: seq<Ranked>, newId: Id, x: Id): Option<real> {
    if hits == [] || x == newId then None
    else if hits[|hits| - 1].id == x then Some(hits[|hits| - 1].score)
    else ScoreFor(hits[..|hits| - 1], newId, x)
  }

  predicate Within(score: Option<real>, low: real, high: real) {
    score.Some? && low <= score.value < high
  }

  /**
    What ingest did to memory `x`, hit with `score`: from 0.85 on the pair is queued with that similarity;
    from 0.75 the memory gains 0.05 stability, up to one; from 0.4 the two are linked both ways, at weights
    that grow from 0.2 by half the similarity above 0.4, undated; and nothing else happens.
   */
  ghost predicate Outcome(db: Db, after: Db, user: string, newId: Id, x: Id, score: Option<real>)
    requires x in db.mem && x in after.mem
  {
    && (PairQueued(after, user, newId, x) <==> score.Some? && score.value >= 0.85)
    && (forall q :: q in after.queue && SamePair(after.queue[q], user, newId, x) ==> score == Some(after.queue[q].similarity))
    && after.mem[x] == (if Within(score, 0.75, 0.85)
                        then db.mem[x].(stability := if db.mem[x].stability < 0.95 then db.mem[x].stability + 0.05 else 1.0)
                        else db.mem[x])
    && ((newId, x) in after.assoc <==> Within(score, 0.4, 0.75))
    && ((x, newId) in after.assoc <==> Within(score, 0.4, 0.75))
    && (Within(score, 0.4, 0.75) ==>
          after.assoc[(newId, x)] == after.assoc[(x, newId)] == Edge(0.2 + (score.value - 0.4) / 2.0, None))
  }

  ghost predicate OldLinksKept(db: Db, after: Db, newId: Id) {
    forall a, b :: a != newId && b != newId ==>
      ((a, b) in after.assoc <==> (a, b) in db.assoc)
      && ((a, b) in db.assoc ==> after.assoc[(a, b)] == db.assoc[(a, b)])
  }

  ghost predicate OldConflictsKept(db: Db, after: Db, newId: Id) {
    && db.nextQueue <= after.nextQueue
    && (forall q :: q in after.queue ==> q < after.nextQueue)
    && (forall q :: q in db.queue ==> q in after.queue && after.queue[q] == db.queue[q])
    && (forall q :: q in after.queue && q !in db.queue ==> after.queue[q].newId == newId)
  }

  // The shape every dispatched state has relative to the state right after the insertion.
  ghost predicate Dispatched(db: Db, after: Db, newId: Id) {
    && after == db.(mem := after.mem, assoc := after.assoc, queue := after.queue, nextQueue := after.nextQueue)
    && after.mem.Keys == db.mem.Keys
    && newId in db.mem && after.mem[newId] == db.mem[newId]
    && OldLinksKept(db, after, newId)
    && OldConflictsKept(db, after, newId)
    && (newId, newId) !in after.assoc
  }

  lemma EnqueueKeepsShape(db: Db, mid: Db, user: string, newId: Id, h: Ranked)
    requires Dispatched(db, mid, newId)
    ensures Dispatched(db, Enqueue(mid, user, newId, h.id, h.score), newId)
  {
  }

  lemma ReinforceKeepsShape(db: Db, mid: Db, user: string, newId: Id, h: Id)
    requires Dispatched(db, mid, newId) && h != newId
    ensures Dispatched(db, Reinforce(mid, user, h), newId)
  {
  }

  lemma TagKeepsShape(db: Db, mid: Db, newId: Id, h: Id, w: real)
    requires Dispatched(db, mid, newId) && h != newId
    ensures Dispatched(db, mid.(assoc := Tag(Tag(mid.assoc, newId, h, w), h, newId, w)), newId)
  {
  }

  lemma HitKeepsShape(db: Db, mid: Db, user: string, newId: Id, h: Ranked)
    requires Dispatched(db, mid, newId)
    requires h.id in db.mem
    ensures Dispatched(db, DispatchHit(mid, user, newId, h), newId)
  {
    if h.id != newId {
      EnqueueKeepsShape(db, mid, user, newId, h);
      ReinforceKeepsShape(db, mid, user, newId, h.id);
      TagKeepsShape(db, mid, newId, h.id, SynapticTagWeight(h.score));
    }
  }

  lemma HitTreatsItsMemory(db: Db, mid: Db, user: string, newId: Id, h: Ranked)
    requires Dispatched(db, mid, newId)
    requires h.id != newId && Owns(db, user, h.id)
    requires Outcome(db, mid, user, newId, h.id, None)
    ensures h.id in DispatchHit(mid, user, newId, h).mem
    ensures Outcome(db, DispatchHit(mid, user, newId, h), user, newId, h.id, Some(h.score))
  {
    var after := DispatchHit(mid, user, newId, h);
    if BandOf(h.score) == Queued {
      assert after.queue[mid.nextQueue] == Conflict(user, newId, h.id, h.score);
      assert PairQueued(after, user, newId, h.id);
    }
  }

  lemma HitLeavesOthers(db: Db, mid: Db, user: string, newId: Id, h: Ranked, x: Id, score: Option<real>)
    requires Dispatched(db, mid, newId)
    requires h.id in db.mem && x in db.mem && x != h.id && x != newId
    requires Outcome(db, mid, user, newId, x, score)
    ensures x in DispatchHit(mid, user, newId, h).mem
    ensures Outcome(db, DispatchHit(mid, user, newId, h), user, newId, x, score)
  {
    QueueUntouched(mid, user, newId, h, x);
  }

  /**
    Every memory other than the new one gets exactly what its score asks for, and no link between memories
    that existed before changes.
   */
  lemma {:induction false} DispatchOutcome(db: Db, user: string, newId: Id, hits: seq<Ranked>)
    requires newId in db.mem && Unconnected(db, newId) && DistinctIds(hits)
    requires forall h :: h in hits ==> Owns(db, user, h.id)
    ensures Dispatched(db, DispatchAll(db, user, newId, hits), newId)
    ensures forall x :: x in db.mem && x != newId ==>
      Outcome(db, DispatchAll(db, user, newId, hits), user, newId, x, ScoreFor(hits, newId, x))
  {
    if hits != [] {
      var (front, h) := (hits[..|hits| - 1], hits[|hits| - 1]);
      assert h in hits;
      DispatchOutcome(db, user, newId, front);
      var mid := DispatchAll(db, user, newId, front);
      HitKeepsShape(db, mid, user, newId, h);
      NotAmong(front, newId, h.id);
      forall x | x in db.mem && x != newId
        ensures Outcome(db, DispatchAll(db, user, newId, hits), user, newId, x, ScoreFor(hits, newId, x))
      {
        if x == h.id {
          HitTreatsItsMemory(db, mid, user, newId, h);
        } else if h.id != newId {
          HitLeavesOthers(db, mid, user, newId, h, x, ScoreFor(front, newId, x));
        }
      }
    }
  }

  lemma {:induction false} NotAmong(hits: seq<Ranked>, newId: Id, x: Id)
    requires forall i :: 0 <= i < |hits| ==> hits[i].id != x
    ensures ScoreFor(hits, newId, x) == None
  {
    if hits != [] {
      NotAmong(hits[..|hits| - 1], newId, x);
    }
  }

  // With one hit per id, the score of a hit is the score of its memory.
  lemma {:induction false} ScoreAtPosition(hits: seq<Ranked>, newId: Id, i: nat)
    requires DistinctIds(hits) && i < |hits| && hits[i].id != newId
    ensures ScoreFor(hits, newId, hits[i].id) == Some(hits[i].score)
  {
    if i < |hits| - 1 {
      ScoreAtPosition(hits[..|hits| - 1], newId, i);
    }
  }

  lemma QueueUntouched(db: Db, user: string, newId: Id, h: Ranked, x: Id)
    requires x != h.id
    requires forall q :: q in db.queue ==> q < db.nextQueue
    ensures forall q :: q in DispatchHit(db, user, newId, h).queue && SamePair(DispatchHit(db, user, newId, h).queue[q], user, newId, x) ==>
      q in db.queue && db.queue[q] == DispatchHit(db, user, newId, h).queue[q]
    ensures PairQueued(DispatchHit(db, user, newId, h), user, newId, x) <==> PairQueued(db, user, newId, x)
  {
    var after := DispatchHit(db, user, newId, h);
    if PairQueued(db, user, newId, x) {
      var q :| q in db.queue && SamePair(db.queue[q], user, newId, x);
      assert q in after.queue && after.queue[q] == db.queue[q];
    }
    if PairQueued(after, user, newId, x) {
      var q :| q in after.queue && SamePair(after.queue[q], user, newId, x);
      assert q in db.queue && after.queue[q] == db.queue[q];
    }
  }
}
