/**
  The daemon's tables (`crates/store/src/pool.rs`, `crates/store/src/repos.rs`).

  Ids are naturals handed out by counters: ULIDs and autoincrement keys are never reused.
  `Db` is the value of all tables together; `Store` is the object whose fields the repositories
  update.
 */
module Tables {
  import opened Collections
  import opened Lifecycle

  type Id = nat

  // A stored session id, or the placeholder the promotion gate adds before the id is drawn.
  datatype Session = Pending | Stored(n: nat)

  datatype Row = Row(
    user: string,
    content: string,
    category: string,
    embedding: Option<seq<real>>,
    provider: string,
    model: string,
    createdAt: int,
    lastAccessedAt: int,
    validFrom: Option<int>,
    validUntil: Option<int>,
    floor: real,
    retrievalCount: int,
    importance: real,
    stability: real,
    isCold: bool,
    coldSince: Option<int>,
    daysAtFloor: nat,
    isSuperseded: bool,
    supersededBy: Option<Id>,
    contradictedBy: Option<Id>,
    isStub: bool,
    stubContent: Option<string>,
    sessions: seq<Session>)

  datatype Edge = Edge(weight: real, lastCoRetrieval: Option<int>)

  datatype Conflict = Conflict(user: string, newId: Id, existingId: Id, similarity: real)

  // A `create_or_strengthen` call between its read and its write.
  datatype PendingLink = PendingLink(source: Id, target: Id, seen: Option<real>)

  datatype Db = Db(
    mem: map<Id, Row>,
    assoc: map<(Id, Id), Edge>,
    queue: map<nat, Conflict>,
    pending: map<nat, PendingLink>,
    nextId: nat,
    nextQueue: nat,
    nextSession: nat)

  const EMPTY: Db := Db(map[], map[], map[], map[], 0, 0, 0)

  const CORE_RETENTION_FLOOR: real := 0.6

  predicate Owns(db: Db, user: string, id: Id) {
    id in db.mem && db.mem[id].user == user
  }

  predicate Live(db: Db, id: Id) {
    id in db.mem && !db.mem[id].isSuperseded
  }

  predicate Hot(r: Row) {
    !r.isCold && !r.isStub && !r.isSuperseded
  }

  function FloorFor(category: string): real {
    if category == "core" then CORE_RETENTION_FLOOR else 0.0
  }

  function NewRow(user: string, content: string, category: string, embedding: seq<real>,
                  provider: string, model: string, now: int): Row {
    Row(user, content, category, Some(embedding), provider, model, now, now, None, None,
        FloorFor(category), 0, 0.0, 0.1, false, None, 0, false, None, None, false, None, [])
  }

  function Insert(db: Db, row: Row): Db {
    db.(mem := db.mem[db.nextId := row], nextId := db.nextId + 1)
  }

  // One statement that rewrites rows in place, keeping every key.
  function MapRows(db: Db, f: (Id, Row) -> Row): Db {
    db.(mem := map id | id in db.mem :: f(id, db.mem[id]))
  }

  // Deleting rows cascades to the links and the queued conflicts that mention them.
  function DeleteRows(db: Db, gone: set<Id>): Db {
    db.(mem := map id | id in db.mem && id !in gone :: db.mem[id],
        assoc := map e | e in db.assoc && e.0 !in gone && e.1 !in gone :: db.assoc[e],
        queue := map q | q in db.queue && db.queue[q].newId !in gone && db.queue[q].existingId !in gone
                   :: db.queue[q])
  }

  function StateOf(r: Row, cfg: Config): MemoryState {
    MemoryState(r.lastAccessedAt, r.createdAt, r.stability, r.importance, BetaFor(cfg, r.category),
                r.floor, r.isStub, r.retrievalCount, 0, ParseCategory(r.category))
  }

  // `embedding_vec`
  function Vec(r: Row): seq<real> {
    match r.embedding case Some(v) => v case None => []
  }

  // `compute_current_retention`
  function Retention(r: Row, now: int, cfg: Config): real {
    ComputeRetention(StateOf(r, cfg), now, cfg)
  }

  class Store {
    var mem: map<Id, Row>
    var assoc: map<(Id, Id), Edge>
    var queue: map<nat, Conflict>
    var pending: map<nat, PendingLink>
    var nextId: nat
    var nextQueue: nat
    var nextSession: nat

    function State(): Db
      reads this
    {
      Db(mem, assoc, queue, pending, nextId, nextQueue, nextSession)
    }

    constructor ()
      ensures State() == EMPTY
    {
      mem, assoc, queue, pending := map[], map[], map[], map[];
      nextId, nextQueue, nextSession := 0, 0, 0;
    }

    method InsertRow(row: Row) returns (id: Id)
      modifies this
      ensures id == old(nextId) && State() == Insert(old(State()), row)
    {
      id := nextId;
      mem := mem[id := row];
      nextId := nextId + 1;
    }

    // `DELETE FROM memories`, with the cascades of the schema.
    method Delete(gone: set<Id>)
      modifies this
      ensures State() == DeleteRows(old(State()), gone)
    {
      mem := map id | id in mem && id !in gone :: mem[id];
      assoc := map e | e in assoc && e.0 !in gone && e.1 !in gone :: assoc[e];
      queue := map q | q in queue && queue[q].newId !in gone && queue[q].existingId !in gone :: queue[q];
    }
  }

  // Where an id first occurs in a list.
  function Position(ids: seq<Id>, x: Id): (p: nat)
    requires x in ids
    ensures p < |ids| && ids[p] == x && forall j :: 0 <= j < p ==> ids[j] != x
  {
    if ids[0] == x then 0 else 1 + Position(ids[1..], x)
  }

  lemma PositionOfFirst(ids: seq<Id>, i: nat)
    requires i < |ids| && ids[i] !in ids[..i]
    ensures Position(ids, ids[i]) == i
  {
    assert forall j :: 0 <= j < i ==> ids[..i][j] in ids[..i];
  }

  /** `get_many_for_user`: the ids of `ids` that are rows of `user`, each once, in the order of `ids`. */
  method SelectOwned(s: Store, user: string, ids: seq<Id>) returns (rows: seq<Id>)
    ensures NoDup(rows)
    ensures forall x :: x in rows <==> x in ids && Owns(s.State(), user, x)
    ensures forall i :: 0 <= i < |rows| ==> rows[i] in ids && Owns(s.State(), user, rows[i])
    ensures forall i, j :: 0 <= i < j < |rows| ==> Position(ids, rows[i]) < Position(ids, rows[j])
  {
    rows := [];
    for i := 0 to |ids|
      invariant NoDup(rows)
      invariant forall x :: x in rows <==> x in ids[..i] && Owns(s.State(), user, x)
      invariant forall j :: 0 <= j < |rows| ==> rows[j] in ids && Owns(s.State(), user, rows[j])
      invariant forall j :: 0 <= j < |rows| ==> Position(ids, rows[j]) < i
      invariant forall j, k :: 0 <= j < k < |rows| ==> Position(ids, rows[j]) < Position(ids, rows[k])
    {
      assert ids[..i + 1] == ids[..i] + [ids[i]];
      if ids[i] in s.mem && s.mem[ids[i]].user == user && ids[i] !in rows {
        PositionOfFirst(ids, i);
        rows := rows + [ids[i]];
      }
    }
    assert ids[..|ids|] == ids;
  }

  /** One transaction of per-row updates: each listed row that exists is rewritten by `f`. */
  method RewriteRows(s: Store, rows: seq<Id>, f: (Id, Row) -> Row)
    requires NoDup(rows)
    modifies s
    ensures s.State() == MapRows(old(s.State()), (id: Id, r: Row) => if id in rows then f(id, r) else r)
  {
    ghost var before := s.mem;
    for k := 0 to |rows|
      invariant s.State() == old(s.State()).(mem := s.mem)
      invariant s.mem.Keys == before.Keys
      invariant forall i :: 0 <= i < k && rows[i] in before ==> s.mem[rows[i]] == f(rows[i], before[rows[i]])
      invariant forall id :: id in before && (forall i :: 0 <= i < k ==> rows[i] != id) ==> s.mem[id] == before[id]
    {
      var id := rows[k];
      if id in s.mem {
        s.mem := s.mem[id := f(id, s.mem[id])];
      }
    }
    assert s.mem == MapRows(old(s.State()), (id: Id, r: Row) => if id in rows then f(id, r) else r).mem;
  }
}
