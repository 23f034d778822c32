/** The `superseded_by` relation: a forest within each user. */
module Lineage {
  import opened Collections
  import opened Tables

  // Following `superseded_by` from `x` for `k` steps arrives at `y`.
  ghost predicate LeadsTo(db: Db, x: Id, y: Id, k: nat)
    decreases k
  {
    if k == 0 then x == y
    else x in db.mem && db.mem[x].supersededBy.Some? && LeadsTo(db, db.mem[x].supersededBy.value, y, k - 1)
  }

  ghost function Rank(rank: map<Id, nat>, id: Id): nat {
    if id in rank then rank[id] else 0
  }

  // Along every `superseded_by` step the rank grows, up to a bound.
  ghost predicate Ascending(db: Db, rank: map<Id, nat>, bound: nat) {
    && (forall id: Id :: Rank(rank, id) <= bound)
    && (forall id: Id :: id in db.mem && db.mem[id].supersededBy.Some? ==>
          Rank(rank, id) < Rank(rank, db.mem[id].supersededBy.value))
  }

  ghost predicate Acyclic(db: Db) {
    exists rank: map<Id, nat>, bound: nat :: Ascending(db, rank, bound)
  }

  // The superseded flag agrees with the reference.
  ghost predicate Flagged(db: Db) {
    forall id: Id :: id in db.mem ==> (db.mem[id].isSuperseded <==> db.mem[id].supersededBy.Some?)
  }

  ghost predicate WellMarked(db: Db) {
    && (forall id: Id :: id in db.mem ==> id < db.nextId)
    && Flagged(db)
    && (forall id: Id :: id in db.mem && db.mem[id].supersededBy.Some? ==> db.mem[id].supersededBy.value < db.nextId)
  }

  ghost predicate WithinUsers(db: Db) {
    forall id: Id :: id in db.mem && db.mem[id].supersededBy.Some? && db.mem[id].supersededBy.value in db.mem ==>
      db.mem[db.mem[id].supersededBy.value].user == db.mem[id].user
  }

  ghost predicate Forest(db: Db) {
    WellMarked(db) && WithinUsers(db) && Acyclic(db)
  }

  predicate SameLineage(r: Row, r': Row) {
    r'.user == r.user && r'.isSuperseded == r.isSuperseded && r'.supersededBy == r.supersededBy
  }

  // -------------------------------------------------------------------------
  // What a forest gives
  // -------------------------------------------------------------------------

  lemma {:induction false} Follow(db: Db, rank: map<Id, nat>, bound: nat, x: Id) returns (y: Id, k: nat)
    requires WithinUsers(db) && Ascending(db, rank, bound) && x in db.mem
    ensures LeadsTo(db, x, y, k)
    ensures y in db.mem ==> db.mem[y].supersededBy.None? && db.mem[y].user == db.mem[x].user
    decreases bound - Rank(rank, x)
  {
    if db.mem[x].supersededBy.None? {
      y, k := x, 0;
    } else {
      var next := db.mem[x].supersededBy.value;
      if next in db.mem {
        y, k := Follow(db, rank, bound, next);
        k := k + 1;
      } else {
        y, k := next, 1;
        assert LeadsTo(db, next, y, 0);
      }
    }
  }

  /** From any row, `superseded_by` ends at a row that is not superseded, or at a deleted id. */
  lemma EveryChainEnds(db: Db, x: Id) returns (y: Id, k: nat)
    requires Forest(db) && x in db.mem
    ensures LeadsTo(db, x, y, k)
    ensures y in db.mem ==> Live(db, y) && db.mem[y].user == db.mem[x].user
  {
    var rank: map<Id, nat>, bound: nat :| Ascending(db, rank, bound);
    y, k := Follow(db, rank, bound, x);
  }

  lemma {:induction false} RankGrows(db: Db, rank: map<Id, nat>, bound: nat, x: Id, y: Id, k: nat)
    requires Ascending(db, rank, bound) && LeadsTo(db, x, y, k)
    ensures Rank(rank, x) + k <= Rank(rank, y)
    decreases k
  {
    if k > 0 {
      RankGrows(db, rank, bound, db.mem[x].supersededBy.value, y, k - 1);
    }
  }

  /** No row supersedes itself through any number of steps. */
  lemma NoCycle(db: Db, x: Id, k: nat)
    requires Forest(db) && LeadsTo(db, x, x, k)
    ensures k == 0
  {
    var rank: map<Id, nat>, bound: nat :| Ascending(db, rank, bound);
    RankGrows(db, rank, bound, x, x, k);
  }

  lemma {:induction false} Concat(db: Db, x: Id, y: Id, z: Id, j: nat, k: nat)
    requires LeadsTo(db, x, y, j) && LeadsTo(db, y, z, k)
    ensures LeadsTo(db, x, z, j + k)
    decreases j
  {
    if j > 0 {
      Concat(db, db.mem[x].supersededBy.value, y, z, j - 1, k);
    }
  }

  // -------------------------------------------------------------------------
  // What keeps a forest
  // -------------------------------------------------------------------------

  // Rows may be edited, deleted, or inserted fresh and live.
  ghost predicate LineageKept(db: Db, after: Db) {
    && db.nextId <= after.nextId
    && forall id: Id :: id in after.mem ==>
         if id in db.mem then SameLineage(db.mem[id], after.mem[id])
         else db.nextId <= id < after.nextId && !after.mem[id].isSuperseded && after.mem[id].supersededBy.None?
  }

  lemma KeptLineageIsForest(db: Db, after: Db)
    requires Forest(db) && LineageKept(db, after)
    ensures Forest(after)
  {
    var rank: map<Id, nat>, bound: nat :| Ascending(db, rank, bound);
    assert Ascending(after, rank, bound);
  }

  // `losers`, live until now, become superseded by the live row `w`; the rest keeps its lineage.
  ghost predicate Grafted(db: Db, after: Db, losers: set<Id>, w: Id) {
    && db.nextId <= after.nextId
    && w in after.mem && w !in losers && w < after.nextId
    && !after.mem[w].isSuperseded && after.mem[w].supersededBy.None?
    && (if w in db.mem then SameLineage(db.mem[w], after.mem[w]) else db.nextId <= w)
    && (forall id: Id :: id in losers ==>
          && id in db.mem && id in after.mem && !db.mem[id].isSuperseded
          && after.mem[id].isSuperseded && after.mem[id].supersededBy == Some(w)
          && after.mem[id].user == db.mem[id].user == after.mem[w].user)
    && (forall id: Id :: id in after.mem && id !in losers && id != w ==> id in db.mem && SameLineage(db.mem[id], after.mem[id]))
  }

  lemma GraftedIsForest(db: Db, after: Db, losers: set<Id>, w: Id)
    requires Forest(db) && Grafted(db, after, losers, w)
    ensures Forest(after)
  {
    var rank: map<Id, nat>, bound: nat :| Ascending(db, rank, bound);
    GraftRanks(db, after, losers, w, rank, bound);
  }

  // Ranking the winner above everything else ranks the grafted table.
  lemma GraftRanks(db: Db, after: Db, losers: set<Id>, w: Id, rank: map<Id, nat>, bound: nat)
    requires Ascending(db, rank, bound) && Grafted(db, after, losers, w) && WellMarked(db)
    ensures Ascending(after, rank[w := bound + 1], bound + 1)
  {
    var rank' := rank[w := bound + 1];
    assert forall id: Id :: Rank(rank', id) == if id == w then bound + 1 else Rank(rank, id);
    forall id: Id | id in after.mem && after.mem[id].supersededBy.Some?
      ensures Rank(rank', id) < Rank(rank', after.mem[id].supersededBy.value)
    {
      assert Rank(rank, id) <= bound;
      if id !in losers {
        assert SameLineage(db.mem[id], after.mem[id]);
      }
    }
  }

  lemma EmptyIsForest()
    ensures Forest(EMPTY)
  {
    assert Ascending(EMPTY, map[], 0);
  }
}
