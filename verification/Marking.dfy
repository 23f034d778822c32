/** When the client's MarkSuperseded keeps the lineage a forest (`mark_superseded`), over every run. */
module Marking {
  import opened Collections
  import opened Lifecycle
  import opened Tables
  import opened Lineage
  import opened Requests
  import opened Steps
  import R = Runs

  // Some row of `marked` lies on the chain from `x`.
  ghost predicate Reaches(db: Db, x: Id, marked: set<Id>) {
    exists y: Id, k: nat :: y in marked && LeadsTo(db, x, y, k)
  }

  /**
    The request marks nothing, or its summary is an id that was handed out, belongs to the user if it
    still exists, and does not itself lead to a row it is to supersede.
   */
  ghost predicate SoundMark(db: Db, user: string, ids: seq<Id>, summary: Id) {
    || OwnedAmong(db, user, ids) == {}
    || (&& summary < db.nextId
        && (summary in db.mem ==> db.mem[summary].user == user)
        && !Reaches(db, summary, OwnedAmong(db, user, ids)))
  }

  // -------------------------------------------------------------------------
  // One request
  // -------------------------------------------------------------------------

  lemma MarkedRows(db: Db, user: string, ids: seq<Id>, summary: Id, id: Id)
    requires id in db.mem
    ensures var after := Superseding(db, user, ids, summary);
            && id in after.mem && after.mem[id].user == db.mem[id].user
            && (if id in OwnedAmong(db, user, ids)
                then after.mem[id].isSuperseded && after.mem[id].supersededBy == Some(summary)
                else after.mem[id] == db.mem[id])
  {
  }

  ghost predicate Marked(db: Db, after: Db, marked: set<Id>, summary: Id) {
    && after.nextId == db.nextId && after.mem.Keys == db.mem.Keys && marked <= db.mem.Keys
    && (forall id: Id :: id in marked ==>
          && id in after.mem && id in db.mem && after.mem[id].user == db.mem[id].user
          && after.mem[id].isSuperseded && after.mem[id].supersededBy == Some(summary))
    && (forall id: Id :: id in db.mem && id !in marked ==> id in after.mem && after.mem[id] == db.mem[id])
  }

  lemma SupersedingMarks(db: Db, user: string, ids: seq<Id>, summary: Id)
    ensures Marked(db, Superseding(db, user, ids, summary), OwnedAmong(db, user, ids), summary)
  {
    var (after, marked) := (Superseding(db, user, ids, summary), OwnedAmong(db, user, ids));
    assert after.mem.Keys == db.mem.Keys;
    forall id: Id | id in db.mem
      ensures after.mem[id].user == db.mem[id].user
      ensures if id in marked then after.mem[id].isSuperseded && after.mem[id].supersededBy == Some(summary)
              else after.mem[id] == db.mem[id]
    {
      MarkedRows(db, user, ids, summary, id);
    }
  }

  ghost predicate Behind(db: Db, x: Id, id: Id) {
    exists k: nat :: LeadsTo(db, x, id, k)
  }

  lemma {:induction false} OneFurther(db: Db, x: Id, id: Id, k: nat)
    requires LeadsTo(db, x, id, k) && id in db.mem && db.mem[id].supersededBy.Some?
    ensures LeadsTo(db, x, db.mem[id].supersededBy.value, k + 1)
  {
    var next := db.mem[id].supersededBy.value;
    assert LeadsTo(db, next, next, 0);
    assert LeadsTo(db, id, next, 1);
    Concat(db, x, id, next, k, 1);
  }

  // Lifting everything behind the summary above everything else ranks the new table.
  ghost function Lifted(db: Db, rank: map<Id, nat>, bound: nat, summary: Id): map<Id, nat> {
    map id: Id | 0 <= id < db.nextId :: Rank(rank, id) + if Behind(db, summary, id) then bound + 1 else 0
  }

  lemma LiftedRank(db: Db, rank: map<Id, nat>, bound: nat, summary: Id, id: Id)
    requires id < db.nextId
    ensures Rank(Lifted(db, rank, bound, summary), id) == Rank(rank, id) + if Behind(db, summary, id) then bound + 1 else 0
  {
  }

  lemma LiftedStep(db: Db, after: Db, marked: set<Id>, summary: Id, rank: map<Id, nat>, bound: nat, id: Id)
    requires WellMarked(db) && Ascending(db, rank, bound) && Marked(db, after, marked, summary)
    requires summary < db.nextId && !Reaches(db, summary, marked) && id in after.mem && after.mem[id].supersededBy.Some?
    ensures var lifted := Lifted(db, rank, bound, summary);
            Rank(lifted, id) < Rank(lifted, after.mem[id].supersededBy.value)
  {
    LiftedRank(db, rank, bound, summary, id);
    if id in marked {
      assert LeadsTo(db, summary, summary, 0);
      LiftedRank(db, rank, bound, summary, summary);
    } else {
      LiftedRank(db, rank, bound, summary, db.mem[id].supersededBy.value);
      if Behind(db, summary, id) {
        var k: nat :| LeadsTo(db, summary, id, k);
        OneFurther(db, summary, id, k);
      }
    }
  }

  lemma SoundMarkIsAcyclic(db: Db, after: Db, marked: set<Id>, summary: Id)
    requires Forest(db) && Marked(db, after, marked, summary) && summary < db.nextId && !Reaches(db, summary, marked)
    ensures Acyclic(after)
  {
    var rank: map<Id, nat>, bound: nat :| Ascending(db, rank, bound);
    var lifted := Lifted(db, rank, bound, summary);
    forall id: Id | id in after.mem && after.mem[id].supersededBy.Some?
      ensures Rank(lifted, id) < Rank(lifted, after.mem[id].supersededBy.value)
    {
      LiftedStep(db, after, marked, summary, rank, bound, id);
    }
    assert Ascending(after, lifted, 2 * bound + 1);
  }

  lemma SoundMarkKeepsForest(db: Db, after: Db, marked: set<Id>, user: string, summary: Id)
    requires Forest(db) && Marked(db, after, marked, summary) && forall id: Id :: id in marked ==> Owns(db, user, id)
    requires summary < db.nextId && (summary in db.mem ==> db.mem[summary].user == user) && !Reaches(db, summary, marked)
    ensures Forest(after)
  {
    SoundMarkIsAcyclic(db, after, marked, summary);
    UsersAgree(db, after, marked, user, summary);
    assert WellMarked(after);
  }

  lemma UsersAgree(db: Db, after: Db, marked: set<Id>, user: string, summary: Id)
    requires WithinUsers(db) && Marked(db, after, marked, summary) && forall id: Id :: id in marked ==> Owns(db, user, id)
    requires summary in db.mem ==> db.mem[summary].user == user
    ensures WithinUsers(after)
  {
    forall id: Id | id in db.mem
      ensures after.mem[id].user == db.mem[id].user
    {
    }
  }

  // A chain that reaches a marked row reaches a first one, by steps that the request leaves alone.
  lemma {:induction false} FirstMarked(db: Db, after: Db, marked: set<Id>, summary: Id, x: Id, y: Id, k: nat)
    returns (z: Id, j: nat)
    requires Marked(db, after, marked, summary) && y in marked && LeadsTo(db, x, y, k)
    ensures z in marked && LeadsTo(after, x, z, j)
    decreases k
  {
    if x in marked {
      z, j := x, 0;
    } else {
      z, j := FirstMarked(db, after, marked, summary, db.mem[x].supersededBy.value, y, k - 1);
      j := j + 1;
    }
  }

  lemma BadMarkBreaksForest(db: Db, after: Db, marked: set<Id>, user: string, summary: Id)
    requires Marked(db, after, marked, summary) && marked != {} && forall id: Id :: id in marked ==> Owns(db, user, id)
    requires Forest(after)
    ensures summary < db.nextId && (summary in db.mem ==> db.mem[summary].user == user) && !Reaches(db, summary, marked)
  {
    var m :| m in marked;
    assert m in after.mem && after.mem[m].supersededBy == Some(summary);
    assert summary in db.mem ==> summary in after.mem && after.mem[summary].user == db.mem[summary].user;
    if Reaches(db, summary, marked) {
      var y: Id, k: nat :| y in marked && LeadsTo(db, summary, y, k);
      var z, j := FirstMarked(db, after, marked, summary, summary, y, k);
      assert LeadsTo(after, summary, summary, 0);
      assert LeadsTo(after, z, summary, 1);
      Concat(after, summary, z, summary, j, 1);
      NoCycle(after, summary, j + 1);
    }
  }

  /** A MarkSuperseded request keeps the forest if and only if it is sound. */
  lemma MarkKeepsForestIffSound(db: Db, user: string, ids: seq<Id>, summary: Id)
    requires Forest(db)
    ensures Forest(Superseding(db, user, ids, summary)) <==> SoundMark(db, user, ids, summary)
  {
    var (after, marked) := (Superseding(db, user, ids, summary), OwnedAmong(db, user, ids));
    SupersedingMarks(db, user, ids, summary);
    if marked == {} {
      assert after.mem == db.mem;
      assert after == db;
    } else {
      if SoundMark(db, user, ids, summary) {
        SoundMarkKeepsForest(db, after, marked, user, summary);
      }
      if Forest(after) {
        BadMarkBreaksForest(db, after, marked, user, summary);
      }
    }
  }

  // -------------------------------------------------------------------------
  // Runs
  // -------------------------------------------------------------------------

  ghost predicate BadMark(db: Db, req: Request) {
    req.MarkSuperseded? && !SoundMark(db, req.user, req.ids, req.summary)
  }

  lemma StepKeepsForestIffSound(db: Db, req: Request, after: Db, cfg: Config)
    requires cfg.intervalDays != 0.0 && SoundTables(db) && Forest(db) && Next(db, req, after, cfg)
    ensures Forest(after) <==> !BadMark(db, req)
  {
    if req.MarkSuperseded? {
      MarkKeepsForestIffSound(db, req.user, req.ids, req.summary);
    } else {
      R.NextKeepsForest(db, req, after, cfg);
    }
  }

  ghost predicate ForestUpTo(states: seq<Db>, n: nat)
    requires n < |states|
  {
    forall i :: 0 <= i <= n ==> Forest(states[i])
  }

  ghost predicate NoBadMark(states: seq<Db>, reqs: seq<Request>, n: nat)
    requires |states| == |reqs| + 1 && n < |states|
  {
    forall i :: 0 <= i < n ==> !BadMark(states[i], reqs[i])
  }

  lemma StepIn(states: seq<Db>, reqs: seq<Request>, cfg: Config, n: nat)
    requires cfg.intervalDays != 0.0 && Run(states, reqs, cfg) && n < |reqs| && SoundTables(states[n]) && Forest(states[n])
    ensures Forest(states[n + 1]) <==> !BadMark(states[n], reqs[n])
  {
    assert StepAt(states, reqs, cfg, n);
    StepKeepsForestIffSound(states[n], reqs[n], states[n + 1], cfg);
  }

  /** Over every run the lineage is a forest throughout if and only if every MarkSuperseded in it is sound. */
  lemma {:induction false} ForestIffEveryMarkIsSound(states: seq<Db>, reqs: seq<Request>, cfg: Config, n: nat)
    requires cfg.intervalDays != 0.0 && Run(states, reqs, cfg) && n < |states|
    ensures ForestUpTo(states, n) <==> NoBadMark(states, reqs, n)
  {
    if n == 0 {
      EmptyIsForest();
    } else {
      ForestIffEveryMarkIsSound(states, reqs, cfg, n - 1);
      if ForestUpTo(states, n - 1) {
        R.TablesStaySound(states, reqs, cfg, n - 1);
        StepIn(states, reqs, cfg, n - 1);
      }
    }
  }
}
