/** Symmetry of the association graph, and what a link write that interleaves with others loses. */
module Symmetry {
  import opened Collections
  import opened Lifecycle
  import opened Tables
  import opened Associations
  import opened Requests
  import opened Steps
  import I = Ingest
  import R = Runs
  import S = Consolidation

  // -------------------------------------------------------------------------
  // When the graph is symmetric
  // -------------------------------------------------------------------------

  // Writing weight `w` from `a` to `b` alone leaves a mirror that is missing or carries another weight.
  predicate LeavesMirrorBehind(db: Db, a: Id, b: Id, w: real) {
    && a != b && EndpointsExist(db, a, b)
    && !((b, a) in db.assoc && db.assoc[(b, a)].weight == w)
  }

  // The request writes or cuts one direction only, and the other does not match.
  predicate Skews(db: Db, req: Request) {
    match req
    case Link(a, b, strength, bidirectional, _) =>
      !bidirectional && LeavesMirrorBehind(db, a, b, Bumped(SeenWeight(db.assoc, a, b), strength))
    case LinkWrite(task, strength, _) =>
      task in db.pending
      && var p := db.pending[task]; LeavesMirrorBehind(db, p.source, p.target, Bumped(p.seen, strength))
    case Unlink(a, b, bidirectional) => !bidirectional && a != b && (a, b) in db.assoc
    case _ => false
  }

  // One link written, the rest as before.
  lemma OneWrite(assoc: Links, after: Links, a: Id, b: Id)
    requires Symmetric(assoc) && (a, b) in after && after == assoc[(a, b) := after[(a, b)]]
    ensures Symmetric(after) <==> a == b || ((b, a) in assoc && assoc[(b, a)].weight == after[(a, b)].weight)
  {
    if a == b || ((b, a) in assoc && assoc[(b, a)].weight == after[(a, b)].weight) {
      forall c, d
        ensures Mirrored(after, c, d)
      {
        assert Mirrored(assoc, c, d) && Mirrored(assoc, d, c);
      }
    } else {
      assert !Mirrored(after, a, b);
    }
  }

  lemma OneCut(assoc: Links, after: Links, a: Id, b: Id)
    requires Symmetric(assoc) && after == map e | e in assoc && e != (a, b) :: assoc[e]
    ensures Symmetric(after) <==> a == b || (a, b) !in assoc
  {
    assert Mirrored(assoc, a, b);
    if a == b || (a, b) !in assoc {
      forall c, d
        ensures Mirrored(after, c, d)
      {
        assert Mirrored(assoc, c, d) && Mirrored(assoc, d, c);
      }
    } else {
      assert !Mirrored(after, b, a);
    }
  }

  lemma LinkIsSymmetricIff(db: Db, a: Id, b: Id, strength: real, now: int)
    requires Symmetric(db.assoc)
    ensures Symmetric(CreateOrStrengthen(db, a, b, strength, now).assoc) <==>
            !LeavesMirrorBehind(db, a, b, Bumped(SeenWeight(db.assoc, a, b), strength))
  {
    if EndpointsExist(db, a, b) {
      OneWrite(db.assoc, CreateOrStrengthen(db, a, b, strength, now).assoc, a, b);
    }
  }

  lemma WriteIsSymmetricIff(db: Db, task: nat, strength: real, now: int)
    requires Symmetric(db.assoc) && task in db.pending
    ensures var p := db.pending[task];
            Symmetric(FinishLink(db, task, strength, now).assoc) <==>
            !LeavesMirrorBehind(db, p.source, p.target, Bumped(p.seen, strength))
  {
    var p := db.pending[task];
    if EndpointsExist(db, p.source, p.target) {
      OneWrite(db.assoc, FinishLink(db, task, strength, now).assoc, p.source, p.target);
    }
  }

  lemma StepIsSymmetricIffNotSkewed(db: Db, req: Request, after: Db, cfg: Config)
    requires cfg.intervalDays != 0.0 && SoundTables(db) && Next(db, req, after, cfg) && Symmetric(db.assoc)
    ensures Symmetric(after.assoc) <==> !Skews(db, req)
  {
    if OneSided(req) {
      match req
      case Link(a, b, strength, _, now) => LinkIsSymmetricIff(db, a, b, strength, now);
      case LinkWrite(task, strength, now) =>
        if task in db.pending {
          WriteIsSymmetricIff(db, task, strength, now);
        }
      case Unlink(a, b, _) => OneCut(db.assoc, after.assoc, a, b);
      case LinkRead(_, _, _) =>
    } else {
      R.NextKeepsTables(db, req, after, cfg);
    }
  }

  ghost predicate SymmetricUpTo(states: seq<Db>, n: nat)
    requires n < |states|
  {
    forall i :: 0 <= i <= n ==> Symmetric(states[i].assoc)
  }

  ghost predicate NoneSkews(states: seq<Db>, reqs: seq<Request>, n: nat)
    requires |states| == |reqs| + 1 && n < |states|
  {
    forall i :: 0 <= i < n ==> !Skews(states[i], reqs[i])
  }

  lemma StepIn(states: seq<Db>, reqs: seq<Request>, cfg: Config, n: nat)
    requires cfg.intervalDays != 0.0 && Run(states, reqs, cfg) && n < |reqs|
    requires SoundTables(states[n]) && Symmetric(states[n].assoc)
    ensures Symmetric(states[n + 1].assoc) <==> !Skews(states[n], reqs[n])
  {
    assert StepAt(states, reqs, cfg, n);
    StepIsSymmetricIffNotSkewed(states[n], reqs[n], states[n + 1], cfg);
  }

  /**
    Over every run, split link writes included, the graph is symmetric in weight throughout if and only if
    no request writes or cuts one direction of a link so that its mirror is missing or differs.
   */
  lemma {:induction false} SymmetricIffNoneSkews(states: seq<Db>, reqs: seq<Request>, cfg: Config, n: nat)
    requires cfg.intervalDays != 0.0 && Run(states, reqs, cfg) && n < |states|
    ensures SymmetricUpTo(states, n) <==> NoneSkews(states, reqs, n)
  {
    if n > 0 {
      SymmetricIffNoneSkews(states, reqs, cfg, n - 1);
      if SymmetricUpTo(states, n - 1) {
        R.TablesStaySound(states, reqs, cfg, n - 1);
        StepIn(states, reqs, cfg, n - 1);
      }
    }
  }

  /** In particular, runs without one-sided or split link writes keep the graph symmetric. */
  lemma LinksStaySymmetric(states: seq<Db>, reqs: seq<Request>, cfg: Config, n: nat)
    requires cfg.intervalDays != 0.0 && Run(states, reqs, cfg) && n < |states|
    requires forall i :: 0 <= i < n ==> !OneSided(reqs[i])
    ensures Symmetric(states[n].assoc)
  {
    SymmetricIffNoneSkews(states, reqs, cfg, n);
    assert NoneSkews(states, reqs, n);
  }

  // -------------------------------------------------------------------------
  // What interleaving loses
  // -------------------------------------------------------------------------

  // The write finds its endpoints, and what it read would give another weight than what is there now.
  predicate WritesStale(db: Db, task: nat, strength: real) {
    && task in db.pending
    && var p := db.pending[task];
       && EndpointsExist(db, p.source, p.target)
       && Bumped(p.seen, strength) != Bumped(SeenWeight(db.assoc, p.source, p.target), strength)
  }

  /** The second half of a split write leaves the links an atomic bump would leave, if and only if it is not stale. */
  lemma WriteIsAtomicIffNotStale(db: Db, task: nat, strength: real, now: int)
    requires task in db.pending
    ensures var p := db.pending[task];
            FinishLink(db, task, strength, now).assoc == CreateOrStrengthen(db, p.source, p.target, strength, now).assoc
            <==> !WritesStale(db, task, strength)
  {
    var p := db.pending[task];
    var (split, atomic) := (FinishLink(db, task, strength, now).assoc,
                            CreateOrStrengthen(db, p.source, p.target, strength, now).assoc);
    if EndpointsExist(db, p.source, p.target) {
      assert split[(p.source, p.target)].weight == Bumped(p.seen, strength);
      assert atomic[(p.source, p.target)].weight == Bumped(SeenWeight(db.assoc, p.source, p.target), strength);
    }
  }

  // Request `n` is no second half of a split write, or leaves what an atomic bump would leave.
  ghost predicate ActsAtomically(states: seq<Db>, reqs: seq<Request>, n: nat)
    requires |states| == |reqs| + 1 && n < |reqs|
  {
    var (db, req) := (states[n], reqs[n]);
    req.LinkWrite? && req.task in db.pending ==>
      var p := db.pending[req.task];
      states[n + 1].assoc == CreateOrStrengthen(db, p.source, p.target, req.strength, req.now).assoc
  }

  ghost predicate ReadsFresh(states: seq<Db>, reqs: seq<Request>, n: nat)
    requires |states| == |reqs| + 1 && n < |reqs|
  {
    reqs[n].LinkWrite? ==> !WritesStale(states[n], reqs[n].task, reqs[n].strength)
  }

  lemma AtomicIffFresh(states: seq<Db>, reqs: seq<Request>, cfg: Config, n: nat)
    requires cfg.intervalDays != 0.0 && Run(states, reqs, cfg) && n < |reqs|
    ensures ActsAtomically(states, reqs, n) <==> ReadsFresh(states, reqs, n)
  {
    assert StepAt(states, reqs, cfg, n);
    if reqs[n].LinkWrite? && reqs[n].task in states[n].pending {
      WriteIsAtomicIffNotStale(states[n], reqs[n].task, reqs[n].strength, reqs[n].now);
    }
  }

  /** Over every run, every split write acts as one atomic bump if and only if none of them is stale. */
  lemma BumpsAreAtomicIffNoneIsStale(states: seq<Db>, reqs: seq<Request>, cfg: Config)
    requires cfg.intervalDays != 0.0 && Run(states, reqs, cfg)
    ensures (forall n :: 0 <= n < |reqs| ==> ActsAtomically(states, reqs, n)) <==>
            (forall n :: 0 <= n < |reqs| ==> ReadsFresh(states, reqs, n))
  {
    forall n | 0 <= n < |reqs|
      ensures ActsAtomically(states, reqs, n) <==> ReadsFresh(states, reqs, n)
    {
      AtomicIffFresh(states, reqs, cfg, n);
    }
  }

  // -------------------------------------------------------------------------
  // A run that loses a bump
  // -------------------------------------------------------------------------

  const ENTRY: I.Entry := I.Entry("", "semantic", [1.0])
  const STAMP: S.Stamp := S.Stamp("local", "m", 0)
  const BATCH: Request := StoreBatch("u", [ENTRY, ENTRY], 0.5, STAMP)
  const ROW: Row := NewRow("u", "", "semantic", [1.0], "local", "m", 0)

  // Two memories with the given weights in both directions, and the given writes in progress.
  function Pair(there: real, back: real, pending: map<nat, PendingLink>): Db {
    EMPTY.(mem := map[0 := ROW, 1 := ROW], nextId := 2, pending := pending,
           assoc := map[(0, 1) := Edge(there, Some(0)), (1, 0) := Edge(back, Some(0))])
  }

  lemma BatchMakesAPair(cfg: Config)
    requires cfg.intervalDays != 0.0
    ensures Next(EMPTY, BATCH, Pair(0.5, 0.5, map[]), cfg)
  {
    var es := [ENTRY, ENTRY];
    assert es[..1] == [ENTRY] && es[..1][..0] == [];
    assert I.InsertEntries(EMPTY, "u", [], "local", "m", 0) == EMPTY;
    assert I.InsertEntries(EMPTY, "u", es[..1], "local", "m", 0) == Insert(EMPTY, ROW);
    var two := I.InsertEntries(EMPTY, "u", es, "local", "m", 0);
    assert two == Insert(Insert(EMPTY, ROW), ROW);
    assert two.mem == map[0 := ROW, 1 := ROW];
    var ids := I.Consecutive(0, 2);
    assert ids == [0, 1] && ids[1..] == [1] && ids[1..][1..] == [];
    assert PairsOf([1]) == [];
    assert PairsOf(ids) == [(0, 1)];
    assert [(0, 1)][..0] == [];
    assert LinkPairs(two, [(0, 1)], 0.5, 0) == LinkBoth(two, 0, 1, 0.5, 0);
    assert LinkBoth(two, 0, 1, 0.5, 0).assoc == Pair(0.5, 0.5, map[]).assoc;
  }

  // One task reads a direction of the pair ...
  lemma ReadsPair(there: real, back: real, pending: map<nat, PendingLink>, task: nat, forward: bool, cfg: Config)
    requires cfg.intervalDays != 0.0
    ensures var (a, b) := if forward then (0, 1) else (1, 0);
            Next(Pair(there, back, pending), LinkRead(task, a, b),
                 Pair(there, back, pending[task := PendingLink(a, b, Some(if forward then there else back))]), cfg)
  {
  }

  // ... and writes it back a quarter heavier.
  lemma WritesPair(there: real, back: real, pending: map<nat, PendingLink>, task: nat, seen: real, forward: bool, cfg: Config)
    requires cfg.intervalDays != 0.0 && 0.0 <= seen <= 0.75 && task in pending
    requires pending[task] == (if forward then PendingLink(0, 1, Some(seen)) else PendingLink(1, 0, Some(seen)))
    ensures Next(Pair(there, back, pending), LinkWrite(task, 0.25, 0),
                 if forward then Pair(seen + 0.25, back, pending - {task}) else Pair(there, seen + 0.25, pending - {task}), cfg)
  {
    var db := Pair(there, back, pending);
    var after := if forward then Pair(seen + 0.25, back, pending - {task}) else Pair(there, seen + 0.25, pending - {task});
    assert FinishLink(db, task, 0.25, 0).assoc == after.assoc;
  }

  // A task bumps one direction without interruption.
  lemma BumpedAlone(states: seq<Db>, reqs: seq<Request>, there: real, back: real, task: nat, forward: bool, cfg: Config)
    returns (states': seq<Db>, reqs': seq<Request>)
    requires cfg.intervalDays != 0.0 && Run(states, reqs, cfg) && states[|reqs|] == Pair(there, back, map[])
    requires 0.0 <= (if forward then there else back) <= 0.75
    ensures Run(states', reqs', cfg) && |reqs'| == |reqs| + 2
    ensures reqs' == reqs + (if forward then [LinkRead(task, 0, 1), LinkWrite(task, 0.25, 0)]
                             else [LinkRead(task, 1, 0), LinkWrite(task, 0.25, 0)])
    ensures states'[|reqs'|] == if forward then Pair(there + 0.25, back, map[]) else Pair(there, back + 0.25, map[])
  {
    var seen := if forward then there else back;
    var (a, b) := if forward then (0, 1) else (1, 0);
    var pending: map<nat, PendingLink> := map[task := PendingLink(a, b, Some(seen))];
    ReadsPair(there, back, map[], task, forward, cfg);
    assert map[][task := PendingLink(a, b, Some(seen))] == pending;
    states', reqs' := R.Continued(states, reqs, LinkRead(task, a, b), Pair(there, back, pending), cfg);
    WritesPair(there, back, pending, task, seen, forward, cfg);
    assert pending - {task} == map[];
    states', reqs' := R.Continued(states', reqs', LinkWrite(task, 0.25, 0),
                                if forward then Pair(there + 0.25, back, map[]) else Pair(there, back + 0.25, map[]), cfg);
  }

  // Two tasks bump the forward direction, both having read the same weight.
  lemma BumpedTogether(states: seq<Db>, reqs: seq<Request>, cfg: Config) returns (states': seq<Db>, reqs': seq<Request>)
    requires cfg.intervalDays != 0.0 && Run(states, reqs, cfg) && states[|reqs|] == Pair(0.5, 0.5, map[])
    ensures Run(states', reqs', cfg)
    ensures reqs' == reqs + [LinkRead(1, 0, 1), LinkRead(2, 0, 1), LinkWrite(1, 0.25, 0), LinkWrite(2, 0.25, 0)]
    ensures states'[|reqs'|] == Pair(0.75, 0.5, map[])
  {
    var link := PendingLink(0, 1, Some(0.5));
    var one: map<nat, PendingLink> := map[1 := link];
    var both: map<nat, PendingLink> := map[1 := link, 2 := link];
    var rest: map<nat, PendingLink> := map[2 := link];
    ReadsPair(0.5, 0.5, map[], 1, true, cfg);
    assert map[][1 := link] == one;
    states', reqs' := R.Continued(states, reqs, LinkRead(1, 0, 1), Pair(0.5, 0.5, one), cfg);
    ReadsPair(0.5, 0.5, one, 2, true, cfg);
    assert one[2 := link] == both;
    states', reqs' := R.Continued(states', reqs', LinkRead(2, 0, 1), Pair(0.5, 0.5, both), cfg);
    WritesPair(0.5, 0.5, both, 1, 0.5, true, cfg);
    assert both - {1} == rest;
    states', reqs' := R.Continued(states', reqs', LinkWrite(1, 0.25, 0), Pair(0.75, 0.5, rest), cfg);
    WritesPair(0.75, 0.5, rest, 2, 0.5, true, cfg);
    assert rest - {2} == map[];
    states', reqs' := R.Continued(states', reqs', LinkWrite(2, 0.25, 0), Pair(0.75, 0.5, map[]), cfg);
  }

  lemma StartedPair(cfg: Config) returns (states: seq<Db>, reqs: seq<Request>)
    requires cfg.intervalDays != 0.0
    ensures Run(states, reqs, cfg) && reqs == [BATCH] && states[1] == Pair(0.5, 0.5, map[])
  {
    BatchMakesAPair(cfg);
    states, reqs := R.Continued([EMPTY], [], BATCH, Pair(0.5, 0.5, map[]), cfg);
  }

  /**
    Two tasks that each bump both directions of a link by a quarter, from a run that starts with the empty
    tables: where their halves interleave one bump is lost, so the directions end at 0.75 and 1.0.
   */
  lemma InterleavedBumpsLoseOne(cfg: Config) returns (states: seq<Db>, reqs: seq<Request>)
    requires cfg.intervalDays != 0.0
    ensures Run(states, reqs, cfg)
    ensures reqs == [BATCH, LinkRead(1, 0, 1), LinkRead(2, 0, 1), LinkWrite(1, 0.25, 0), LinkWrite(2, 0.25, 0),
                     LinkRead(1, 1, 0), LinkWrite(1, 0.25, 0), LinkRead(2, 1, 0), LinkWrite(2, 0.25, 0)]
    ensures states[9] == Pair(0.75, 1.0, map[])
  {
    states, reqs := StartedPair(cfg);
    states, reqs := BumpedTogether(states, reqs, cfg);
    states, reqs := BumpedAlone(states, reqs, 0.75, 0.5, 1, false, cfg);
    states, reqs := BumpedAlone(states, reqs, 0.75, 0.75, 2, false, cfg);
  }

  /** The same bumps one after another end at 1.0 in both directions. */
  lemma SequentialBumpsLoseNone(cfg: Config) returns (states: seq<Db>, reqs: seq<Request>)
    requires cfg.intervalDays != 0.0
    ensures Run(states, reqs, cfg)
    ensures reqs == [BATCH, LinkRead(1, 0, 1), LinkWrite(1, 0.25, 0), LinkRead(2, 0, 1), LinkWrite(2, 0.25, 0),
                     LinkRead(1, 1, 0), LinkWrite(1, 0.25, 0), LinkRead(2, 1, 0), LinkWrite(2, 0.25, 0)]
    ensures states[9] == Pair(1.0, 1.0, map[])
  {
    states, reqs := StartedPair(cfg);
    states, reqs := BumpedAlone(states, reqs, 0.5, 0.5, 1, true, cfg);
    states, reqs := BumpedAlone(states, reqs, 0.75, 0.5, 2, true, cfg);
    states, reqs := BumpedAlone(states, reqs, 1.0, 0.5, 1, false, cfg);
    states, reqs := BumpedAlone(states, reqs, 1.0, 0.75, 2, false, cfg);
  }
}
