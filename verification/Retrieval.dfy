/**
  What a search writes back: restore to hot, boosts, promotion and co-retrieval links
  (`handle_memory_search`, `apply_post_retrieval_strengthening`).
 */
module Retrieval {
  import opened Lifecycle
  import opened Collections
  import opened Tables
  import opened Hits
  import opened Associations

  const ASSOCIATION_STRENGTHEN_AMOUNT: real := 0.1

  datatype Retrieved = Retrieved(id: Id, source: Source)

  function IdsOf(results: seq<Retrieved>): seq<Id> {
    seq(|results|, i requires 0 <= i < |results| => results[i].id)
  }

  // The source tag of an id: the last entry wins, and a missing entry counts as a direct hit.
  function SourceOf(results: seq<Retrieved>, id: Id): Source {
    if results == [] then Direct
    else if results[|results| - 1].id == id then results[|results| - 1].source
    else SourceOf(results[..|results| - 1], id)
  }

  function Amount(source: Source, cfg: Config): real {
    match source case GraphExpanded => cfg.associativeBoost case Direct => cfg.directBoost
  }

  function NewStability(r: Row, source: Source, now: int, cfg: Config): real
    requires cfg.intervalDays != 0.0
  {
    Min(r.stability + Amount(source, cfg) * Min(DaysSince(r.lastAccessedAt, now) / cfg.intervalDays, cfg.maxMultiplier), 1.0)
  }

  function WithSession(sessions: seq<Session>, s: Session): seq<Session> {
    if s in sessions then sessions else sessions + [s]
  }

  // The gate, evaluated before the write with the placeholder for the session to come.
  predicate Promotes(r: Row, stability: real, cfg: Config) {
    && r.category != "core"
    && r.retrievalCount + 1 >= cfg.coreAccess
    && stability >= cfg.coreStability
    && |WithSession(r.sessions, Pending)| >= cfg.coreSessions
  }

  // `MemoryRepo::apply_direct_boost` on one row
  function WriteBoost(r: Row, stability: real, now: int, session: Session): Row {
    r.(stability := stability, lastAccessedAt := now, retrievalCount := r.retrievalCount + 1,
       sessions := WithSession(r.sessions, session))
  }

  function PromoteRow(r: Row): Row {
    if r.category == "core" then r else r.(category := "core", floor := CORE_RETENTION_FLOOR)
  }

  function StrengthenRow(r: Row, source: Source, now: int, session: Session, cfg: Config): Row
    requires cfg.intervalDays != 0.0
  {
    var stability := NewStability(r, source, now, cfg);
    var written := WriteBoost(r, stability, now, session);
    if Promotes(r, stability, cfg) then PromoteRow(written) else written
  }

  predicate Strengthened(db: Db, user: string, results: seq<Retrieved>, id: Id) {
    Owns(db, user, id) && id in IdsOf(results) && !db.mem[id].isStub
  }

  function StrengthenRows(db: Db, user: string, results: seq<Retrieved>, now: int, cfg: Config): Db
    requires cfg.intervalDays != 0.0
  {
    MapRows(db, (id: Id, r: Row) =>
      if Strengthened(db, user, results, id)
      then StrengthenRow(r, SourceOf(results, id), now, Stored(db.nextSession), cfg) else r)
    .(nextSession := db.nextSession + 1)
  }

  function ToHot(r: Row): Row {
    r.(isCold := false, coldSince := None, daysAtFloor := 0)
  }

  // `migrate_to_hot_many` on the cold rows among `ids`
  function RestoreCold(db: Db, user: string, ids: seq<Id>): Db {
    MapRows(db, (id: Id, r: Row) => if id in ids && r.user == user && r.isCold then ToHot(r) else r)
  }

  function TopTen(ids: seq<Id>): seq<Id> {
    if |ids| <= 10 then ids else ids[..10]
  }

  function Restored(db: Db, user: string, results: seq<Retrieved>, deepRecall: bool): Db {
    if deepRecall then RestoreCold(db, user, IdsOf(results)) else db
  }

  function AfterSearch(db: Db, user: string, results: seq<Retrieved>, deepRecall: bool, now: int, cfg: Config): Db
    requires cfg.intervalDays != 0.0
  {
    if results == [] then db
    else
      StrengthenPairs(StrengthenRows(Restored(db, user, results, deepRecall), user, results, now, cfg),
                      PairsOf(TopTen(IdsOf(results))), ASSOCIATION_STRENGTHEN_AMOUNT, now)
  }

  method RestoreColdRows(s: Store, user: string, ids: seq<Id>)
    modifies s
    ensures s.State() == RestoreCold(old(s.State()), user, ids)
  {
    ghost var start := s.State();
    var rows := SelectOwned(s, user, ids);
    RewriteRows(s, rows, (id: Id, r: Row) => if r.isCold then ToHot(r) else r);
    assert s.mem == RestoreCold(start, user, ids).mem;
  }

  // One pass computes the new stability of every retrieved row and decides the promotions.
  method PlanBoosts(s: Store, user: string, results: seq<Retrieved>, now: int, cfg: Config)
    returns (boosts: map<Id, real>, promotions: set<Id>)
    requires cfg.intervalDays != 0.0
    ensures boosts.Keys <= s.mem.Keys
    ensures forall id :: id in boosts <==> Strengthened(s.State(), user, results, id)
    ensures forall id :: id in boosts ==> boosts[id] == NewStability(s.mem[id], SourceOf(results, id), now, cfg)
    ensures forall id :: id in promotions <==> id in boosts && Promotes(s.mem[id], boosts[id], cfg)
  {
    var rows := SelectOwned(s, user, IdsOf(results));
    boosts, promotions := map[], {};
    for k := 0 to |rows|
      invariant boosts.Keys <= s.mem.Keys
      invariant forall id :: id in boosts <==> id in rows[..k] && Strengthened(s.State(), user, results, id)
      invariant forall id :: id in boosts ==> boosts[id] == NewStability(s.mem[id], SourceOf(results, id), now, cfg)
      invariant forall id :: id in promotions <==> id in boosts && Promotes(s.mem[id], boosts[id], cfg)
    {
      var id := rows[k];
      var row := s.mem[id];
      assert rows[..k + 1] == rows[..k] + [id];
      if row.isStub {
        continue;
      }
      var stability := NewStability(row, SourceOf(results, id), now, cfg);
      boosts := boosts[id := stability];
      if Promotes(row, stability, cfg) {
        promotions := promotions + {id};
      }
    }
    assert rows[..|rows|] == rows;
  }

  // Two transactions write the boosts and the promotions.
  method ApplyPostRetrievalStrengthening(s: Store, user: string, results: seq<Retrieved>, now: int, cfg: Config)
    requires cfg.intervalDays != 0.0
    modifies s
    ensures s.State() == StrengthenRows(old(s.State()), user, results, now, cfg)
  {
    ghost var start := s.State();
    var boosts, promotions := PlanBoosts(s, user, results, now, cfg);
    var session := Stored(s.nextSession);
    s.nextSession := s.nextSession + 1;
    var boosted := Enumerate(boosts.Keys);
    RewriteRows(s, boosted, (id: Id, r: Row) => if id in boosts then WriteBoost(r, boosts[id], now, session) else r);
    var promoted := Enumerate(promotions);
    RewriteRows(s, promoted, (id: Id, r: Row) => PromoteRow(r));
    assert s.mem == StrengthenRows(start, user, results, now, cfg).mem;
  }

  method HandleSearchEffects(s: Store, user: string, results: seq<Retrieved>, deepRecall: bool, now: int, cfg: Config)
    requires cfg.intervalDays != 0.0
    modifies s
    ensures s.State() == AfterSearch(old(s.State()), user, results, deepRecall, now, cfg)
  {
    if results == [] {
      return;
    }
    var ids := IdsOf(results);
    if deepRecall {
      RestoreColdRows(s, user, ids);
    }
    ApplyPostRetrievalStrengthening(s, user, results, now, cfg);
    var topK := if |ids| <= 10 then ids else ids[..10];
    var pairs := AllPairs(topK);
    StrengthenInTransaction(s, pairs, ASSOCIATION_STRENGTHEN_AMOUNT, now);
  }

  /** `Get`: any access to a cold row restores it. */
  method HandleGet(s: Store, user: string, id: Id) returns (row: Option<Row>)
    modifies s
    ensures s.State() == RestoreCold(old(s.State()), user, [id])
    ensures row == if Owns(old(s.State()), user, id) then Some(s.mem[id]) else None
    ensures row.Some? ==> !row.value.isCold
  {
    ghost var start := s.State();
    row := None;
    if id in s.mem && s.mem[id].user == user {
      var r := s.mem[id];
      if r.isCold {
        s.mem := s.mem[id := ToHot(r)];
        r := r.(isCold := false, coldSince := None, daysAtFloor := 0);
      }
      row := Some(r);
    }
    assert s.mem == RestoreCold(start, user, [id]).mem;
  }

  // -------------------------------------------------------------------------
  // The handler against the lifecycle functions
  // -------------------------------------------------------------------------

  // The lifecycle view of a row, with its session set counted.
  function FullState(r: Row, cfg: Config): MemoryState {
    StateOf(r, cfg).(sessionCount := |r.sessions|)
  }

  // Sessions on a row were drawn before `next`, and the placeholder is never stored.
  ghost predicate SessionsDrawn(r: Row, next: nat) {
    forall x :: x in r.sessions ==> x.Stored? && x.n < next
  }

  /**
    The precomputed boost plus the repository write equal the lifecycle boost on the row's state,
    and the promotion decided beforehand with the placeholder session equals the lifecycle check
    on the state after the write.
   */
  lemma StrengtheningMatchesLifecycle(r: Row, source: Source, now: int, next: nat, cfg: Config)
    requires cfg.intervalDays != 0.0 && SessionsDrawn(r, next)
    ensures var written := WriteBoost(r, NewStability(r, source, now, cfg), now, Stored(next));
            && FullState(written, cfg)
               == Boosted(FullState(r, cfg), Amount(source, cfg), now, cfg).(sessionCount := |r.sessions| + 1)
            && (Promotes(r, NewStability(r, source, now, cfg), cfg)
                <==> FullState(written, cfg).category != Core && MeetsCoreThresholds(FullState(written, cfg), cfg))
            && ParseCategory(StrengthenRow(r, source, now, Stored(next), cfg).category)
               == (if FullState(written, cfg).category != Core && MeetsCoreThresholds(FullState(written, cfg), cfg)
                   then Core else FullState(written, cfg).category)
  {
    assert Stored(next) !in r.sessions && Pending !in r.sessions;
  }
}
