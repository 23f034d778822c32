/** The tick's consolidation pass as a whole, and what its compressions do to the tables. */
module Compression {
  import opened Lifecycle
  import opened Collections
  import opened Tables
  import opened Lineage
  import opened Consolidation
  import C = Conflicts

  // -------------------------------------------------------------------------
  // The tables after compressing a list of clusters
  // -------------------------------------------------------------------------

  ghost predicate FreshSummary(r: Row, c: Cluster) {
    && r.user == c.user && r.category == c.category && r.floor == FloorFor(c.category)
    && !r.isCold && !r.isStub && !r.isSuperseded && r.supersededBy.None?
    && r.daysAtFloor == 0 && r.retrievalCount == 0 && r.sessions == []
  }

  ghost predicate OthersKept(db: Db, clusters: seq<Cluster>, after: Db) {
    forall id :: id in db.mem && Unclustered(clusters, id) ==> id in after.mem && after.mem[id] == db.mem[id]
  }

  ghost predicate OriginalsAbsorbed(db: Db, clusters: seq<Cluster>, after: Db, now: int) {
    forall i, id :: 0 <= i < |clusters| && id in clusters[i].members ==>
      id in db.mem && id in after.mem && after.mem[id] == Absorbed(db.mem[id], db.nextId + i, now)
  }

  ghost predicate SummariesInserted(db: Db, clusters: seq<Cluster>, after: Db) {
    forall i :: 0 <= i < |clusters| ==> db.nextId + i in after.mem && FreshSummary(after.mem[db.nextId + i], clusters[i])
  }

  // Originals point at the summary of their cluster; every other row is untouched.
  ghost predicate CompressedTo(db: Db, clusters: seq<Cluster>, after: Db, now: int) {
    && after == db.(mem := after.mem, nextId := db.nextId + |clusters|)
    && (forall id :: id in after.mem <==> id in db.mem || db.nextId <= id < db.nextId + |clusters|)
    && OthersKept(db, clusters, after)
    && OriginalsAbsorbed(db, clusters, after, now)
    && SummariesInserted(db, clusters, after)
  }

  ghost predicate Bounded(db: Db) {
    forall id :: id in db.mem ==> id < db.nextId
  }

  // One compression: a fresh summary, its originals absorbed, the rest as it was.
  ghost predicate OneCompressed(db: Db, c: Cluster, after: Db, now: int) {
    && after == db.(mem := after.mem, nextId := db.nextId + 1)
    && (forall id :: id in after.mem <==> id in db.mem || id == db.nextId)
    && FreshSummary(after.mem[db.nextId], c)
    && (forall id :: id in db.mem && id !in c.members ==> after.mem[id] == db.mem[id])
    && (forall id :: id in c.members ==> id in db.mem && after.mem[id] == Absorbed(db.mem[id], db.nextId, now))
  }

  ghost predicate OwnsAll(db: Db, c: Cluster) {
    c.members != [] && forall id :: id in c.members ==> Owns(db, c.user, id)
  }

  lemma CompressShape(db: Db, c: Cluster, summary: Summary, stamp: Stamp)
    requires Bounded(db) && OwnsAll(db, c)
    ensures OneCompressed(db, c, Compress(db, c, summary, stamp), stamp.now)
  {
  }

  lemma MembersUntouched(db: Db, clusters: seq<Cluster>, mid: Db, c: Cluster, now: int)
    requires CompressedTo(db, clusters, mid, now) && OwnsAll(db, c)
    requires forall id :: id in c.members ==> Unclustered(clusters, id)
    ensures OwnsAll(mid, c) && forall id :: id in c.members ==> mid.mem[id] == db.mem[id]
  {
  }

  lemma CompressStepTo(db: Db, clusters: seq<Cluster>, mid: Db, c: Cluster, after: Db, now: int)
    requires Bounded(db) && CompressedTo(db, clusters, mid, now) && OwnsAll(db, c)
    requires forall id :: id in c.members ==> Unclustered(clusters, id)
    requires OneCompressed(mid, c, after, now)
    ensures CompressedTo(db, clusters + [c], after, now)
  {
    StepKeepsOthers(db, clusters, mid, c, after, now);
    StepAbsorbs(db, clusters, mid, c, after, now);
    StepInserts(db, clusters, mid, c, after, now);
  }

  lemma StepKeepsOthers(db: Db, clusters: seq<Cluster>, mid: Db, c: Cluster, after: Db, now: int)
    requires OthersKept(db, clusters, mid) && OneCompressed(mid, c, after, now)
    ensures OthersKept(db, clusters + [c], after)
  {
    var more := clusters + [c];
    forall id | id in db.mem && Unclustered(more, id)
      ensures id in after.mem && after.mem[id] == db.mem[id]
    {
      UnclusteredInParts(clusters, [c], id);
      assert id !in [c][0].members;
    }
  }

  lemma AbsorbedBefore(db: Db, clusters: seq<Cluster>, mid: Db, c: Cluster, after: Db, now: int, i: nat, id: Id)
    requires OriginalsAbsorbed(db, clusters, mid, now) && OneCompressed(mid, c, after, now)
    requires forall id :: id in c.members ==> Unclustered(clusters, id)
    requires i < |clusters| && id in clusters[i].members
    ensures id in db.mem && id in after.mem && after.mem[id] == Absorbed(db.mem[id], db.nextId + i, now)
  {
    assert !Unclustered(clusters, id);
    assert after.mem[id] == mid.mem[id];
  }

  lemma StepAbsorbs(db: Db, clusters: seq<Cluster>, mid: Db, c: Cluster, after: Db, now: int)
    requires OthersKept(db, clusters, mid) && OriginalsAbsorbed(db, clusters, mid, now)
    requires mid.nextId == db.nextId + |clusters| && OneCompressed(mid, c, after, now) && OwnsAll(db, c)
    requires forall id :: id in c.members ==> Unclustered(clusters, id)
    ensures OriginalsAbsorbed(db, clusters + [c], after, now)
  {
    var more := clusters + [c];
    forall i, id | 0 <= i < |more| && id in more[i].members
      ensures id in db.mem && id in after.mem && after.mem[id] == Absorbed(db.mem[id], db.nextId + i, now)
    {
      if i < |clusters| {
        AbsorbedBefore(db, clusters, mid, c, after, now, i, id);
      } else {
        assert id in c.members && mid.mem[id] == db.mem[id];
      }
    }
  }

  lemma StepInserts(db: Db, clusters: seq<Cluster>, mid: Db, c: Cluster, after: Db, now: int)
    requires Bounded(db) && CompressedTo(db, clusters, mid, now) && OneCompressed(mid, c, after, now) && OwnsAll(db, c)
    ensures SummariesInserted(db, clusters + [c], after)
  {
    var more := clusters + [c];
    forall i | 0 <= i < |more|
      ensures db.nextId + i in after.mem && FreshSummary(after.mem[db.nextId + i], more[i])
    {
      if i < |clusters| {
        assert FreshSummary(mid.mem[db.nextId + i], clusters[i]);
        assert db.nextId + i !in c.members;
      }
    }
  }

  lemma SoundPrefix(mem: map<Id, Row>, clusters: seq<Cluster>, now: int, cfg: Config)
    requires clusters != [] && SoundClusters(mem, clusters, now, cfg)
    ensures var k := |clusters| - 1;
            && SoundClusters(mem, clusters[..k], now, cfg)
            && clusters == clusters[..k] + [clusters[k]]
            && SoundCluster(mem, clusters[k], now, cfg)
            && forall id :: id in clusters[k].members ==>
                 id in mem && mem[id].user == clusters[k].user && Hot(mem[id]) && Unclustered(clusters[..k], id)
  {
    var k := |clusters| - 1;
    assert forall i :: 0 <= i < k ==> clusters[..k][i] == clusters[i];
  }

  lemma {:induction false} CompressAllTo(db: Db, clusters: seq<Cluster>, summaries: seq<Summary>, stamp: Stamp, cfg: Config)
    requires |summaries| == |clusters| && Bounded(db) && SoundClusters(db.mem, clusters, stamp.now, cfg)
    ensures CompressedTo(db, clusters, CompressAll(db, clusters, summaries, stamp), stamp.now)
  {
    if clusters != [] {
      var k := |clusters| - 1;
      SoundPrefix(db.mem, clusters, stamp.now, cfg);
      CompressAllTo(db, clusters[..k], summaries[..k], stamp, cfg);
      var mid := CompressAll(db, clusters[..k], summaries[..k], stamp);
      MembersUntouched(db, clusters[..k], mid, clusters[k], stamp.now);
      CompressShape(mid, clusters[k], summaries[k], stamp);
      CompressStepTo(db, clusters[..k], mid, clusters[k], CompressAll(db, clusters, summaries, stamp), stamp.now);
    }
  }

  // -------------------------------------------------------------------------
  // What a summary says of its five originals
  // -------------------------------------------------------------------------

  // The importance of the row is the largest of the members', and never below zero.
  ghost predicate MostImportant(mem: map<Id, Row>, ids: seq<Id>, importance: real)
    requires forall id :: id in ids ==> id in mem
  {
    && importance >= 0.0
    && (forall id :: id in ids ==> mem[id].importance <= importance)
    && (importance == 0.0 || exists id :: id in ids && mem[id].importance == importance)
  }

  // The stability is the mean of the five, so it lies between the least and the greatest of them.
  ghost predicate MeanOfFive(mem: map<Id, Row>, ids: seq<Id>, stability: real)
    requires |ids| == 5 && forall id :: id in ids ==> id in mem
  {
    && 5.0 * stability == mem[ids[0]].stability + mem[ids[1]].stability + mem[ids[2]].stability
                          + mem[ids[3]].stability + mem[ids[4]].stability
    && (exists id :: id in ids && mem[id].stability <= stability)
    && (exists id :: id in ids && stability <= mem[id].stability)
  }

  // The summary carries what the LLM and the provider gave, and stands for its originals.
  ghost predicate SpeaksFor(mem: map<Id, Row>, c: Cluster, summary: Summary, stamp: Stamp, r: Row) {
    && |c.members| == 5 && (forall id :: id in c.members ==> id in mem)
    && r.user == c.user && r.category == c.category && r.content == summary.content && r.embedding == Some(summary.vector)
    && r.provider == stamp.provider && r.model == stamp.model
    && r.createdAt == stamp.now && r.lastAccessedAt == stamp.now
    && MostImportant(mem, c.members, r.importance) && MeanOfFive(mem, c.members, r.stability)
    && r.validFrom.None? && r.validUntil.None? && r.contradictedBy.None? && r.stubContent.None?
    && FreshSummary(r, c)
  }

  ghost predicate SummariesSpeak(db: Db, clusters: seq<Cluster>, summaries: seq<Summary>, after: Db, stamp: Stamp)
    requires |summaries| == |clusters|
  {
    forall i :: 0 <= i < |clusters| ==> SpeaksAt(db, clusters, summaries, after, stamp, i)
  }

  ghost predicate SpeaksAt(db: Db, clusters: seq<Cluster>, summaries: seq<Summary>, after: Db, stamp: Stamp, i: nat)
    requires i < |clusters| == |summaries|
  {
    db.nextId + i in after.mem && SpeaksFor(db.mem, clusters[i], summaries[i], stamp, after.mem[db.nextId + i])
  }

  lemma {:induction false} TopIsMostImportant(mem: map<Id, Row>, ids: seq<Id>)
    requires forall id :: id in ids ==> id in mem
    ensures MostImportant(mem, ids, TopImportance(mem, ids))
  {
    if ids != [] {
      TopIsMostImportant(mem, ids[..|ids| - 1]);
      assert ids[|ids| - 1] in ids;
    }
  }

  lemma TotalOfFive(mem: map<Id, Row>, ids: seq<Id>)
    requires |ids| == 5 && forall id :: id in ids ==> id in mem
    ensures TotalStability(mem, ids) == mem[ids[0]].stability + mem[ids[1]].stability + mem[ids[2]].stability
                                        + mem[ids[3]].stability + mem[ids[4]].stability
  {
    assert TotalStability(mem, ids) == TotalStability(mem, ids[..4]) + mem[ids[4]].stability;
    assert ids[..4][..3] == ids[..3] && ids[..3][..2] == ids[..2] && ids[..2][..1] == ids[..1];
    assert TotalStability(mem, ids[..4]) == TotalStability(mem, ids[..3]) + mem[ids[3]].stability;
    assert TotalStability(mem, ids[..3]) == TotalStability(mem, ids[..2]) + mem[ids[2]].stability;
    assert TotalStability(mem, ids[..2]) == TotalStability(mem, ids[..1]) + mem[ids[1]].stability;
  }

  lemma MeanIsBetween(mem: map<Id, Row>, ids: seq<Id>, mean: real)
    requires |ids| == 5 && forall id :: id in ids ==> id in mem
    requires 5.0 * mean == mem[ids[0]].stability + mem[ids[1]].stability + mem[ids[2]].stability
                           + mem[ids[3]].stability + mem[ids[4]].stability
    ensures MeanOfFive(mem, ids, mean)
  {
    assert ids[0] in ids && ids[1] in ids && ids[2] in ids && ids[3] in ids && ids[4] in ids;
  }

  lemma SummarySpeaks(mem: map<Id, Row>, c: Cluster, summary: Summary, stamp: Stamp)
    requires |c.members| == 5 && forall id :: id in c.members ==> id in mem
    ensures SpeaksFor(mem, c, summary, stamp, SummaryRow(mem, c, summary, stamp))
  {
    TopIsMostImportant(mem, c.members);
    TotalOfFive(mem, c.members);
    MeanIsBetween(mem, c.members, TotalStability(mem, c.members) / 5.0);
  }

  lemma {:induction false} AggregatesAgree(mem: map<Id, Row>, mem': map<Id, Row>, ids: seq<Id>)
    requires forall id :: id in ids ==> id in mem && id in mem' && mem[id] == mem'[id]
    ensures TopImportance(mem, ids) == TopImportance(mem', ids) && TotalStability(mem, ids) == TotalStability(mem', ids)
  {
    if ids != [] {
      AggregatesAgree(mem, mem', ids[..|ids| - 1]);
    }
  }

  // The summary rows, as they were written from the rows of the start.
  ghost predicate SummariesWritten(db: Db, clusters: seq<Cluster>, summaries: seq<Summary>, after: Db, stamp: Stamp)
    requires |summaries| == |clusters|
  {
    forall i :: 0 <= i < |clusters| ==>
      && clusters[i].members != [] && (forall id :: id in clusters[i].members ==> id in db.mem)
      && db.nextId + i in after.mem
      && after.mem[db.nextId + i] == SummaryRow(db.mem, clusters[i], summaries[i], stamp)
  }

  // One compression writes its summary row and leaves the rows outside its cluster alone.
  ghost predicate NextWritten(db: Db, k: nat, c: Cluster, summary: Summary, mid: Db, after: Db, stamp: Stamp)
    requires c.members != [] && forall id :: id in c.members ==> id in db.mem
  {
    && db.nextId + k in after.mem && after.mem[db.nextId + k] == SummaryRow(db.mem, c, summary, stamp)
    && forall id :: id in mid.mem && id !in c.members ==> id in after.mem && after.mem[id] == mid.mem[id]
  }

  lemma NextSummaryWritten(db: Db, clusters: seq<Cluster>, mid: Db, c: Cluster, summary: Summary, stamp: Stamp)
    requires Bounded(db) && CompressedTo(db, clusters, mid, stamp.now) && OwnsAll(db, c)
    requires forall id :: id in c.members ==> Unclustered(clusters, id)
    ensures NextWritten(db, |clusters|, c, summary, mid, Compress(mid, c, summary, stamp), stamp)
  {
    MembersUntouched(db, clusters, mid, c, stamp.now);
    AggregatesAgree(db.mem, mid.mem, c.members);
    CompressShape(mid, c, summary, stamp);
  }

  lemma OneSummaryMore(db: Db, clusters: seq<Cluster>, summaries: seq<Summary>, mid: Db, after: Db, stamp: Stamp)
    requires |summaries| == |clusters| && clusters != [] && Bounded(db)
    requires var k := |clusters| - 1;
             && SummariesWritten(db, clusters[..k], summaries[..k], mid, stamp) && OwnsAll(db, clusters[k])
             && NextWritten(db, k, clusters[k], summaries[k], mid, after, stamp)
    ensures SummariesWritten(db, clusters, summaries, after, stamp)
  {
    var k := |clusters| - 1;
    forall i | 0 <= i < k
      ensures clusters[i].members != [] && forall id :: id in clusters[i].members ==> id in db.mem
      ensures db.nextId + i in after.mem && after.mem[db.nextId + i] == SummaryRow(db.mem, clusters[i], summaries[i], stamp)
    {
      assert clusters[..k][i] == clusters[i] && summaries[..k][i] == summaries[i];
      assert db.nextId + i in mid.mem && db.nextId + i !in clusters[k].members;
    }
  }

  lemma WriteStep(db: Db, clusters: seq<Cluster>, summaries: seq<Summary>, mid: Db, stamp: Stamp)
    requires |summaries| == |clusters| && clusters != [] && Bounded(db)
    requires var k := |clusters| - 1;
             && CompressedTo(db, clusters[..k], mid, stamp.now) && SummariesWritten(db, clusters[..k], summaries[..k], mid, stamp)
             && OwnsAll(db, clusters[k]) && forall id :: id in clusters[k].members ==> Unclustered(clusters[..k], id)
    ensures SummariesWritten(db, clusters, summaries, Compress(mid, clusters[|clusters| - 1], summaries[|clusters| - 1], stamp), stamp)
  {
    var k := |clusters| - 1;
    var c := clusters[k];
    var after := Compress(mid, c, summaries[k], stamp);
    NextSummaryWritten(db, clusters[..k], mid, c, summaries[k], stamp);
    OneSummaryMore(db, clusters, summaries, mid, after, stamp);
  }

  lemma {:induction false} CompressAllWrites(db: Db, clusters: seq<Cluster>, summaries: seq<Summary>, stamp: Stamp, cfg: Config)
    requires |summaries| == |clusters| && Bounded(db) && SoundClusters(db.mem, clusters, stamp.now, cfg)
    ensures SummariesWritten(db, clusters, summaries, CompressAll(db, clusters, summaries, stamp), stamp)
  {
    if clusters != [] {
      var k := |clusters| - 1;
      SoundFront(db.mem, clusters, stamp.now, cfg);
      CompressAllWrites(db, clusters[..k], summaries[..k], stamp, cfg);
      LastIsWritten(db, clusters, summaries, stamp, cfg);
    }
  }

  lemma SoundFront(mem: map<Id, Row>, clusters: seq<Cluster>, now: int, cfg: Config)
    requires clusters != [] && SoundClusters(mem, clusters, now, cfg)
    ensures SoundClusters(mem, clusters[..|clusters| - 1], now, cfg)
  {
    SoundPrefix(mem, clusters, now, cfg);
  }

  lemma LastIsWritten(db: Db, clusters: seq<Cluster>, summaries: seq<Summary>, stamp: Stamp, cfg: Config)
    requires |summaries| == |clusters| && clusters != [] && Bounded(db) && SoundClusters(db.mem, clusters, stamp.now, cfg)
    requires var k := |clusters| - 1;
             SummariesWritten(db, clusters[..k], summaries[..k], CompressAll(db, clusters[..k], summaries[..k], stamp), stamp)
    ensures SummariesWritten(db, clusters, summaries, CompressAll(db, clusters, summaries, stamp), stamp)
  {
    var k := |clusters| - 1;
    SoundPrefix(db.mem, clusters, stamp.now, cfg);
    CompressAllTo(db, clusters[..k], summaries[..k], stamp, cfg);
    WriteStep(db, clusters, summaries, CompressAll(db, clusters[..k], summaries[..k], stamp), stamp);
  }

  /**
    Each summary carries the text, the embedding and the stamp it was given, the largest importance of its
    five originals, and the mean of their stabilities.
   */
  lemma CompressAllSpeaks(db: Db, clusters: seq<Cluster>, summaries: seq<Summary>, stamp: Stamp, cfg: Config)
    requires |summaries| == |clusters| && Bounded(db) && SoundClusters(db.mem, clusters, stamp.now, cfg)
    ensures SummariesSpeak(db, clusters, summaries, CompressAll(db, clusters, summaries, stamp), stamp)
  {
    var after := CompressAll(db, clusters, summaries, stamp);
    CompressAllWrites(db, clusters, summaries, stamp, cfg);
    forall i | 0 <= i < |clusters|
      ensures SpeaksAt(db, clusters, summaries, after, stamp, i)
    {
      assert SoundCluster(db.mem, clusters[i], stamp.now, cfg);
      WrittenSpeaks(db, clusters, summaries, after, stamp, i);
    }
  }

  lemma WrittenSpeaks(db: Db, clusters: seq<Cluster>, summaries: seq<Summary>, after: Db, stamp: Stamp, i: nat)
    requires i < |clusters| == |summaries| && SummariesWritten(db, clusters, summaries, after, stamp) && |clusters[i].members| == 5
    ensures SpeaksAt(db, clusters, summaries, after, stamp, i)
  {
    SummarySpeaks(db.mem, clusters[i], summaries[i], stamp);
  }

  lemma LiveAfterCompress(mid: Db, c: Cluster, after: Db, now: int)
    requires OneCompressed(mid, c, after, now) && mid.nextId !in mid.mem
    ensures C.LiveSet(after) == (C.LiveSet(mid) - Elems(c.members)) + {mid.nextId}
  {
    forall id
      ensures id in C.LiveSet(after) <==> id in (C.LiveSet(mid) - Elems(c.members)) + {mid.nextId}
    {
      if id in c.members {
        assert after.mem[id].isSuperseded;
      }
    }
  }

  lemma CompressGrafts(mid: Db, c: Cluster, after: Db, now: int)
    requires Bounded(mid) && |c.members| == CONSOLIDATION_GROUP_SIZE && NoDup(c.members) && OwnsAll(mid, c)
    requires forall id :: id in c.members ==> Live(mid, id)
    requires OneCompressed(mid, c, after, now)
    ensures Grafted(mid, after, Elems(c.members), mid.nextId)
    ensures |C.LiveSet(after)| == |C.LiveSet(mid)| - 4
  {
    LiveAfterCompress(mid, c, after, now);
    assert Elems(c.members) <= C.LiveSet(mid);
    DistinctCount(c.members);
    assert mid.nextId !in C.LiveSet(mid);
  }

  /** Each summary lowers the number of live rows by exactly four, and the lineage stays a forest. */
  lemma {:induction false} CompressAllCounts(db: Db, clusters: seq<Cluster>, summaries: seq<Summary>, stamp: Stamp, cfg: Config)
    requires |summaries| == |clusters| && Bounded(db) && SoundClusters(db.mem, clusters, stamp.now, cfg)
    ensures |C.LiveSet(CompressAll(db, clusters, summaries, stamp))| == |C.LiveSet(db)| - 4 * |clusters|
    ensures Forest(db) ==> Forest(CompressAll(db, clusters, summaries, stamp))
  {
    if clusters != [] {
      var k := |clusters| - 1;
      var mid := CompressAll(db, clusters[..k], summaries[..k], stamp);
      SoundPrefix(db.mem, clusters, stamp.now, cfg);
      CompressAllCounts(db, clusters[..k], summaries[..k], stamp, cfg);
      CompressAllTo(db, clusters[..k], summaries[..k], stamp, cfg);
      MembersUntouched(db, clusters[..k], mid, clusters[k], stamp.now);
      CompressShape(mid, clusters[k], summaries[k], stamp);
      CompressGrafts(mid, clusters[k], CompressAll(db, clusters, summaries, stamp), stamp.now);
      if Forest(db) {
        GraftedIsForest(mid, CompressAll(db, clusters, summaries, stamp), Elems(clusters[k].members), mid.nextId);
      }
    }
  }

  // -------------------------------------------------------------------------
  // The pass over all users and categories
  // -------------------------------------------------------------------------

  datatype Key = Key(user: string, category: string)

  ghost predicate KeysWithin(clusters: seq<Cluster>, keys: seq<Key>) {
    forall i :: 0 <= i < |clusters| ==> Key(clusters[i].user, clusters[i].category) in keys
  }

  // A group none of whose rows has been clustered yet still has exactly its rows of the start.
  lemma GroupUntouched(start: Db, clusters: seq<Cluster>, now: Db, keys: seq<Key>, key: Key, t: int, cfg: Config)
    requires Bounded(start) && CompressedTo(start, clusters, now, t)
    requires SoundClusters(start.mem, clusters, t, cfg) && KeysWithin(clusters, keys) && key !in keys
    ensures forall id :: id in now.mem && InGroup(now.mem[id], key.user, key.category, t, cfg) <==>
      id in start.mem && InGroup(start.mem[id], key.user, key.category, t, cfg)
    ensures forall id :: id in start.mem && InGroup(start.mem[id], key.user, key.category, t, cfg) ==>
      id in now.mem && now.mem[id] == start.mem[id] && Unclustered(clusters, id)
  {
    forall id | id in start.mem && InGroup(start.mem[id], key.user, key.category, t, cfg)
      ensures id in now.mem && now.mem[id] == start.mem[id] && Unclustered(clusters, id)
    {
      forall i | 0 <= i < |clusters|
        ensures id !in clusters[i].members
      {
        assert SoundCluster(start.mem, clusters[i], t, cfg);
      }
    }
    forall id | id in now.mem && id !in start.mem
      ensures !InGroup(now.mem[id], key.user, key.category, t, cfg)
    {
      var i := id - start.nextId;
      assert FreshSummary(now.mem[start.nextId + i], clusters[i]);
    }
    forall id | id in start.mem && !Unclustered(clusters, id)
      ensures !InGroup(now.mem[id], key.user, key.category, t, cfg)
    {
      var i :| 0 <= i < |clusters| && id in clusters[i].members;
      assert now.mem[id].isSuperseded;
    }
  }

  lemma JoinClusters(start: Db, clusters: seq<Cluster>, now: Db, keys: seq<Key>, key: Key, mems: seq<Id>, cs: seq<Cluster>,
                     t: int, cfg: Config)
    requires Bounded(start) && CompressedTo(start, clusters, now, t)
    requires SoundClusters(start.mem, clusters, t, cfg) && KeysWithin(clusters, keys) && key !in keys
    requires GroupClusters(now.mem, key.user, key.category, mems, cs, t, cfg)
    requires |clusters| + |cs| <= CONSOLIDATION_MAX_PER_TICK
    ensures SoundClusters(start.mem, clusters + cs, t, cfg) && KeysWithin(clusters + cs, keys + [key])
  {
    GroupUntouched(start, clusters, now, keys, key, t, cfg);
    var all := clusters + cs;
    forall i | 0 <= i < |all|
      ensures SoundCluster(start.mem, all[i], t, cfg) && Key(all[i].user, all[i].category) in keys + [key]
    {
      if i < |clusters| {
        assert all[i] == clusters[i];
      } else {
        assert all[i] == cs[i - |clusters|];
        assert SoundCluster(now.mem, all[i], t, cfg);
      }
    }
    forall i, j, id | 0 <= i < j < |all| && id in all[i].members
      ensures id !in all[j].members
    {
      if j < |clusters| {
        assert all[i] == clusters[i] && all[j] == clusters[j];
      } else if i < |clusters| {
        assert all[i] == clusters[i] && all[j] == cs[j - |clusters|];
        assert SoundCluster(start.mem, clusters[i], t, cfg);
      } else {
        assert all[i] == cs[i - |clusters|] && all[j] == cs[j - |clusters|];
      }
    }
  }

  // Fewer rows to choose from leave a settled row settled.
  lemma SettledWithFewer(mem: map<Id, Row>, mem': map<Id, Row>, mems: seq<Id>, p: nat, used: set<Id>, used': set<Id>, cfg: Config)
    requires forall j :: 0 <= j < |mems| ==> mems[j] in mem && mems[j] in mem' && mem[mems[j]] == mem'[mems[j]]
    requires p < |mems| && used' <= used && Settled(mem', mems, p, used', cfg)
    ensures Settled(mem, mems, p, used, cfg)
  {
    SubsetCount(SimilarLater(mem, mems, p, used, cfg), SimilarLater(mem', mems, p, used', cfg));
  }

  lemma ExhaustedAfterMore(mem: map<Id, Row>, mem': map<Id, Row>, cs: seq<Cluster>, all: seq<Cluster>, key: Key, t: int, cfg: Config)
    requires Exhausted(mem', cs, key.user, key.category, t, cfg)
    requires forall id :: id in mem' && InGroup(mem'[id], key.user, key.category, t, cfg) <==>
      id in mem && InGroup(mem[id], key.user, key.category, t, cfg)
    requires forall id :: id in mem && InGroup(mem[id], key.user, key.category, t, cfg) ==> id in mem' && mem'[id] == mem[id]
    requires Clustered(cs) <= Clustered(all)
    ensures Exhausted(mem, all, key.user, key.category, t, cfg)
  {
    var mems :| Exhausts(mem', cs, mems, key.user, key.category, t, cfg);
    assert forall j :: 0 <= j < |mems| ==> mems[j] in mems;
    forall p | 0 <= p < |mems|
      ensures Settled(mem, mems, p, Clustered(all), cfg)
    {
      SettledWithFewer(mem, mem', mems, p, Clustered(all), Clustered(cs), cfg);
    }
    assert Exhausts(mem, all, mems, key.user, key.category, t, cfg);
  }

  lemma FewRowsAreExhausted(mem: map<Id, Row>, clusters: seq<Cluster>, key: Key, mems: seq<Id>, t: int, cfg: Config)
    requires |mems| < CONSOLIDATION_GROUP_SIZE && NoDup(mems)
    requires forall id :: id in mems <==> id in mem && InGroup(mem[id], key.user, key.category, t, cfg)
    ensures Exhausted(mem, clusters, key.user, key.category, t, cfg)
  {
    assert forall j :: 0 <= j < |mems| ==> mems[j] in mems;
    forall p | 0 <= p < |mems|
      ensures Settled(mem, mems, p, Clustered(clusters), cfg)
    {
      SubsetCount(SimilarLater(mem, mems, p, Clustered(clusters), cfg), Elems(mems) - {mems[p]});
      DistinctCount(mems);
    }
    assert Exhausts(mem, clusters, mems, key.user, key.category, t, cfg);
  }

  lemma UnclusteredInParts(a: seq<Cluster>, b: seq<Cluster>, id: Id)
    requires Unclustered(a + b, id)
    ensures Unclustered(a, id) && Unclustered(b, id)
  {
    assert forall i :: 0 <= i < |a| ==> (a + b)[i] == a[i];
    assert forall i :: 0 <= i < |b| ==> (a + b)[|a| + i] == b[i];
  }

  lemma ClusteredInParts(a: seq<Cluster>, b: seq<Cluster>)
    ensures Clustered(a) <= Clustered(a + b) && Clustered(b) <= Clustered(a + b)
  {
    assert forall i :: 0 <= i < |a| ==> (a + b)[i] == a[i];
    assert forall i :: 0 <= i < |b| ==> (a + b)[|a| + i] == b[i];
  }

  // What the pass has achieved after the groups in `keys`.
  ghost predicate PassState(start: Db, now: Db, clusters: seq<Cluster>, summaries: seq<Summary>, keys: seq<Key>,
                            ok: bool, stamp: Stamp, cfg: Config) {
    && |summaries| == |clusters|
    && now == CompressAll(start, clusters, summaries, stamp)
    && SoundClusters(start.mem, clusters, stamp.now, cfg) && KeysWithin(clusters, keys)
    && (ok && |clusters| < CONSOLIDATION_MAX_PER_TICK ==>
          forall k :: 0 <= k < |keys| ==> Exhausted(start.mem, clusters, keys[k].user, keys[k].category, stamp.now, cfg))
  }

  lemma ExtendPass(start: Db, mid: Db, clusters: seq<Cluster>, summaries: seq<Summary>, keys: seq<Key>, key: Key,
                   mems: seq<Id>, cs: seq<Cluster>, ss: seq<Summary>, ok: bool, stamp: Stamp, cfg: Config)
    requires Bounded(start) && PassState(start, mid, clusters, summaries, keys, true, stamp, cfg) && key !in keys
    requires |clusters| < CONSOLIDATION_MAX_PER_TICK && |clusters| + |cs| <= CONSOLIDATION_MAX_PER_TICK && |ss| == |cs|
    requires GroupClusters(mid.mem, key.user, key.category, mems, cs, stamp.now, cfg)
    requires ok && |clusters| + |cs| < CONSOLIDATION_MAX_PER_TICK ==>
      Exhausted(mid.mem, cs, key.user, key.category, stamp.now, cfg)
    ensures PassState(start, CompressAll(mid, cs, ss, stamp), clusters + cs, summaries + ss, keys + [key], ok, stamp, cfg)
  {
    CompressAllTo(start, clusters, summaries, stamp, cfg);
    CompressAllConcat(start, clusters, summaries, cs, ss, stamp);
    JoinClusters(start, clusters, mid, keys, key, mems, cs, stamp.now, cfg);
    GroupUntouched(start, clusters, mid, keys, key, stamp.now, cfg);
    var (all, more) := (clusters + cs, keys + [key]);
    if ok && |all| < CONSOLIDATION_MAX_PER_TICK {
      ClusteredInParts(clusters, cs);
      forall k | 0 <= k < |more|
        ensures Exhausted(start.mem, all, more[k].user, more[k].category, stamp.now, cfg)
      {
        if k < |keys| {
          assert more[k] == keys[k];
          ExhaustedAfterMore(start.mem, start.mem, clusters, all, keys[k], stamp.now, cfg);
        } else {
          ExhaustedAfterMore(start.mem, mid.mem, cs, all, key, stamp.now, cfg);
        }
      }
    }
  }

  // Later groups show the LLM the contents their rows had at the start.
  lemma JoinWritten(start: Db, mid: Db, clusters: seq<Cluster>, summaries: seq<Summary>, keys: seq<Key>, key: Key, mems: seq<Id>,
                    cs: seq<Cluster>, ss: seq<Summary>, llm: Writer, t: int, cfg: Config)
    requires |summaries| == |clusters| && |ss| == |cs|
    requires Bounded(start) && CompressedTo(start, clusters, mid, t)
    requires SoundClusters(start.mem, clusters, t, cfg) && KeysWithin(clusters, keys) && key !in keys
    requires GroupClusters(mid.mem, key.user, key.category, mems, cs, t, cfg)
    requires WrittenFor(start.mem, llm, 0, clusters, summaries) && WrittenFor(mid.mem, llm, |clusters|, cs, ss)
    ensures WrittenFor(start.mem, llm, 0, clusters + cs, summaries + ss)
  {
    GroupUntouched(start, clusters, mid, keys, key, t, cfg);
    forall i | 0 <= i < |cs|
      ensures Contents(start.mem, cs[i].members) == Contents(mid.mem, cs[i].members)
    {
      assert SoundCluster(mid.mem, cs[i], t, cfg);
      assert forall j :: 0 <= j < |cs[i].members| ==> cs[i].members[j] in cs[i].members;
    }
    var (all, told) := (clusters + cs, summaries + ss);
    forall i | 0 <= i < |all|
      ensures llm(i, Contents(start.mem, all[i].members)) == Some(told[i])
    {
      if i < |clusters| {
        assert all[i] == clusters[i] && told[i] == summaries[i];
        assert llm(0 + i, Contents(start.mem, clusters[i].members)) == Some(summaries[i]);
      } else {
        var j := i - |clusters|;
        assert all[i] == cs[j] && told[i] == ss[j];
        assert llm(|clusters| + j, Contents(mid.mem, cs[j].members)) == Some(ss[j]);
      }
    }
  }

  method ConsolidateKey(s: Store, key: Key, llm: Writer, created0: nat, stamp: Stamp, cfg: Config,
                        ghost start: Db, ghost keys: seq<Key>, ghost clusters0: seq<Cluster>, ghost summaries0: seq<Summary>)
    returns (created: nat, ok: bool, ghost clusters: seq<Cluster>, ghost summaries: seq<Summary>)
    requires Bounded(start) && PassState(start, s.State(), clusters0, summaries0, keys, true, stamp, cfg)
    requires key !in keys && created0 == |clusters0| < CONSOLIDATION_MAX_PER_TICK
    requires WrittenFor(start.mem, llm, 0, clusters0, summaries0)
    modifies s
    ensures created == |clusters| == |summaries| && WrittenFor(start.mem, llm, 0, clusters, summaries)
    ensures PassState(start, s.State(), clusters, summaries, keys + [key], ok, stamp, cfg)
  {
    ghost var mid := s.State();
    var mems := Enumerate(set id | id in s.mem && InGroup(s.mem[id], key.user, key.category, stamp.now, cfg));
    created, ok := created0, true;
    ghost var cs: seq<Cluster>, ss: seq<Summary> := [], [];
    if |mems| < CONSOLIDATION_GROUP_SIZE {
      FewRowsAreExhausted(s.mem, [], key, mems, stamp.now, cfg);
    } else {
      created, ok, cs, ss := ConsolidateGroup(s, key.user, key.category, mems, llm, created0, stamp, cfg);
    }
    AllAreWritten(mid.mem, llm, created0, cs, ss);
    ExtendPass(start, mid, clusters0, summaries0, keys, key, mems, cs, ss, ok, stamp, cfg);
    CompressAllTo(start, clusters0, summaries0, stamp, cfg);
    JoinWritten(start, mid, clusters0, summaries0, keys, key, mems, cs, ss, llm, stamp.now, cfg);
    clusters, summaries := clusters0 + cs, summaries0 + ss;
  }

  /**
    Pass 4.  Fading rows are grouped by user and category; each group is clustered greedily until
    five summaries exist or the LLM fails.
   */
  method ConsolidateAtTick(s: Store, llm: Option<Writer>, stamp: Stamp, cfg: Config)
    returns (created: nat, ok: bool, ghost clusters: seq<Cluster>, ghost summaries: seq<Summary>)
    requires Bounded(s.State())
    modifies s
    ensures |summaries| == |clusters| == created
    ensures llm.None? ==> clusters == [] && ok
    ensures llm.Some? ==> WrittenFor(old(s.mem), llm.value, 0, clusters, summaries)
    ensures SoundClusters(old(s.mem), clusters, stamp.now, cfg)
    ensures s.State() == CompressAll(old(s.State()), clusters, summaries, stamp)
    ensures llm.Some? && ok && created < CONSOLIDATION_MAX_PER_TICK ==>
      forall user, category :: Exhausted(old(s.mem), clusters, user, category, stamp.now, cfg)
  {
    created, ok, clusters, summaries := 0, true, [], [];
    StartPass(s.State(), stamp, cfg);
    if llm.None? {
      return;
    }
    var keys := GroupKeys(s.mem);
    var k;
    created, ok, k, clusters, summaries := ConsolidateKeys(s, keys, llm.value, stamp, cfg);
    assert k == |keys| ==> keys[..k] == keys;
    if ok && created < CONSOLIDATION_MAX_PER_TICK {
      EveryGroupIsDone(old(s.mem), clusters, keys, stamp.now, cfg);
    }
  }

  lemma StartPass(db: Db, stamp: Stamp, cfg: Config)
    ensures PassState(db, db, [], [], [], true, stamp, cfg)
  {
  }

  method ConsolidateKeys(s: Store, keys: seq<Key>, llm: Writer, stamp: Stamp, cfg: Config)
    returns (created: nat, ok: bool, k: nat, ghost clusters: seq<Cluster>, ghost summaries: seq<Summary>)
    requires Bounded(s.State()) && NoDup(keys)
    modifies s
    ensures k <= |keys| && created == |clusters| == |summaries| && WrittenFor(old(s.mem), llm, 0, clusters, summaries)
    ensures ok && created < CONSOLIDATION_MAX_PER_TICK ==> k == |keys|
    ensures PassState(old(s.State()), s.State(), clusters, summaries, keys[..k], ok, stamp, cfg)
  {
    ghost var start := s.State();
    created, ok, clusters, summaries := 0, true, [], [];
    StartPass(start, stamp, cfg);
    k := 0;
    assert keys[..k] == [];
    while k < |keys| && ok && created < CONSOLIDATION_MAX_PER_TICK
      invariant k <= |keys| && created == |clusters| == |summaries| && WrittenFor(start.mem, llm, 0, clusters, summaries)
      invariant PassState(start, s.State(), clusters, summaries, keys[..k], ok, stamp, cfg)
      decreases |keys| - k
    {
      assert keys[k] !in keys[..k] && keys[..k + 1] == keys[..k] + [keys[k]];
      created, ok, clusters, summaries :=
        ConsolidateKey(s, keys[k], llm, created, stamp, cfg, start, keys[..k], clusters, summaries);
      k := k + 1;
    }
  }

  lemma EveryGroupIsDone(mem: map<Id, Row>, clusters: seq<Cluster>, keys: seq<Key>, t: int, cfg: Config)
    requires forall k :: 0 <= k < |keys| ==> Exhausted(mem, clusters, keys[k].user, keys[k].category, t, cfg)
    requires forall id :: id in mem && Hot(mem[id]) ==> Key(mem[id].user, mem[id].category) in keys
    ensures forall user, category :: Exhausted(mem, clusters, user, category, t, cfg)
  {
    forall user, category
      ensures Exhausted(mem, clusters, user, category, t, cfg)
    {
      var key := Key(user, category);
      if key in keys {
        var k :| 0 <= k < |keys| && keys[k] == key;
      } else {
        FewRowsAreExhausted(mem, clusters, key, [], t, cfg);
      }
    }
  }

  method GroupKeys(mem: map<Id, Row>) returns (keys: seq<Key>)
    ensures NoDup(keys)
    ensures forall id :: id in mem && Hot(mem[id]) ==> Key(mem[id].user, mem[id].category) in keys
  {
    var found := set id | id in mem && Hot(mem[id]) :: Key(mem[id].user, mem[id].category);
    keys := Enumerate(found);
    forall id | id in mem && Hot(mem[id])
      ensures Key(mem[id].user, mem[id].category) in keys
    {
      assert Key(mem[id].user, mem[id].category) in found;
    }
  }
}
