/** Pass 4 of the tick: greedy clustering of fading memories and their compression into summaries. */
module Consolidation {
  import opened Lifecycle
  import opened Collections
  import opened Tables
  import opened Cosine

  const CONSOLIDATION_RETENTION_THRESHOLD: real := 0.20
  const CONSOLIDATION_GROUP_SIZE: nat := 5
  const CONSOLIDATION_SIM_THRESHOLD: real := 0.70
  const CONSOLIDATION_MAX_PER_TICK: nat := 5

  datatype Cluster = Cluster(user: string, category: string, members: seq<Id>)

  // What the LLM wrote for one cluster, and its embedding.
  datatype Summary = Summary(content: string, vector: seq<real>)

  // The LLM and the provider as a writer of summaries: what they make of the contents of a cluster, in order,
  // when asked for the n-th time; None when one of them fails.
  type Writer = (nat, seq<string>) -> Option<Summary>

  // The embedding provider's name and model, stamped on summary rows.
  datatype Stamp = Stamp(provider: string, model: string, now: int)

  predicate Fading(r: Row, now: int, cfg: Config) {
    Hot(r) && r.embedding.Some? && Retention(r, now, cfg) < CONSOLIDATION_RETENTION_THRESHOLD
  }

  predicate InGroup(r: Row, user: string, category: string, now: int, cfg: Config) {
    r.user == user && r.category == category && Fading(r, now, cfg)
  }

  predicate Similar(head: Row, cand: Row, cfg: Config) {
    && Vec(head) != []
    && |Vec(cand)| == |Vec(head)|
    && Similarity(Vec(head), Vec(cand), cfg.sqrt) >= CONSOLIDATION_SIM_THRESHOLD
  }

  function TopImportance(mem: map<Id, Row>, ids: seq<Id>): real
    requires forall id :: id in ids ==> id in mem
  {
    if ids == [] then 0.0 else Max(TopImportance(mem, ids[..|ids| - 1]), mem[ids[|ids| - 1]].importance)
  }

  function TotalStability(mem: map<Id, Row>, ids: seq<Id>): real
    requires forall id :: id in ids ==> id in mem
  {
    if ids == [] then 0.0 else TotalStability(mem, ids[..|ids| - 1]) + mem[ids[|ids| - 1]].stability
  }

  function SummaryRow(mem: map<Id, Row>, c: Cluster, summary: Summary, stamp: Stamp): Row
    requires c.members != [] && forall id :: id in c.members ==> id in mem
  {
    NewRow(c.user, summary.content, c.category, summary.vector, stamp.provider, stamp.model, stamp.now)
    .(importance := TopImportance(mem, c.members),
      stability := TotalStability(mem, c.members) / |c.members| as real)
  }

  function Absorbed(r: Row, summaryId: Id, now: int): Row {
    r.(isSuperseded := true, supersededBy := Some(summaryId), isCold := true, coldSince := Some(now))
  }

  predicate Present(db: Db, c: Cluster) {
    c.members != [] && forall id :: id in c.members ==> id in db.mem
  }

  // Insert the summary, then mark the originals.
  function Compress(db: Db, c: Cluster, summary: Summary, stamp: Stamp): Db {
    if !Present(db, c) then db
    else
      MapRows(Insert(db, SummaryRow(db.mem, c, summary, stamp)), (id: Id, r: Row) =>
        if id in c.members && r.user == c.user then Absorbed(r, db.nextId, stamp.now) else r)
  }

  function CompressAll(db: Db, clusters: seq<Cluster>, summaries: seq<Summary>, stamp: Stamp): Db
    requires |summaries| == |clusters|
  {
    if clusters == [] then db
    else
      var k := |clusters| - 1;
      Compress(CompressAll(db, clusters[..k], summaries[..k], stamp), clusters[k], summaries[k], stamp)
  }

  // What the LLM is shown of a cluster.
  function Contents(mem: map<Id, Row>, ids: seq<Id>): seq<string> {
    seq(|ids|, i requires 0 <= i < |ids| => if ids[i] in mem then mem[ids[i]].content else "")
  }

  // Each summary is what the LLM and the provider made of its cluster; the first was asked for as number `n`.
  ghost predicate WrittenFor(mem: map<Id, Row>, llm: Writer, n: nat, clusters: seq<Cluster>, summaries: seq<Summary>)
    requires |summaries| == |clusters|
  {
    forall i :: 0 <= i < |clusters| ==> llm(n + i, Contents(mem, clusters[i].members)) == Some(summaries[i])
  }

  // The same, cluster by cluster.
  ghost predicate WrittenSoFar(mem: map<Id, Row>, llm: Writer, n: nat, clusters: seq<Cluster>, summaries: seq<Summary>)
    requires |summaries| == |clusters|
  {
    clusters == [] ||
    var k := |clusters| - 1;
    WrittenSoFar(mem, llm, n, clusters[..k], summaries[..k]) && llm(n + k, Contents(mem, clusters[k].members)) == Some(summaries[k])
  }

  lemma OneMoreWritten(mem: map<Id, Row>, llm: Writer, n: nat, clusters: seq<Cluster>, summaries: seq<Summary>, c: Cluster, summary: Summary)
    requires |summaries| == |clusters| && WrittenSoFar(mem, llm, n, clusters, summaries)
    requires llm(n + |clusters|, Contents(mem, c.members)) == Some(summary)
    ensures WrittenSoFar(mem, llm, n, clusters + [c], summaries + [summary])
  {
    assert (clusters + [c])[..|clusters|] == clusters && (summaries + [summary])[..|clusters|] == summaries;
  }

  lemma {:induction false} AllAreWritten(mem: map<Id, Row>, llm: Writer, n: nat, clusters: seq<Cluster>, summaries: seq<Summary>)
    requires |summaries| == |clusters| && WrittenSoFar(mem, llm, n, clusters, summaries)
    ensures WrittenFor(mem, llm, n, clusters, summaries)
  {
    if clusters != [] {
      var k := |clusters| - 1;
      AllAreWritten(mem, llm, n, clusters[..k], summaries[..k]);
      forall i | 0 <= i < |clusters|
        ensures llm(n + i, Contents(mem, clusters[i].members)) == Some(summaries[i])
      {
        assert i < k ==> clusters[..k][i] == clusters[i] && summaries[..k][i] == summaries[i];
      }
    }
  }

  lemma CompressAllStep(db: Db, clusters: seq<Cluster>, summaries: seq<Summary>, c: Cluster, summary: Summary, stamp: Stamp)
    requires |summaries| == |clusters|
    ensures CompressAll(db, clusters + [c], summaries + [summary], stamp)
            == Compress(CompressAll(db, clusters, summaries, stamp), c, summary, stamp)
  {
    assert (clusters + [c])[..|clusters|] == clusters && (summaries + [summary])[..|clusters|] == summaries;
  }

  lemma SplitLast<T>(a: seq<T>, b: seq<T>)
    requires b != []
    ensures a + b == (a + b[..|b| - 1]) + [b[|b| - 1]]
  {
  }

  lemma {:induction false} CompressAllConcat(db: Db, a: seq<Cluster>, sa: seq<Summary>,
                                             b: seq<Cluster>, sb: seq<Summary>, stamp: Stamp)
    requires |sa| == |a| && |sb| == |b|
    ensures CompressAll(db, a + b, sa + sb, stamp) == CompressAll(CompressAll(db, a, sa, stamp), b, sb, stamp)
    decreases |b|
  {
    if b == [] {
      assert a + b == a && sa + sb == sa;
    } else {
      var k := |b| - 1;
      CompressAllConcat(db, a, sa, b[..k], sb[..k], stamp);
      SplitLast(a, b);
      SplitLast(sa, sb);
      CompressAllStep(db, a + b[..k], sa + sb[..k], b[k], sb[k], stamp);
    }
  }

  // -------------------------------------------------------------------------
  // What a cluster is
  // -------------------------------------------------------------------------

  /** Five distinct fading rows of one user and category, each at least 0.70 similar to the head. */
  ghost predicate SoundCluster(mem: map<Id, Row>, c: Cluster, now: int, cfg: Config) {
    && |c.members| == CONSOLIDATION_GROUP_SIZE
    && NoDup(c.members)
    && (forall id :: id in c.members ==> id in mem && InGroup(mem[id], c.user, c.category, now, cfg))
    && (forall i :: 1 <= i < |c.members| ==> Similar(mem[c.members[0]], mem[c.members[i]], cfg))
  }

  ghost predicate Disjoint(clusters: seq<Cluster>) {
    forall i, j, id :: 0 <= i < j < |clusters| && id in clusters[i].members ==> id !in clusters[j].members
  }

  ghost predicate Unclustered(clusters: seq<Cluster>, id: Id) {
    forall i :: 0 <= i < |clusters| ==> id !in clusters[i].members
  }

  ghost predicate AllUnclustered(clusters: seq<Cluster>, ids: set<Id>) {
    forall id :: id in ids ==> Unclustered(clusters, id)
  }

  ghost predicate SoundClusters(mem: map<Id, Row>, clusters: seq<Cluster>, now: int, cfg: Config) {
    && |clusters| <= CONSOLIDATION_MAX_PER_TICK
    && Disjoint(clusters)
    && forall i :: 0 <= i < |clusters| ==> SoundCluster(mem, clusters[i], now, cfg)
  }

  ghost predicate PairwiseSimilar(mem: map<Id, Row>, ids: set<Id>, cfg: Config) {
    forall x, y :: x in ids && y in ids && x != y ==> x in mem && y in mem && Similar(mem[x], mem[y], cfg)
  }

  ghost function FadingIds(mem: map<Id, Row>, user: string, category: string, now: int, cfg: Config): set<Id> {
    set id | id in mem && InGroup(mem[id], user, category, now, cfg)
  }

  // No five rows of the group left out of the clusters are pairwise similar.
  ghost predicate NothingLeft(mem: map<Id, Row>, clusters: seq<Cluster>, user: string, category: string, now: int, cfg: Config) {
    forall five: set<Id> ::
      (|five| == CONSOLIDATION_GROUP_SIZE && five <= FadingIds(mem, user, category, now, cfg) && AllUnclustered(clusters, five))
      ==> !PairwiseSimilar(mem, five, cfg)
  }

  // -------------------------------------------------------------------------
  // Greedy clustering within one group
  // -------------------------------------------------------------------------

  /** The inner scan: the head and its first unused later neighbours, at most five in all. */
  method GatherGroup(mem: map<Id, Row>, mems: seq<Id>, used: set<Id>, i: nat, cfg: Config) returns (group: seq<Id>)
    requires i < |mems| && NoDup(mems) && forall j :: 0 <= j < |mems| ==> mems[j] in mem
    requires mems[i] !in used && Vec(mem[mems[i]]) != []
    ensures 1 <= |group| <= CONSOLIDATION_GROUP_SIZE && group[0] == mems[i] && NoDup(group)
    ensures forall id :: id in group ==> id in mems && id !in used
    ensures forall k :: 1 <= k < |group| ==> group[k] in mem && Similar(mem[mems[i]], mem[group[k]], cfg)
    ensures |group| < CONSOLIDATION_GROUP_SIZE ==>
      forall j :: i < j < |mems| && mems[j] !in used && Similar(mem[mems[i]], mem[mems[j]], cfg) ==> mems[j] in group[1..]
  {
    var headVec := Vec(mem[mems[i]]);
    group := [mems[i]];
    for j := i + 1 to |mems|
      invariant 1 <= |group| < CONSOLIDATION_GROUP_SIZE && group[0] == mems[i] && NoDup(group)
      invariant forall id :: id in group ==> id in mems[..j] && id !in used
      invariant forall k :: 1 <= k < |group| ==> group[k] in mem && Similar(mem[mems[i]], mem[group[k]], cfg)
      invariant forall l :: i < l < j && mems[l] !in used && Similar(mem[mems[i]], mem[mems[l]], cfg) ==> mems[l] in group[1..]
    {
      var cand := mems[j];
      assert mems[..j + 1] == mems[..j] + [cand];
      if cand in used {
        continue;
      }
      var candVec := Vec(mem[cand]);
      if |candVec| != |headVec| {
        continue;
      }
      var sim := CosineSimilarity(headVec, candVec, cfg.sqrt);
      if sim >= CONSOLIDATION_SIM_THRESHOLD {
        assert cand !in group;
        ghost var before := group;
        group := group + [cand];
        assert group[1..] == before[1..] + [cand];
        if |group| >= CONSOLIDATION_GROUP_SIZE {
          return;
        }
      }
    }
  }

  // The unused rows after position `p` that are similar to the row there.
  ghost function SimilarLater(mem: map<Id, Row>, mems: seq<Id>, p: nat, used: set<Id>, cfg: Config): set<Id>
    requires p < |mems| && forall j :: 0 <= j < |mems| ==> mems[j] in mem
  {
    set j | p < j < |mems| && mems[j] !in used && Similar(mem[mems[p]], mem[mems[j]], cfg) :: mems[j]
  }

  // An unused head with an embedding has fewer than four unused later rows similar to it.
  ghost predicate Settled(mem: map<Id, Row>, mems: seq<Id>, p: nat, used: set<Id>, cfg: Config)
    requires p < |mems| && forall j :: 0 <= j < |mems| ==> mems[j] in mem
  {
    mems[p] in used || Vec(mem[mems[p]]) == [] || |SimilarLater(mem, mems, p, used, cfg)| < CONSOLIDATION_GROUP_SIZE - 1
  }

  lemma SettledStays(mem: map<Id, Row>, mems: seq<Id>, n: nat, used: set<Id>, more: set<Id>, cfg: Config)
    requires n <= |mems| && forall j :: 0 <= j < |mems| ==> mems[j] in mem
    requires used <= more && forall p :: 0 <= p < n ==> Settled(mem, mems, p, used, cfg)
    ensures forall p :: 0 <= p < n ==> Settled(mem, mems, p, more, cfg)
  {
    forall p | 0 <= p < n
      ensures Settled(mem, mems, p, more, cfg)
    {
      assert Settled(mem, mems, p, used, cfg);
      SubsetCount(SimilarLater(mem, mems, p, more, cfg), SimilarLater(mem, mems, p, used, cfg));
    }
  }

  lemma ShortGroupSettles(mem: map<Id, Row>, mems: seq<Id>, p: nat, used: set<Id>, group: seq<Id>, cfg: Config)
    requires p < |mems| && forall j :: 0 <= j < |mems| ==> mems[j] in mem
    requires 1 <= |group| < CONSOLIDATION_GROUP_SIZE && NoDup(group)
    requires forall j :: p < j < |mems| && mems[j] !in used && Similar(mem[mems[p]], mem[mems[j]], cfg) ==> mems[j] in group[1..]
    ensures Settled(mem, mems, p, used, cfg)
  {
    DistinctCount(group[1..]);
    SubsetCount(SimilarLater(mem, mems, p, used, cfg), Elems(group[1..]));
  }

  lemma {:induction false} Earliest(mems: seq<Id>, ids: set<Id>, n: nat) returns (p: nat)
    requires n <= |mems| && exists j :: 0 <= j < n && mems[j] in ids
    ensures p < n && mems[p] in ids && forall j :: 0 <= j < p ==> mems[j] !in ids
    decreases n
  {
    if exists j :: 0 <= j < n - 1 && mems[j] in ids {
      p := Earliest(mems, ids, n - 1);
    } else {
      p := n - 1;
    }
  }

  /** Once every position is settled, no five unused rows are pairwise similar. */
  lemma SettledLeavesNoFive(mem: map<Id, Row>, mems: seq<Id>, used: set<Id>, five: set<Id>, cfg: Config)
    requires forall j :: 0 <= j < |mems| ==> mems[j] in mem
    requires forall p :: 0 <= p < |mems| ==> Settled(mem, mems, p, used, cfg)
    requires |five| == CONSOLIDATION_GROUP_SIZE && five !! used && five <= Elems(mems)
    ensures !PairwiseSimilar(mem, five, cfg)
  {
    if PairwiseSimilar(mem, five, cfg) {
      var some :| some in five;
      assert some in mems;
      var p := Earliest(mems, five, |mems|);
      assert Settled(mem, mems, p, used, cfg);
      var others := five - {mems[p]};
      assert |others| == 4;
      OthersAreLater(mem, mems, used, five, p, cfg);
      SubsetCount(others, SimilarLater(mem, mems, p, used, cfg));
    }
  }

  lemma OthersAreLater(mem: map<Id, Row>, mems: seq<Id>, used: set<Id>, five: set<Id>, p: nat, cfg: Config)
    requires forall j :: 0 <= j < |mems| ==> mems[j] in mem
    requires p < |mems| && mems[p] in five && forall j :: 0 <= j < p ==> mems[j] !in five
    requires |five| == CONSOLIDATION_GROUP_SIZE && five !! used && five <= Elems(mems) && PairwiseSimilar(mem, five, cfg)
    ensures five - {mems[p]} <= SimilarLater(mem, mems, p, used, cfg)
    ensures Vec(mem[mems[p]]) != []
  {
    forall x | x in five - {mems[p]}
      ensures x in SimilarLater(mem, mems, p, used, cfg) && Vec(mem[mems[p]]) != []
    {
      assert x in mems;
      var j :| 0 <= j < |mems| && mems[j] == x;
      assert Similar(mem[mems[p]], mem[x], cfg);
    }
    assert |five - {mems[p]}| == 4;
    var other :| other in five - {mems[p]};
  }

  ghost predicate UsedBy(clusters: seq<Cluster>, used: set<Id>) {
    forall id :: id in used <==> !Unclustered(clusters, id)
  }

  ghost predicate GroupClusters(mem: map<Id, Row>, user: string, category: string, mems: seq<Id>,
                                clusters: seq<Cluster>, now: int, cfg: Config) {
    && Disjoint(clusters)
    && forall i :: 0 <= i < |clusters| ==>
         && clusters[i].user == user && clusters[i].category == category
         && SoundCluster(mem, clusters[i], now, cfg)
         && forall id :: id in clusters[i].members ==> id in mems
  }

  lemma AddCluster(mem: map<Id, Row>, user: string, category: string, mems: seq<Id>,
                   clusters: seq<Cluster>, used: set<Id>, group: seq<Id>, now: int, cfg: Config)
    requires GroupClusters(mem, user, category, mems, clusters, now, cfg) && UsedBy(clusters, used)
    requires |group| == CONSOLIDATION_GROUP_SIZE && NoDup(group)
    requires forall id :: id in group ==> id in mems && id !in used && id in mem && InGroup(mem[id], user, category, now, cfg)
    requires forall k :: 1 <= k < |group| ==> Similar(mem[group[0]], mem[group[k]], cfg)
    ensures var more := clusters + [Cluster(user, category, group)];
            GroupClusters(mem, user, category, mems, more, now, cfg) && UsedBy(more, used + Elems(group))
  {
    var more := clusters + [Cluster(user, category, group)];
    forall i, j, id | 0 <= i < j < |more| && id in more[i].members
      ensures id !in more[j].members
    {
      assert i < |clusters| && more[i] == clusters[i];
      assert !Unclustered(clusters, id);
    }
    forall id
      ensures id in used + Elems(group) <==> !Unclustered(more, id)
    {
      if id in group {
        assert id in more[|clusters|].members;
      }
      if !Unclustered(clusters, id) {
        var i :| 0 <= i < |clusters| && id in clusters[i].members;
        assert id in more[i].members;
      }
    }
  }

  ghost function Clustered(clusters: seq<Cluster>): set<Id> {
    set i, id | 0 <= i < |clusters| && id in clusters[i].members :: id
  }

  lemma ClusteredIsUsed(clusters: seq<Cluster>, used: set<Id>)
    requires UsedBy(clusters, used)
    ensures used == Clustered(clusters)
  {
  }

  /**
    The greedy search has nothing left to do: `mems` lists the group, and each listed row outside
    the clusters with an embedding has fewer than four later ones outside them similar to it.
   */
  ghost predicate Exhausts(mem: map<Id, Row>, clusters: seq<Cluster>, mems: seq<Id>, user: string, category: string,
                           now: int, cfg: Config) {
    && NoDup(mems) && (forall j :: 0 <= j < |mems| ==> mems[j] in mem)
    && (forall id :: id in mems <==> id in mem && InGroup(mem[id], user, category, now, cfg))
    && forall p :: 0 <= p < |mems| ==> Settled(mem, mems, p, Clustered(clusters), cfg)
  }

  ghost predicate Exhausted(mem: map<Id, Row>, clusters: seq<Cluster>, user: string, category: string, now: int, cfg: Config) {
    exists mems :: Exhausts(mem, clusters, mems, user, category, now, cfg)
  }

  // The state of the clustering after the first `n` heads.
  ghost predicate Progress(mem: map<Id, Row>, user: string, category: string, mems: seq<Id>,
                           clusters: seq<Cluster>, used: set<Id>, n: nat, now: int, cfg: Config) {
    && n <= |mems| && NoDup(mems)
    && (forall j :: 0 <= j < |mems| ==> mems[j] in mem)
    && (forall id :: id in mems <==> id in mem && InGroup(mem[id], user, category, now, cfg))
    && GroupClusters(mem, user, category, mems, clusters, now, cfg)
    && UsedBy(clusters, used)
    && (forall p :: 0 <= p < n ==> Settled(mem, mems, p, used, cfg))
  }

  lemma SettledProgresses(mem: map<Id, Row>, user: string, category: string, mems: seq<Id>,
                          clusters: seq<Cluster>, used: set<Id>, n: nat, now: int, cfg: Config)
    requires Progress(mem, user, category, mems, clusters, used, n, now, cfg) && n < |mems|
    requires Settled(mem, mems, n, used, cfg)
    ensures Progress(mem, user, category, mems, clusters, used, n + 1, now, cfg)
  {
  }

  // Five unused rows of the group, the first being the head and the others similar to it.
  ghost predicate FullGroup(snap: map<Id, Row>, mems: seq<Id>, used: set<Id>, i: nat, group: seq<Id>, cfg: Config)
    requires i < |mems| && mems[i] in snap
  {
    && |group| == CONSOLIDATION_GROUP_SIZE && NoDup(group) && group[0] == mems[i]
    && (forall id :: id in group ==> id in mems && id !in used)
    && forall k :: 1 <= k < |group| ==> group[k] in snap && Similar(snap[mems[i]], snap[group[k]], cfg)
  }

  lemma FullGroupProgresses(mem: map<Id, Row>, user: string, category: string, mems: seq<Id>,
                            clusters: seq<Cluster>, used: set<Id>, n: nat, group: seq<Id>, now: int, cfg: Config)
    requires Progress(mem, user, category, mems, clusters, used, n, now, cfg) && n < |mems|
    requires FullGroup(mem, mems, used, n, group, cfg)
    ensures Progress(mem, user, category, mems, clusters + [Cluster(user, category, group)], used + Elems(group), n + 1, now, cfg)
  {
    AddCluster(mem, user, category, mems, clusters, used, group, now, cfg);
    SettledStays(mem, mems, n, used, used + Elems(group), cfg);
    assert mems[n] in Elems(group);
  }

  method CompressNext(s: Store, c: Cluster, summary: Summary, stamp: Stamp,
                      ghost start: Db, ghost clusters: seq<Cluster>, ghost summaries: seq<Summary>)
    requires c.members != [] && NoDup(c.members)
    requires |summaries| == |clusters| && s.State() == CompressAll(start, clusters, summaries, stamp)
    modifies s
    ensures s.State() == CompressAll(start, clusters + [c], summaries + [summary], stamp)
  {
    CompressCluster(s, c, summary, stamp);
    CompressAllStep(start, clusters, summaries, c, summary, stamp);
  }

  // One head: gather its group and, if it is full, compress it.
  method TryHead(s: Store, snap: map<Id, Row>, user: string, category: string, mems: seq<Id>, used: set<Id>, i: nat,
                 llm: Writer, n: nat, stamp: Stamp, cfg: Config,
                 ghost start: Db, ghost clusters: seq<Cluster>, ghost summaries: seq<Summary>)
    returns (used': set<Id>, found: bool, ok: bool, ghost clusters': seq<Cluster>, ghost summaries': seq<Summary>)
    requires i < |mems| && Progress(snap, user, category, mems, clusters, used, i, stamp.now, cfg)
    requires |summaries| == |clusters| <= n && s.State() == CompressAll(start, clusters, summaries, stamp)
    requires WrittenSoFar(snap, llm, n - |clusters|, clusters, summaries)
    modifies s
    ensures |summaries'| == |clusters'| == |clusters| + (if found then 1 else 0)
    ensures WrittenSoFar(snap, llm, n - |clusters|, clusters', summaries')
    ensures s.State() == CompressAll(start, clusters', summaries', stamp)
    ensures Progress(snap, user, category, mems, clusters', used', if ok then i + 1 else i, stamp.now, cfg)
  {
    used', found, ok, clusters', summaries' := used, false, true, clusters, summaries;
    if mems[i] in used || Vec(snap[mems[i]]) == [] {
      SettledProgresses(snap, user, category, mems, clusters, used, i, stamp.now, cfg);
      return;
    }
    var group := GatherGroup(snap, mems, used, i, cfg);
    if |group| < CONSOLIDATION_GROUP_SIZE {
      ShortGroupSettles(snap, mems, i, used, group, cfg);
      SettledProgresses(snap, user, category, mems, clusters, used, i, stamp.now, cfg);
      return;
    }
    used', found, clusters', summaries' :=
      TakeGroup(s, snap, user, category, mems, used, i, group, llm, n, stamp, cfg, start, clusters, summaries);
    ok := found;
  }

  lemma NothingTaken(start: Db, user: string, category: string, mems: seq<Id>, llm: Writer, n: nat, stamp: Stamp, cfg: Config)
    requires NoDup(mems) && forall id :: id in mems <==> id in start.mem && InGroup(start.mem[id], user, category, stamp.now, cfg)
    ensures Progress(start.mem, user, category, mems, [], {}, 0, stamp.now, cfg)
    ensures CompressAll(start, [], [], stamp) == start && WrittenSoFar(start.mem, llm, n, [], [])
  {
    assert forall j :: 0 <= j < |mems| ==> mems[j] in mems;
  }

  // A full group is shown to the LLM; with its summary it becomes a cluster and is compressed.
  method TakeGroup(s: Store, snap: map<Id, Row>, user: string, category: string, mems: seq<Id>, used: set<Id>, ghost i: nat,
                   group: seq<Id>, llm: Writer, n: nat, stamp: Stamp, cfg: Config,
                   ghost start: Db, ghost clusters: seq<Cluster>, ghost summaries: seq<Summary>)
    returns (used': set<Id>, found: bool, ghost clusters': seq<Cluster>, ghost summaries': seq<Summary>)
    requires i < |mems| && Progress(snap, user, category, mems, clusters, used, i, stamp.now, cfg)
    requires |summaries| == |clusters| <= n && s.State() == CompressAll(start, clusters, summaries, stamp)
    requires WrittenSoFar(snap, llm, n - |clusters|, clusters, summaries)
    requires FullGroup(snap, mems, used, i, group, cfg)
    modifies s
    ensures |summaries'| == |clusters'| == |clusters| + (if found then 1 else 0)
    ensures WrittenSoFar(snap, llm, n - |clusters|, clusters', summaries')
    ensures s.State() == CompressAll(start, clusters', summaries', stamp)
    ensures Progress(snap, user, category, mems, clusters', used', if found then i + 1 else i, stamp.now, cfg)
  {
    used', found, clusters', summaries' := used, false, clusters, summaries;
    var answer := llm(n, Contents(snap, group));
    if answer.None? {
      return;
    }
    found := true;
    used', clusters', summaries' :=
      TakeSummary(s, snap, user, category, mems, used, i, group, answer.value, stamp, cfg, start, clusters, summaries);
    AnswerWritten(snap, llm, n, clusters, summaries, Cluster(user, category, group), answer.value);
  }

  lemma AnswerWritten(mem: map<Id, Row>, llm: Writer, n: nat, clusters: seq<Cluster>, summaries: seq<Summary>, c: Cluster, summary: Summary)
    requires |summaries| == |clusters| <= n && WrittenSoFar(mem, llm, n - |clusters|, clusters, summaries)
    requires llm(n, Contents(mem, c.members)) == Some(summary)
    ensures WrittenSoFar(mem, llm, n - |clusters|, clusters + [c], summaries + [summary])
  {
    OneMoreWritten(mem, llm, n - |clusters|, clusters, summaries, c, summary);
  }

  // A group with its summary becomes a cluster and is compressed.
  method TakeSummary(s: Store, ghost snap: map<Id, Row>, user: string, category: string, ghost mems: seq<Id>, used: set<Id>, ghost i: nat,
                     group: seq<Id>, summary: Summary, stamp: Stamp, ghost cfg: Config,
                     ghost start: Db, ghost clusters: seq<Cluster>, ghost summaries: seq<Summary>)
    returns (used': set<Id>, ghost clusters': seq<Cluster>, ghost summaries': seq<Summary>)
    requires i < |mems| && Progress(snap, user, category, mems, clusters, used, i, stamp.now, cfg)
    requires |summaries| == |clusters| && s.State() == CompressAll(start, clusters, summaries, stamp)
    requires FullGroup(snap, mems, used, i, group, cfg)
    modifies s
    ensures clusters' == clusters + [Cluster(user, category, group)] && summaries' == summaries + [summary]
    ensures s.State() == CompressAll(start, clusters', summaries', stamp)
    ensures Progress(snap, user, category, mems, clusters', used', i + 1, stamp.now, cfg)
  {
    var c := Cluster(user, category, group);
    used', clusters', summaries' := used + Elems(group), clusters + [c], summaries + [summary];
    FullGroupProgresses(snap, user, category, mems, clusters, used, i, group, stamp.now, cfg);
    CompressNext(s, c, summary, stamp, start, clusters, summaries);
  }

  /** Cluster one group of fading rows, compressing each cluster as it is found. */
  method ConsolidateGroup(s: Store, user: string, category: string, mems: seq<Id>, llm: Writer,
                          created0: nat, stamp: Stamp, cfg: Config)
    returns (created: nat, ok: bool, ghost clusters: seq<Cluster>, ghost summaries: seq<Summary>)
    requires created0 < CONSOLIDATION_MAX_PER_TICK && NoDup(mems)
    requires forall id :: id in mems <==> id in s.mem && InGroup(s.mem[id], user, category, stamp.now, cfg)
    modifies s
    ensures |summaries| == |clusters| && created == created0 + |clusters| <= CONSOLIDATION_MAX_PER_TICK
    ensures s.State() == CompressAll(old(s.State()), clusters, summaries, stamp)
    ensures GroupClusters(old(s.mem), user, category, mems, clusters, stamp.now, cfg)
    ensures WrittenSoFar(old(s.mem), llm, created0, clusters, summaries)
    ensures ok && created < CONSOLIDATION_MAX_PER_TICK ==>
      Exhausted(old(s.mem), clusters, user, category, stamp.now, cfg)
  {
    var snap := s.mem;
    ghost var start := s.State();
    var used: set<Id> := {};
    created, ok, clusters, summaries := created0, true, [], [];
    NothingTaken(start, user, category, mems, llm, created0, stamp, cfg);
    var i := 0;
    while i < |mems| && ok && created < CONSOLIDATION_MAX_PER_TICK
      invariant |summaries| == |clusters| && created == created0 + |clusters| <= CONSOLIDATION_MAX_PER_TICK
      invariant s.State() == CompressAll(start, clusters, summaries, stamp)
      invariant i <= |mems| && Progress(snap, user, category, mems, clusters, used, i, stamp.now, cfg)
      invariant WrittenSoFar(snap, llm, created0, clusters, summaries)
      decreases |mems| - i, ok
    {
      var found;
      used, found, ok, clusters, summaries :=
        TryHead(s, snap, user, category, mems, used, i, llm, created, stamp, cfg, start, clusters, summaries);
      if ok {
        i := i + 1;
      }
      if found {
        created := created + 1;
      }
    }
    AllHeadsSettled(snap, user, category, mems, clusters, used, i, stamp.now, cfg);
  }

  lemma AllHeadsSettled(mem: map<Id, Row>, user: string, category: string, mems: seq<Id>,
                        clusters: seq<Cluster>, used: set<Id>, n: nat, now: int, cfg: Config)
    requires Progress(mem, user, category, mems, clusters, used, n, now, cfg)
    ensures GroupClusters(mem, user, category, mems, clusters, now, cfg)
    ensures n == |mems| ==> Exhausted(mem, clusters, user, category, now, cfg)
  {
    ClusteredIsUsed(clusters, used);
    assert n == |mems| ==> Exhausts(mem, clusters, mems, user, category, now, cfg);
  }

  /** An exhausted group holds no five pairwise similar rows outside the clusters. */
  lemma ExhaustedLeavesNoFive(mem: map<Id, Row>, clusters: seq<Cluster>, user: string, category: string, now: int, cfg: Config)
    requires Exhausted(mem, clusters, user, category, now, cfg)
    ensures NothingLeft(mem, clusters, user, category, now, cfg)
  {
    var mems :| Exhausts(mem, clusters, mems, user, category, now, cfg);
    forall five: set<Id> | |five| == CONSOLIDATION_GROUP_SIZE && five <= FadingIds(mem, user, category, now, cfg)
      && AllUnclustered(clusters, five)
      ensures !PairwiseSimilar(mem, five, cfg)
    {
      assert five !! Clustered(clusters);
      assert five <= Elems(mems);
      SettledLeavesNoFive(mem, mems, Clustered(clusters), five, cfg);
    }
  }

  method Aggregate(mem: map<Id, Row>, ids: seq<Id>) returns (importance: real, stability: real)
    requires forall id :: id in ids ==> id in mem
    ensures importance == TopImportance(mem, ids) && stability == TotalStability(mem, ids)
  {
    importance, stability := 0.0, 0.0;
    for k := 0 to |ids|
      invariant importance == TopImportance(mem, ids[..k]) && stability == TotalStability(mem, ids[..k])
    {
      assert ids[..k + 1][..k] == ids[..k];
      importance := Max(importance, mem[ids[k]].importance);
      stability := stability + mem[ids[k]].stability;
    }
    assert ids[..|ids|] == ids;
  }

  method CompressCluster(s: Store, c: Cluster, summary: Summary, stamp: Stamp)
    requires c.members != [] && NoDup(c.members)
    modifies s
    ensures s.State() == Compress(old(s.State()), c, summary, stamp)
  {
    ghost var start := s.State();
    if exists id :: id in c.members && id !in s.mem {
      return;
    }
    var importance, stability := Aggregate(s.mem, c.members);
    var row := NewRow(c.user, summary.content, c.category, summary.vector, stamp.provider, stamp.model, stamp.now)
               .(importance := importance, stability := stability / |c.members| as real);
    var id := s.InsertRow(row);
    RewriteRows(s, c.members, (m: Id, r: Row) => if r.user == c.user then Absorbed(r, id, stamp.now) else r);
    assert s.mem == Compress(start, c, summary, stamp).mem;
  }
}
