/** n-hop expansion through the association graph (`expand_graph` in `crates/graph/src/lib.rs`). */
module Expansion {
  import opened Collections
  import opened Walks

  datatype Association = Association(target: Node, weight: real, lastCoRetrieval: int)

  type Adjacency = map<Node, seq<Association>>

  datatype ExpandedMemory = ExpandedMemory(index: Node, weight: real, hops: nat)

  predicate Usable(adj: Adjacency, threshold: real, u: Node, k: nat) {
    u in adj && k < |adj[u]| && adj[u][k].weight >= threshold
  }

  ghost predicate Joined(adj: Adjacency, threshold: real, u: Node, v: Node) {
    exists k: nat :: Usable(adj, threshold, u, k) && adj[u][k].target == v
  }

  ghost function Edges(adj: Adjacency, threshold: real): Step {
    (u: Node, v: Node) => Joined(adj, threshold, u, v)
  }

  // A walk together with the edge taken at each step.
  ghost predicate RouteTo(adj: Adjacency, threshold: real, anchors: set<Node>, p: seq<Node>, ks: seq<nat>, v: Node) {
    && |p| == |ks| + 1 && p[0] in anchors && p[|ks|] == v
    && forall i :: 0 <= i < |ks| ==> Usable(adj, threshold, p[i], ks[i]) && adj[p[i]][ks[i]].target == p[i + 1]
  }

  ghost function Product(adj: Adjacency, threshold: real, p: seq<Node>, ks: seq<nat>): real
    requires |p| == |ks| + 1 && forall i :: 0 <= i < |ks| ==> Usable(adj, threshold, p[i], ks[i])
  {
    if ks == [] then 1.0
    else
      var n := |ks| - 1;
      assert Usable(adj, threshold, p[n], ks[n]);
      Product(adj, threshold, p[..n + 1], ks[..n]) * adj[p[n]][ks[n]].weight
  }

  // Some walk of `n` edges from an anchor to `v` has edge weights whose product is `w`.
  ghost predicate Carries(adj: Adjacency, threshold: real, anchors: set<Node>, v: Node, n: nat, w: real) {
    exists p, ks :: RouteTo(adj, threshold, anchors, p, ks, v) && |ks| == n && Product(adj, threshold, p, ks) == w
  }

  lemma CarryOne(adj: Adjacency, threshold: real, anchors: set<Node>, u: Node, n: nat, w: real, k: nat)
    requires Carries(adj, threshold, anchors, u, n, w) && Usable(adj, threshold, u, k)
    ensures Carries(adj, threshold, anchors, adj[u][k].target, n + 1, w * adj[u][k].weight)
  {
    var p, ks :| RouteTo(adj, threshold, anchors, p, ks, u) && |ks| == n && Product(adj, threshold, p, ks) == w;
    var v := adj[u][k].target;
    var (p', ks') := (p + [v], ks + [k]);
    assert p'[..n + 1] == p && ks'[..n] == ks;
    assert RouteTo(adj, threshold, anchors, p', ks', v);
    assert Product(adj, threshold, p', ks') == w * adj[u][k].weight;
  }

  lemma CarryAnchor(adj: Adjacency, threshold: real, anchors: set<Node>, a: Node)
    requires a in anchors
    ensures Carries(adj, threshold, anchors, a, 0, 1.0)
  {
    assert RouteTo(adj, threshold, anchors, [a], [], a);
    assert Product(adj, threshold, [a], []) == 1.0;
  }

  /** A route is a walk, so a weight carried over `n` edges belongs to a walk of `n` edges. */
  lemma RouteIsAWalk(adj: Adjacency, threshold: real, anchors: set<Node>, p: seq<Node>, ks: seq<nat>, v: Node)
    requires RouteTo(adj, threshold, anchors, p, ks, v)
    ensures WalkTo(Edges(adj, threshold), anchors, p, v)
  {
    forall i | 0 <= i < |p| - 1
      ensures Edges(adj, threshold)(p[i], p[i + 1])
    {
      assert Usable(adj, threshold, p[i], ks[i]) && adj[p[i]][ks[i]].target == p[i + 1];
    }
  }

  lemma CarriedIsWalked(adj: Adjacency, threshold: real, anchors: set<Node>, v: Node, n: nat, w: real)
    requires Carries(adj, threshold, anchors, v, n, w)
    ensures exists p :: WalkTo(Edges(adj, threshold), anchors, p, v) && |p| - 1 == n
  {
    var p, ks :| RouteTo(adj, threshold, anchors, p, ks, v) && |ks| == n && Product(adj, threshold, p, ks) == w;
    RouteIsAWalk(adj, threshold, anchors, p, ks, v);
  }

  function Roots(anchors: seq<Node>): seq<ExpandedMemory> {
    seq(|anchors|, i requires 0 <= i < |anchors| => ExpandedMemory(anchors[i], 1.0, 0))
  }

  // Everything ever queued: the anchors, then the results in order of discovery.
  function Log(anchors: seq<Node>, results: seq<ExpandedMemory>): seq<ExpandedMemory> {
    Roots(anchors) + results
  }

  ghost function Nodes(anchors: seq<Node>, results: seq<ExpandedMemory>): seq<Node> {
    seq(|anchors| + |results|, i requires 0 <= i < |anchors| + |results| => Log(anchors, results)[i].index)
  }

  ghost function Hops(anchors: seq<Node>, results: seq<ExpandedMemory>): seq<nat> {
    seq(|anchors| + |results|, i requires 0 <= i < |anchors| + |results| => Log(anchors, results)[i].hops)
  }

  lemma LogExtend(anchors: seq<Node>, results: seq<ExpandedMemory>, v: ExpandedMemory)
    ensures Log(anchors, results + [v]) == Log(anchors, results) + [v]
    ensures Nodes(anchors, results + [v]) == Nodes(anchors, results) + [v.index]
    ensures Hops(anchors, results + [v]) == Hops(anchors, results) + [v.hops]
  {
    assert Log(anchors, results + [v]) == Log(anchors, results) + [v];
  }

  ghost predicate AllCarried(adj: Adjacency, threshold: real, anchors: seq<Node>, log: seq<ExpandedMemory>) {
    forall i :: 0 <= i < |log| ==> Carries(adj, threshold, Elems(anchors), log[i].index, log[i].hops, log[i].weight)
  }

  ghost predicate EachNewOnce(anchors: seq<Node>, results: seq<ExpandedMemory>) {
    && (forall i :: 0 <= i < |results| ==> results[i].index !in anchors && results[i].hops >= 1)
    && (forall i, j :: 0 <= i < j < |results| ==> results[i].index != results[j].index)
  }

  ghost predicate Logged(adj: Adjacency, threshold: real, anchors: seq<Node>, seen: set<Node>, results: seq<ExpandedMemory>) {
    && seen == Elems(Nodes(anchors, results))
    && EachNewOnce(anchors, results)
    && AllCarried(adj, threshold, anchors, Log(anchors, results))
  }

  lemma SeenCovers(anchors: seq<Node>, results: seq<ExpandedMemory>, v: Node)
    requires v !in Elems(Nodes(anchors, results))
    ensures v !in anchors && forall i :: 0 <= i < |results| ==> results[i].index != v
  {
    forall i | 0 <= i < |anchors|
      ensures anchors[i] != v
    {
      assert Nodes(anchors, results)[i] == anchors[i];
    }
    forall i | 0 <= i < |results|
      ensures results[i].index != v
    {
      assert Nodes(anchors, results)[|anchors| + i] == results[i].index;
    }
  }

  // The visit that edge `k` of the visit `u` leads to.
  function Onward(adj: Adjacency, threshold: real, u: ExpandedMemory, k: nat): ExpandedMemory
    requires Usable(adj, threshold, u.index, k)
  {
    ExpandedMemory(adj[u.index][k].target, u.weight * adj[u.index][k].weight, u.hops + 1)
  }

  lemma LogDiscovery(adj: Adjacency, threshold: real, anchors: seq<Node>, seen: set<Node>, results: seq<ExpandedMemory>, head: nat, k: nat)
    requires Logged(adj, threshold, anchors, seen, results) && head < |Log(anchors, results)|
    requires Usable(adj, threshold, Log(anchors, results)[head].index, k)
    requires adj[Log(anchors, results)[head].index][k].target !in seen
    ensures var v := Onward(adj, threshold, Log(anchors, results)[head], k);
            Logged(adj, threshold, anchors, seen + {v.index}, results + [v])
  {
    var u := Log(anchors, results)[head];
    var v := Onward(adj, threshold, u, k);
    LogExtend(anchors, results, v);
    CarryOne(adj, threshold, Elems(anchors), u.index, u.hops, u.weight, k);
    SeenCovers(anchors, results, v.index);
    assert Elems(Nodes(anchors, results) + [v.index]) == Elems(Nodes(anchors, results)) + {v.index};
  }

  // The nodes an edge can lead to; the search ends because `seen` never leaves this set.
  function Targets(adj: Adjacency): set<Node> {
    set u, k | u in adj.Keys && 0 <= k < |adj[u]| :: adj[u][k].target
  }

  lemma TargetIsKnown(adj: Adjacency, u: Node, k: nat)
    requires u in adj && k < |adj[u]|
    ensures adj[u][k].target in Targets(adj)
  {
  }

  // The first `k` usable edges of `u` lead to nodes discovered within `n` edges.
  ghost predicate ScannedEdges(adj: Adjacency, threshold: real, order: seq<Node>, dist: seq<nat>, u: Node, n: nat, k: nat)
    requires |order| == |dist|
  {
    forall l: nat :: l < k && Usable(adj, threshold, u, l) ==> Found(order, dist, adj[u][l].target, n)
  }

  lemma AllEdgesScanned(adj: Adjacency, threshold: real, order: seq<Node>, dist: seq<nat>, head: nat)
    requires |order| == |dist| && head < |order|
    requires ScannedEdges(adj, threshold, order, dist, order[head], dist[head] + 1, if order[head] in adj then |adj[order[head]]| else 0)
    ensures Expanded(Edges(adj, threshold), order, dist, head)
  {
    forall v | Edges(adj, threshold)(order[head], v)
      ensures Found(order, dist, v, dist[head] + 1)
    {
      var k: nat :| Usable(adj, threshold, order[head], k) && adj[order[head]][k].target == v;
    }
  }

  // One new edge of the head: the search state and the scan both move on.
  lemma ScanNew(adj: Adjacency, threshold: real, sources: set<Node>, order: seq<Node>, dist: seq<nat>, head: nat, limit: nat, k: nat)
    requires Search(Edges(adj, threshold), sources, order, dist, head, limit) && head < |order|
    requires Usable(adj, threshold, order[head], k)
    requires ScannedEdges(adj, threshold, order, dist, order[head], dist[head] + 1, k)
    ensures var (order', dist') := (order + [adj[order[head]][k].target], dist + [dist[head] + 1]);
            && Search(Edges(adj, threshold), sources, order', dist', head, limit)
            && ScannedEdges(adj, threshold, order', dist', order[head], dist[head] + 1, k + 1)
  {
    Discover(Edges(adj, threshold), sources, order, dist, head, limit, adj[order[head]][k].target);
  }

  // An edge that is too weak, or leads to a node seen before, only moves the scan on.
  lemma ScanOld(adj: Adjacency, threshold: real, sources: set<Node>, order: seq<Node>, dist: seq<nat>, head: nat, limit: nat, k: nat)
    requires Search(Edges(adj, threshold), sources, order, dist, head, limit) && head < |order|
    requires Usable(adj, threshold, order[head], k) ==> adj[order[head]][k].target in order
    requires ScannedEdges(adj, threshold, order, dist, order[head], dist[head] + 1, k)
    ensures ScannedEdges(adj, threshold, order, dist, order[head], dist[head] + 1, k + 1)
  {
    if Usable(adj, threshold, order[head], k) {
      var j :| 0 <= j < |order| && order[j] == adj[order[head]][k].target;
    }
  }

  // The state of the scan of the head's edges after the first `k`.
  ghost predicate Scan(adj: Adjacency, threshold: real, anchors: seq<Node>, seen: set<Node>, results: seq<ExpandedMemory>,
                       head: nat, limit: nat, k: nat) {
    && head < |anchors| + |results|
    && Logged(adj, threshold, anchors, seen, results)
    && Search(Edges(adj, threshold), Elems(anchors), Nodes(anchors, results), Hops(anchors, results), head, limit)
    && ScannedEdges(adj, threshold, Nodes(anchors, results), Hops(anchors, results),
                    Nodes(anchors, results)[head], Hops(anchors, results)[head] + 1, k)
  }

  lemma ScanDiscovers(adj: Adjacency, threshold: real, anchors: seq<Node>, seen: set<Node>, results: seq<ExpandedMemory>,
                      head: nat, limit: nat, k: nat, u: ExpandedMemory)
    requires Scan(adj, threshold, anchors, seen, results, head, limit, k) && Log(anchors, results)[head] == u
    requires Usable(adj, threshold, u.index, k) && adj[u.index][k].target !in seen
    ensures var v := Onward(adj, threshold, u, k);
            Scan(adj, threshold, anchors, seen + {v.index}, results + [v], head, limit, k + 1)
  {
    var (order, dist) := (Nodes(anchors, results), Hops(anchors, results));
    assert order[head] == u.index && dist[head] == u.hops;
    LogDiscovery(adj, threshold, anchors, seen, results, head, k);
    ScanNew(adj, threshold, Elems(anchors), order, dist, head, limit, k);
    LogExtend(anchors, results, Onward(adj, threshold, u, k));
  }

  lemma ScanSkips(adj: Adjacency, threshold: real, anchors: seq<Node>, seen: set<Node>, results: seq<ExpandedMemory>,
                  head: nat, limit: nat, k: nat, u: ExpandedMemory)
    requires Scan(adj, threshold, anchors, seen, results, head, limit, k) && Log(anchors, results)[head] == u
    requires Usable(adj, threshold, u.index, k) ==> adj[u.index][k].target in seen
    ensures Scan(adj, threshold, anchors, seen, results, head, limit, k + 1)
  {
    assert Nodes(anchors, results)[head] == u.index;
    ScanOld(adj, threshold, Elems(anchors), Nodes(anchors, results), Hops(anchors, results), head, limit, k);
  }

  // The body of the loop over the edges.
  method ScanEdge(adj: Adjacency, threshold: real, ghost anchors: seq<Node>, current: ExpandedMemory, k: nat,
                  seen0: set<Node>, results0: seq<ExpandedMemory>, ghost head: nat, ghost limit: nat)
    returns (seen: set<Node>, results: seq<ExpandedMemory>)
    requires Scan(adj, threshold, anchors, seen0, results0, head, limit, k)
    requires Log(anchors, results0)[head] == current && current.index in adj && k < |adj[current.index]|
    ensures Scan(adj, threshold, anchors, seen, results, head, limit, k + 1)
    ensures results0 <= results && seen0 <= seen <= seen0 + {adj[current.index][k].target}
    ensures results != results0 ==> seen0 < seen
  {
    seen, results := seen0, results0;
    var edge := adj[current.index][k];
    if edge.weight < threshold || edge.target in seen {
      ScanSkips(adj, threshold, anchors, seen, results, head, limit, k, current);
      return;
    }
    assert Usable(adj, threshold, current.index, k);
    var v := Onward(adj, threshold, current, k);
    ScanDiscovers(adj, threshold, anchors, seen, results, head, limit, k, current);
    seen, results := seen + {edge.target}, results + [v];
  }

  // The scan of one node's edges.
  method ExpandNode(adj: Adjacency, threshold: real, ghost anchors: seq<Node>, current: ExpandedMemory,
                    seen0: set<Node>, results0: seq<ExpandedMemory>, ghost head: nat, ghost limit: nat, ghost universe: set<Node>)
    returns (seen: set<Node>, results: seq<ExpandedMemory>)
    requires Scan(adj, threshold, anchors, seen0, results0, head, limit, 0)
    requires Log(anchors, results0)[head] == current && Targets(adj) <= universe && seen0 <= universe
    ensures results0 <= results && seen0 <= seen <= universe && (results != results0 ==> seen0 < seen)
    ensures Logged(adj, threshold, anchors, seen, results)
    ensures Search(Edges(adj, threshold), Elems(anchors), Nodes(anchors, results), Hops(anchors, results), head, limit)
    ensures Expanded(Edges(adj, threshold), Nodes(anchors, results), Hops(anchors, results), head)
  {
    seen, results := seen0, results0;
    var n := if current.index in adj then |adj[current.index]| else 0;
    for k := 0 to n
      invariant results0 <= results && Log(anchors, results)[head] == current
      invariant Scan(adj, threshold, anchors, seen, results, head, limit, k)
      invariant seen0 <= seen <= universe && (results != results0 ==> seen0 < seen)
    {
      TargetIsKnown(adj, current.index, k);
      seen, results := ScanEdge(adj, threshold, anchors, current, k, seen, results, head, limit);
    }
    AllEdgesScanned(adj, threshold, Nodes(anchors, results), Hops(anchors, results), head);
  }

  // What the finished expansion promises.
  ghost predicate ExactExpansion(adj: Adjacency, threshold: real, anchors: seq<Node>, maxHops: nat, results: seq<ExpandedMemory>) {
    var sources := Elems(anchors);
    && (forall i, j :: 0 <= i < j < |results| ==> results[i].index != results[j].index)
    && (forall i :: 0 <= i < |results| ==>
          && results[i].index !in anchors && 1 <= results[i].hops <= maxHops
          && Carries(adj, threshold, sources, results[i].index, results[i].hops, results[i].weight)
          && Distance(Edges(adj, threshold), sources, results[i].index, results[i].hops))
    && (forall p, v :: WalkTo(Edges(adj, threshold), sources, p, v) && |p| - 1 <= maxHops && v !in anchors ==>
          exists i :: 0 <= i < |results| && results[i].index == v)
  }

  /**
    Each non-anchor node reachable by edges at or above the threshold within `maxHops` is returned
    exactly once, with its true shortest distance and the weight product along a shortest walk.
   */
  method ExpandGraph(anchors: seq<Node>, adj: Adjacency, maxHops: nat, threshold: real) returns (results: seq<ExpandedMemory>)
    ensures ExactExpansion(adj, threshold, anchors, maxHops, results)
  {
    results := [];
    if maxHops == 0 || anchors == [] {
      NothingToExpand(adj, threshold, anchors, maxHops);
      return;
    }
    var seen: set<Node> := Elems(anchors);
    var frontier := Roots(anchors);
    ghost var head: nat := 0;
    StartExpansion(adj, threshold, anchors, maxHops);
    ghost var universe := seen + Targets(adj);
    while frontier != []
      invariant head <= |anchors| + |results| && frontier == Log(anchors, results)[head..]
      invariant Queue(adj, threshold, anchors, seen, results, head, maxHops)
      invariant seen <= universe
      decreases universe - seen, |frontier|
    {
      var current := frontier[0];
      var n := |results|;
      ghost var before := results;
      seen, results := VisitHead(adj, threshold, anchors, current, maxHops, seen, results, head, universe);
      LogPrefix(anchors, before, results, head);
      frontier := frontier[1..] + results[n..];
      head := head + 1;
    }
    ExpansionIsExact(adj, threshold, anchors, maxHops, seen, results);
  }

  // The state of the expansion between two visits.
  ghost predicate Queue(adj: Adjacency, threshold: real, anchors: seq<Node>, seen: set<Node>, results: seq<ExpandedMemory>,
                        head: nat, maxHops: nat) {
    && Logged(adj, threshold, anchors, seen, results) && WithinHops(results, maxHops)
    && Search(Edges(adj, threshold), Elems(anchors), Nodes(anchors, results), Hops(anchors, results), head, maxHops)
  }

  method VisitHead(adj: Adjacency, threshold: real, ghost anchors: seq<Node>, current: ExpandedMemory, maxHops: nat,
                   seen0: set<Node>, results0: seq<ExpandedMemory>, ghost head: nat, ghost universe: set<Node>)
    returns (seen: set<Node>, results: seq<ExpandedMemory>)
    requires Queue(adj, threshold, anchors, seen0, results0, head, maxHops) && head < |anchors| + |results0|
    requires Log(anchors, results0)[head] == current && Targets(adj) <= universe && seen0 <= universe
    ensures results0 <= results && seen0 <= seen <= universe && (results != results0 ==> seen0 < seen)
    ensures Queue(adj, threshold, anchors, seen, results, head + 1, maxHops)
  {
    seen, results := seen0, results0;
    if current.hops < maxHops {
      NothingScanned(adj, threshold, anchors, results, head);
      seen, results := ExpandNode(adj, threshold, anchors, current, seen, results, head, maxHops, universe);
      LogPrefix(anchors, results0, results, head);
      AddedHops(Edges(adj, threshold), Elems(anchors), anchors, results, head, maxHops);
    }
    Advance(Edges(adj, threshold), Elems(anchors), Nodes(anchors, results), Hops(anchors, results), head, maxHops);
  }

  lemma NothingScanned(adj: Adjacency, threshold: real, anchors: seq<Node>, results: seq<ExpandedMemory>, head: nat)
    requires head < |anchors| + |results|
    ensures ScannedEdges(adj, threshold, Nodes(anchors, results), Hops(anchors, results),
                         Nodes(anchors, results)[head], Hops(anchors, results)[head] + 1, 0)
  {
  }

  lemma LogPrefix(anchors: seq<Node>, before: seq<ExpandedMemory>, after: seq<ExpandedMemory>, head: nat)
    requires before <= after && head < |Log(anchors, before)|
    ensures head < |Log(anchors, after)| && Log(anchors, after)[head] == Log(anchors, before)[head]
    ensures Log(anchors, before)[head + 1..] + after[|before|..] == Log(anchors, after)[head + 1..]
  {
  }

  ghost predicate WithinHops(log: seq<ExpandedMemory>, maxHops: nat) {
    forall i :: 0 <= i < |log| ==> log[i].hops <= maxHops
  }

  lemma StartExpansion(adj: Adjacency, threshold: real, anchors: seq<Node>, maxHops: nat)
    ensures Logged(adj, threshold, anchors, Elems(anchors), []) && Log(anchors, []) == Roots(anchors)
    ensures Search(Edges(adj, threshold), Elems(anchors), Nodes(anchors, []), Hops(anchors, []), 0, maxHops)
  {
    assert Log(anchors, []) == Roots(anchors) && Nodes(anchors, []) == anchors;
    StartSearch(Edges(adj, threshold), Elems(anchors), Nodes(anchors, []), Hops(anchors, []), maxHops);
    forall i | 0 <= i < |Log(anchors, [])|
      ensures Carries(adj, threshold, Elems(anchors), Log(anchors, [])[i].index, Log(anchors, [])[i].hops, Log(anchors, [])[i].weight)
    {
      CarryAnchor(adj, threshold, Elems(anchors), anchors[i]);
    }
  }

  lemma AddedHops(step: Step, sources: set<Node>, anchors: seq<Node>, results: seq<ExpandedMemory>, head: nat, maxHops: nat)
    requires head < |anchors| + |results| && Log(anchors, results)[head].hops < maxHops
    requires Search(step, sources, Nodes(anchors, results), Hops(anchors, results), head, maxHops)
    ensures WithinHops(results, maxHops)
  {
    forall i | 0 <= i < |results|
      ensures results[i].hops <= maxHops
    {
      assert Hops(anchors, results)[|anchors| + i] <= Hops(anchors, results)[head] + 1;
    }
  }

  lemma NothingToExpand(adj: Adjacency, threshold: real, anchors: seq<Node>, maxHops: nat)
    requires maxHops == 0 || anchors == []
    ensures ExactExpansion(adj, threshold, anchors, maxHops, [])
  {
  }

  // A visit to a node that is no anchor is a result.
  lemma VisitOfNonAnchor(anchors: seq<Node>, results: seq<ExpandedMemory>, j: nat)
    requires j < |anchors| + |results| && Log(anchors, results)[j].index !in anchors
    ensures |anchors| <= j && results[j - |anchors|] == Log(anchors, results)[j]
  {
  }

  lemma ShortestHops(adj: Adjacency, threshold: real, anchors: seq<Node>, maxHops: nat, results: seq<ExpandedMemory>, i: nat, p: seq<Node>)
    requires EachNewOnce(anchors, results) && i < |results| && results[i].hops <= maxHops
    requires Search(Edges(adj, threshold), Elems(anchors), Nodes(anchors, results), Hops(anchors, results),
                    |anchors| + |results|, maxHops)
    requires WalkTo(Edges(adj, threshold), Elems(anchors), p, results[i].index)
    ensures results[i].hops <= |p| - 1
  {
    if |p| - 1 <= maxHops {
      var (order, dist) := (Nodes(anchors, results), Hops(anchors, results));
      Complete(Edges(adj, threshold), Elems(anchors), order, dist, |order|, maxHops, p, results[i].index);
      var j :| 0 <= j < |order| && order[j] == results[i].index && dist[j] <= |p| - 1;
      VisitOfNonAnchor(anchors, results, j);
    }
  }

  lemma ReachableIsReturned(adj: Adjacency, threshold: real, anchors: seq<Node>, maxHops: nat, results: seq<ExpandedMemory>,
                            p: seq<Node>, v: Node)
    requires Search(Edges(adj, threshold), Elems(anchors), Nodes(anchors, results), Hops(anchors, results),
                    |anchors| + |results|, maxHops)
    requires WalkTo(Edges(adj, threshold), Elems(anchors), p, v) && |p| - 1 <= maxHops && v !in anchors
    ensures exists i :: 0 <= i < |results| && results[i].index == v
  {
    var (order, dist) := (Nodes(anchors, results), Hops(anchors, results));
    Complete(Edges(adj, threshold), Elems(anchors), order, dist, |order|, maxHops, p, v);
    var j :| 0 <= j < |order| && order[j] == v && dist[j] <= |p| - 1;
    VisitOfNonAnchor(anchors, results, j);
  }

  lemma ExpansionIsExact(adj: Adjacency, threshold: real, anchors: seq<Node>, maxHops: nat, seen: set<Node>,
                         results: seq<ExpandedMemory>)
    requires Logged(adj, threshold, anchors, seen, results) && WithinHops(results, maxHops)
    requires Search(Edges(adj, threshold), Elems(anchors), Nodes(anchors, results), Hops(anchors, results),
                    |anchors| + |results|, maxHops)
    ensures ExactExpansion(adj, threshold, anchors, maxHops, results)
  {
    var sources := Elems(anchors);
    forall i | 0 <= i < |results|
      ensures results[i].hops <= maxHops && Distance(Edges(adj, threshold), sources, results[i].index, results[i].hops)
      ensures Carries(adj, threshold, sources, results[i].index, results[i].hops, results[i].weight)
    {
      assert Log(anchors, results)[|anchors| + i] == results[i];
      CarriedIsWalked(adj, threshold, sources, results[i].index, results[i].hops, results[i].weight);
      forall p | WalkTo(Edges(adj, threshold), sources, p, results[i].index)
        ensures |p| - 1 >= results[i].hops
      {
        ShortestHops(adj, threshold, anchors, maxHops, results, i, p);
      }
    }
    forall p, v | WalkTo(Edges(adj, threshold), sources, p, v) && |p| - 1 <= maxHops && v !in anchors
      ensures exists i :: 0 <= i < |results| && results[i].index == v
    {
      ReachableIsReturned(adj, threshold, anchors, maxHops, results, p, v);
    }
  }
}
