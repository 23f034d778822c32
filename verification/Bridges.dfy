/** Bridge discovery between search results (`bfs_path`, `find_bridges` in `crates/search/src/searcher.rs`). */
module Bridges {
  import opened Collections
  import opened Associations
  import opened Walks

  predicate Strong(assoc: Links, minWeight: real, u: Node, v: Node) {
    (u, v) in assoc && assoc[(u, v)].weight >= minWeight
  }

  ghost function StrongLinks(assoc: Links, minWeight: real): Step {
    (u: Node, v: Node) => Strong(assoc, minWeight, u, v)
  }

  /** `neighbor_edges`: the targets of the strong links of one memory, each once, heaviest link first. */
  method NeighborEdges(assoc: Links, minWeight: real, u: Node) returns (targets: seq<Node>)
    ensures NoDup(targets)
    ensures forall v: Node :: v in targets <==> Strong(assoc, minWeight, u, v)
    ensures forall i, j :: 0 <= i < j < |targets| ==>
      (u, targets[i]) in assoc && (u, targets[j]) in assoc && assoc[(u, targets[j])].weight <= assoc[(u, targets[i])].weight
  {
    var found := set e | e in assoc && e.0 == u && assoc[e].weight >= minWeight :: e.1;
    targets := EnumerateFalling(found, (v: Node) => if (u, v) in assoc then assoc[(u, v)].weight else 0.0);
    forall v: Node
      ensures v in found <==> Strong(assoc, minWeight, u, v)
    {
      if Strong(assoc, minWeight, u, v) {
        assert (u, v) in assoc && (u, v).1 in found;
      }
    }
    assert forall i :: 0 <= i < |targets| ==> targets[i] in targets;
  }

  // The end of every path ever queued, and its number of edges.
  ghost function Ends(paths: seq<seq<Node>>): seq<Node>
    requires forall i :: 0 <= i < |paths| ==> |paths[i]| > 0
  {
    seq(|paths|, i requires 0 <= i < |paths| => paths[i][|paths[i]| - 1])
  }

  ghost function Lengths(paths: seq<seq<Node>>): seq<nat>
    requires forall i :: 0 <= i < |paths| ==> |paths[i]| > 0
  {
    seq(|paths|, i requires 0 <= i < |paths| => |paths[i]| - 1)
  }

  // A queued path is a walk from the start through visited memories, none twice.
  ghost predicate GoodPath(assoc: Links, minWeight: real, start: Node, visited: set<Node>, p: seq<Node>) {
    && IsWalk(StrongLinks(assoc, minWeight), p) && p[0] == start && NoDup(p)
    && forall x :: x in p ==> x in visited
  }

  ghost predicate Trail(assoc: Links, minWeight: real, start: Node, visited: set<Node>, paths: seq<seq<Node>>) {
    && (forall i :: 0 <= i < |paths| ==> |paths[i]| > 0 && GoodPath(assoc, minWeight, start, visited, paths[i]))
    && visited == Elems(Ends(paths))
  }

  // The search with its head at `paths[head]`.
  ghost predicate Bfs(assoc: Links, minWeight: real, start: Node, visited: set<Node>, paths: seq<seq<Node>>, head: nat, limit: nat) {
    && Trail(assoc, minWeight, start, visited, paths)
    && Search(StrongLinks(assoc, minWeight), {start}, Ends(paths), Lengths(paths), head, limit)
  }

  lemma StartBfs(assoc: Links, minWeight: real, start: Node, limit: nat)
    ensures Bfs(assoc, minWeight, start, {start}, [[start]], 0, limit)
  {
    assert Ends([[start]]) == [start];
    StartSearch(StrongLinks(assoc, minWeight), {start}, Ends([[start]]), Lengths([[start]]), limit);
  }

  lemma PathsExtend(paths: seq<seq<Node>>, p: seq<Node>)
    requires |p| > 0 && forall i :: 0 <= i < |paths| ==> |paths[i]| > 0
    ensures Ends(paths + [p]) == Ends(paths) + [p[|p| - 1]] && Lengths(paths + [p]) == Lengths(paths) + [|p| - 1]
  {
  }

  lemma PathExtend(assoc: Links, minWeight: real, start: Node, visited: set<Node>, p: seq<Node>, v: Node)
    requires |p| > 0 && GoodPath(assoc, minWeight, start, visited, p) && Strong(assoc, minWeight, p[|p| - 1], v) && v !in visited
    ensures GoodPath(assoc, minWeight, start, visited + {v}, p + [v])
  {
  }

  lemma TrailExtend(assoc: Links, minWeight: real, start: Node, visited: set<Node>, paths: seq<seq<Node>>, head: nat, v: Node)
    requires Trail(assoc, minWeight, start, visited, paths) && head < |paths|
    requires Strong(assoc, minWeight, paths[head][|paths[head]| - 1], v) && v !in visited
    ensures Trail(assoc, minWeight, start, visited + {v}, paths + [paths[head] + [v]])
  {
    PathExtend(assoc, minWeight, start, visited, paths[head], v);
    PathsExtend(paths, paths[head] + [v]);
    assert Elems(Ends(paths) + [v]) == Elems(Ends(paths)) + {v};
    forall i | 0 <= i < |paths|
      ensures GoodPath(assoc, minWeight, start, visited + {v}, paths[i])
    {
      assert GoodPath(assoc, minWeight, start, visited, paths[i]);
    }
  }

  lemma BfsExtend(assoc: Links, minWeight: real, start: Node, visited: set<Node>, paths: seq<seq<Node>>, head: nat, limit: nat, v: Node)
    requires Bfs(assoc, minWeight, start, visited, paths, head, limit) && head < |paths|
    requires Strong(assoc, minWeight, paths[head][|paths[head]| - 1], v) && v !in visited
    ensures Bfs(assoc, minWeight, start, visited + {v}, paths + [paths[head] + [v]], head, limit)
  {
    TrailExtend(assoc, minWeight, start, visited, paths, head, v);
    PathsExtend(paths, paths[head] + [v]);
    Discover(StrongLinks(assoc, minWeight), {start}, Ends(paths), Lengths(paths), head, limit, v);
  }

  // Every strong link of the head leads to a visited memory: the queue moves on.
  lemma BfsAdvance(assoc: Links, minWeight: real, start: Node, visited: set<Node>, paths: seq<seq<Node>>, head: nat, limit: nat)
    requires Bfs(assoc, minWeight, start, visited, paths, head, limit) && head < |paths|
    requires |paths[head]| > limit || forall v: Node :: Strong(assoc, minWeight, paths[head][|paths[head]| - 1], v) ==> v in visited
    ensures Bfs(assoc, minWeight, start, visited, paths, head + 1, limit)
  {
    var (order, dist) := (Ends(paths), Lengths(paths));
    if |paths[head]| <= limit {
      forall v: Node | StrongLinks(assoc, minWeight)(order[head], v)
        ensures Found(order, dist, v, dist[head] + 1)
      {
        assert Strong(assoc, minWeight, paths[head][|paths[head]| - 1], v);
        assert v in visited && v in order;
        var j :| 0 <= j < |order| && order[j] == v;
      }
    }
    Advance(StrongLinks(assoc, minWeight), {start}, order, dist, head, limit);
  }

  // While `goal` is unvisited, every walk to it is longer than the head's path.
  lemma UnvisitedIsFar(assoc: Links, minWeight: real, start: Node, visited: set<Node>, paths: seq<seq<Node>>, head: nat, limit: nat,
                       goal: Node, p: seq<Node>)
    requires Bfs(assoc, minWeight, start, visited, paths, head, limit) && goal !in visited
    requires WalkTo(StrongLinks(assoc, minWeight), {start}, p, goal)
    ensures |p| - 1 > limit || (head < |paths| && |p| > |paths[head]|)
  {
    if |p| - 1 <= limit && (head < |paths| ==> |p| <= |paths[head]|) {
      Complete(StrongLinks(assoc, minWeight), {start}, Ends(paths), Lengths(paths), head, limit, p, goal);
    }
  }

  // A path from `start` to `goal` with the fewest possible edges.
  ghost predicate Shortest(assoc: Links, minWeight: real, start: Node, goal: Node, p: seq<Node>) {
    && WalkTo(StrongLinks(assoc, minWeight), {start}, p, goal) && NoDup(p)
    && forall q :: WalkTo(StrongLinks(assoc, minWeight), {start}, q, goal) ==> |p| <= |q|
  }

  ghost predicate OutOfReach(assoc: Links, minWeight: real, start: Node, goal: Node, maxDepth: nat) {
    forall q :: WalkTo(StrongLinks(assoc, minWeight), {start}, q, goal) ==> |q| - 1 > maxDepth
  }

  lemma FoundIsShortest(assoc: Links, minWeight: real, start: Node, visited: set<Node>, paths: seq<seq<Node>>, head: nat, limit: nat, goal: Node)
    requires Bfs(assoc, minWeight, start, visited, paths, head, limit) && head < |paths| && |paths[head]| <= limit
    requires Strong(assoc, minWeight, paths[head][|paths[head]| - 1], goal) && goal !in visited
    ensures Shortest(assoc, minWeight, start, goal, paths[head] + [goal])
  {
    var p := paths[head] + [goal];
    assert GoodPath(assoc, minWeight, start, visited, paths[head]);
    PathExtend(assoc, minWeight, start, visited, paths[head], goal);
    forall q | WalkTo(StrongLinks(assoc, minWeight), {start}, q, goal)
      ensures |p| <= |q|
    {
      UnvisitedIsFar(assoc, minWeight, start, visited, paths, head, limit, goal, q);
    }
  }

  function Universe(assoc: Links, start: Node): set<Node> {
    {start} + set e | e in assoc :: e.1
  }

  lemma NeighborIsKnown(assoc: Links, minWeight: real, start: Node, u: Node, v: Node)
    requires Strong(assoc, minWeight, u, v)
    ensures v in Universe(assoc, start)
  {
    assert (u, v) in assoc && (u, v).1 == v;
  }

  // The loop over the neighbours of the head; stops as soon as the goal shows up.
  method VisitNeighbors(assoc: Links, minWeight: real, ghost start: Node, goal: Node, path: seq<Node>, visited0: set<Node>,
                        paths0: seq<seq<Node>>, ghost head: nat, ghost limit: nat)
    returns (found: bool, visited: set<Node>, paths: seq<seq<Node>>)
    requires Bfs(assoc, minWeight, start, visited0, paths0, head, limit) && head < |paths0|
    requires paths0[head] == path && |path| <= limit && goal !in visited0 && visited0 <= Universe(assoc, start)
    ensures found ==> Shortest(assoc, minWeight, start, goal, path + [goal])
    ensures !found ==> goal !in visited && visited0 <= visited <= Universe(assoc, start) && paths0 <= paths
    ensures !found ==> paths != paths0 ==> visited0 < visited
    ensures !found ==> Bfs(assoc, minWeight, start, visited, paths, head + 1, limit)
  {
    found, visited, paths := false, visited0, paths0;
    var neighbors := NeighborEdges(assoc, minWeight, path[|path| - 1]);
    for k := 0 to |neighbors|
      invariant goal !in visited && visited0 <= visited <= Universe(assoc, start) && paths0 <= paths
      invariant paths != paths0 ==> visited0 < visited
      invariant Bfs(assoc, minWeight, start, visited, paths, head, limit)
      invariant forall l :: 0 <= l < k ==> neighbors[l] in visited
    {
      var neighbor := neighbors[k];
      assert neighbor in neighbors;
      if neighbor in visited {
        continue;
      }
      if neighbor == goal {
        FoundIsShortest(assoc, minWeight, start, visited, paths, head, limit, goal);
        found := true;
        return;
      }
      NeighborIsKnown(assoc, minWeight, start, path[|path| - 1], neighbor);
      BfsExtend(assoc, minWeight, start, visited, paths, head, limit, neighbor);
      visited, paths := visited + {neighbor}, paths + [path + [neighbor]];
    }
    BfsAdvance(assoc, minWeight, start, visited, paths, head, limit);
  }

  /**
    A shortest simple path of strong links between different memories, or None exactly when there
    is none of at most `maxDepth` edges.
   */
  method BfsPath(assoc: Links, start: Node, goal: Node, maxDepth: nat, minWeight: real) returns (path: Option<seq<Node>>)
    ensures start == goal ==> path.None?
    ensures path.Some? ==> Shortest(assoc, minWeight, start, goal, path.value) && 2 <= |path.value| <= maxDepth + 1
    ensures start != goal && path.None? ==> OutOfReach(assoc, minWeight, start, goal, maxDepth)
  {
    if start == goal {
      return None;
    }
    var visited, paths := {start}, [[start]];
    var head := 0;
    StartBfs(assoc, minWeight, start, maxDepth);
    while head < |paths|
      invariant head <= |paths|
      invariant Bfs(assoc, minWeight, start, visited, paths, head, maxDepth)
      invariant goal !in visited && visited <= Universe(assoc, start)
      decreases Universe(assoc, start) - visited, |paths| - head
    {
      var current := paths[head];
      if |current| > maxDepth {
        BfsAdvance(assoc, minWeight, start, visited, paths, head, maxDepth);
      } else {
        var found;
        found, visited, paths := VisitNeighbors(assoc, minWeight, start, goal, current, visited, paths, head, maxDepth);
        if found {
          return Some(current + [goal]);
        }
      }
      head := head + 1;
    }
    forall q | WalkTo(StrongLinks(assoc, minWeight), {start}, q, goal)
      ensures |q| - 1 > maxDepth
    {
      UnvisitedIsFar(assoc, minWeight, start, visited, paths, head, maxDepth, goal, q);
    }
    return None;
  }

  // A chain joins two of the pooled anchors by a shortest path with at least one memory in between.
  ghost predicate BridgeBetween(assoc: Links, minWeight: real, a: Node, b: Node, chain: seq<Node>) {
    3 <= |chain| <= 4 && Shortest(assoc, minWeight, a, b, chain)
  }

  ghost predicate IsBridge(assoc: Links, minWeight: real, pool: seq<Node>, chain: seq<Node>) {
    exists i, j :: 0 <= i < j < |pool| && BridgeBetween(assoc, minWeight, pool[i], pool[j], chain)
  }

  // The pair has been dealt with: its bridge is listed, or it has none within three edges.
  ghost predicate PairDone(assoc: Links, minWeight: real, a: Node, b: Node, chains: seq<seq<Node>>) {
    || a == b || Strong(assoc, minWeight, a, b)
    || OutOfReach(assoc, minWeight, a, b, 3)
    || exists k :: 0 <= k < |chains| && BridgeBetween(assoc, minWeight, a, b, chains[k])
  }

  lemma PairStaysDone(assoc: Links, minWeight: real, a: Node, b: Node, chains: seq<seq<Node>>, more: seq<seq<Node>>)
    requires PairDone(assoc, minWeight, a, b, chains) && chains <= more
    ensures PairDone(assoc, minWeight, a, b, more)
  {
    if exists k :: 0 <= k < |chains| && BridgeBetween(assoc, minWeight, a, b, chains[k]) {
      var k :| 0 <= k < |chains| && BridgeBetween(assoc, minWeight, a, b, chains[k]);
      assert BridgeBetween(assoc, minWeight, a, b, more[k]);
    }
  }

  lemma DirectLink(assoc: Links, minWeight: real, a: Node, b: Node, p: seq<Node>)
    requires a != b && Shortest(assoc, minWeight, a, b, p) && |p| == 2
    ensures Strong(assoc, minWeight, a, b)
  {
    assert StrongLinks(assoc, minWeight)(p[0], p[0 + 1]);
  }

  method TryPair(assoc: Links, minWeight: real, a: Node, b: Node, chains0: seq<seq<Node>>) returns (chains: seq<seq<Node>>)
    ensures chains0 <= chains && |chains| <= |chains0| + 1
    ensures |chains| > |chains0| ==> BridgeBetween(assoc, minWeight, a, b, chains[|chains0|])
    ensures PairDone(assoc, minWeight, a, b, chains)
  {
    chains := chains0;
    var path := BfsPath(assoc, a, b, 3, minWeight);
    if path.Some? {
      if |path.value| > 2 {
        chains := chains + [path.value];
        assert BridgeBetween(assoc, minWeight, a, b, chains[|chains0|]);
      } else if a != b {
        DirectLink(assoc, minWeight, a, b, path.value);
      }
    }
  }

  ghost predicate AllBridges(assoc: Links, minWeight: real, pool: seq<Node>, chains: seq<seq<Node>>) {
    forall k :: 0 <= k < |chains| ==> IsBridge(assoc, minWeight, pool, chains[k])
  }

  lemma PairsAdvance(assoc: Links, minWeight: real, pool: seq<Node>, chains: seq<seq<Node>>, more: seq<seq<Node>>, i: nat, j: nat)
    requires i < j < |pool| && chains <= more && PairsDone(assoc, minWeight, pool, chains, i, j)
    requires PairDone(assoc, minWeight, pool[i], pool[j], more)
    ensures PairsDone(assoc, minWeight, pool, more, i, j + 1)
  {
    forall a, b | 0 <= a < b < |pool| && (a < i || (a == i && b < j + 1))
      ensures PairDone(assoc, minWeight, pool[a], pool[b], more)
    {
      if !(a == i && b == j) {
        PairStaysDone(assoc, minWeight, pool[a], pool[b], chains, more);
      }
    }
  }

  lemma BridgesExtend(assoc: Links, minWeight: real, pool: seq<Node>, chains: seq<seq<Node>>, more: seq<seq<Node>>, i: nat, j: nat)
    requires i < j < |pool| && chains <= more && |more| <= |chains| + 1 && AllBridges(assoc, minWeight, pool, chains)
    requires |more| > |chains| ==> BridgeBetween(assoc, minWeight, pool[i], pool[j], more[|chains|])
    ensures AllBridges(assoc, minWeight, pool, more)
  {
    forall k | 0 <= k < |more|
      ensures IsBridge(assoc, minWeight, pool, more[k])
    {
      assert k < |chains| ==> more[k] == chains[k];
    }
  }

  method BridgeRow(assoc: Links, minWeight: real, maxPaths: nat, pool: seq<Node>, i: nat, chains0: seq<seq<Node>>)
    returns (chains: seq<seq<Node>>)
    requires i < |pool| && |chains0| <= maxPaths && AllBridges(assoc, minWeight, pool, chains0)
    requires |chains0| < maxPaths ==> PairsDone(assoc, minWeight, pool, chains0, i, i + 1)
    ensures |chains| <= maxPaths && AllBridges(assoc, minWeight, pool, chains)
    ensures |chains| < maxPaths ==> PairsDone(assoc, minWeight, pool, chains, i, |pool|)
  {
    chains := chains0;
    var j := i + 1;
    while j < |pool| && |chains| < maxPaths
      invariant i + 1 <= j <= |pool| && |chains| <= maxPaths && AllBridges(assoc, minWeight, pool, chains)
      invariant |chains| < maxPaths ==> PairsDone(assoc, minWeight, pool, chains, i, j)
    {
      ghost var before := chains;
      chains := TryPair(assoc, minWeight, pool[i], pool[j], chains);
      BridgesExtend(assoc, minWeight, pool, before, chains, i, j);
      PairsAdvance(assoc, minWeight, pool, before, chains, i, j);
      j := j + 1;
    }
  }

  /**
    At most `maxPaths` bridges, each between two of the top three anchors; if the cap is not
    reached, every pair is either bridged, directly linked, or more than three edges apart.
   */
  method FindBridges(assoc: Links, anchors: seq<Node>, enabled: bool, minWeight: real, maxPaths: nat)
    returns (chains: seq<seq<Node>>)
    ensures |chains| <= maxPaths
    ensures AllBridges(assoc, minWeight, if |anchors| <= 3 then anchors else anchors[..3], chains)
    ensures enabled && |chains| < maxPaths ==>
      forall i, j :: 0 <= i < j < |anchors| && j < 3 ==> PairDone(assoc, minWeight, anchors[i], anchors[j], chains)
  {
    chains := [];
    if !enabled || |anchors| < 2 {
      return;
    }
    var pool := if |anchors| <= 3 then anchors else anchors[..3];
    for i := 0 to |pool|
      invariant |chains| <= maxPaths && AllBridges(assoc, minWeight, pool, chains)
      invariant |chains| < maxPaths ==> PairsDone(assoc, minWeight, pool, chains, i, i + 1)
    {
      chains := BridgeRow(assoc, minWeight, maxPaths, pool, i, chains);
    }
    assert forall k :: 0 <= k < |pool| ==> pool[k] == anchors[k];
  }

  // The loops over pairs have passed all of row `0..i`, and in row `i` all before `j`.
  ghost predicate PairsDone(assoc: Links, minWeight: real, pool: seq<Node>, chains: seq<seq<Node>>, i: nat, j: nat) {
    forall a, b :: 0 <= a < b < |pool| && (a < i || (a == i && b < j)) ==> PairDone(assoc, minWeight, pool[a], pool[b], chains)
  }
}
