/** Walks in a directed graph, and why a first-in first-out search finds shortest ones. */
module Walks {
  type Node = nat

  type Step = (Node, Node) -> bool

  ghost predicate IsWalk(step: Step, p: seq<Node>) {
    |p| > 0 && forall i :: 0 <= i < |p| - 1 ==> step(p[i], p[i + 1])
  }

  // A walk of `|p| - 1` edges from one of the sources to `v`.
  ghost predicate WalkTo(step: Step, sources: set<Node>, p: seq<Node>, v: Node) {
    IsWalk(step, p) && p[0] in sources && p[|p| - 1] == v
  }

  lemma WalkPrefix(step: Step, sources: set<Node>, p: seq<Node>, v: Node)
    requires WalkTo(step, sources, p, v) && |p| > 1
    ensures WalkTo(step, sources, p[..|p| - 1], p[|p| - 2]) && step(p[|p| - 2], v)
  {
    assert step(p[|p| - 2], p[|p| - 2 + 1]);
  }

  lemma WalkExtend(step: Step, sources: set<Node>, p: seq<Node>, u: Node, v: Node)
    requires WalkTo(step, sources, p, u) && step(u, v)
    ensures WalkTo(step, sources, p + [v], v)
  {
  }

  // Node `v` was discovered, within `n` edges.
  ghost predicate Found(order: seq<Node>, dist: seq<nat>, v: Node, n: nat)
    requires |order| == |dist|
  {
    exists j :: 0 <= j < |order| && order[j] == v && dist[j] <= n
  }

  // All successors of the discovered node `i` are discovered, at most one edge later.
  ghost predicate Expanded(step: Step, order: seq<Node>, dist: seq<nat>, i: nat)
    requires |order| == |dist| && i < |order|
  {
    forall v :: step(order[i], v) ==> Found(order, dist, v, dist[i] + 1)
  }

  // Every walk to a node has at least `n` edges.
  ghost predicate NoShorter(step: Step, sources: set<Node>, v: Node, n: nat) {
    forall p :: WalkTo(step, sources, p, v) ==> |p| - 1 >= n
  }

  // The shortest walks to `v` have exactly `n` edges.
  ghost predicate Distance(step: Step, sources: set<Node>, v: Node, n: nat) {
    NoShorter(step, sources, v, n) && exists p :: WalkTo(step, sources, p, v) && |p| - 1 == n
  }

  /**
    The state of a breadth-first search.  `order` lists the nodes in order of discovery with their
    distances, `order[head..]` is the queue, and nodes at distance `limit` are not expanded.
   */
  ghost predicate Search(step: Step, sources: set<Node>, order: seq<Node>, dist: seq<nat>, head: nat, limit: nat) {
    && |order| == |dist| && head <= |order|
    && (forall i, j :: 0 <= i < j < |dist| ==> dist[i] <= dist[j])
    && (head < |dist| ==> forall j :: 0 <= j < |dist| ==> dist[j] <= dist[head] + 1)
    && (forall v :: v in sources ==> Found(order, dist, v, 0))
    && (forall i :: 0 <= i < head && dist[i] < limit ==> Expanded(step, order, dist, i))
  }

  /** Whatever is reachable within the distance of the queue's head has been discovered. */
  lemma {:induction false} Complete(step: Step, sources: set<Node>, order: seq<Node>, dist: seq<nat>, head: nat, limit: nat,
                                    p: seq<Node>, v: Node)
    requires Search(step, sources, order, dist, head, limit)
    requires WalkTo(step, sources, p, v) && |p| - 1 <= limit
    requires head < |dist| ==> |p| - 1 <= dist[head]
    ensures Found(order, dist, v, |p| - 1)
    decreases |p|
  {
    if |p| > 1 {
      var u := p[|p| - 2];
      WalkPrefix(step, sources, p, v);
      Complete(step, sources, order, dist, head, limit, p[..|p| - 1], u);
      var j :| 0 <= j < |order| && order[j] == u && dist[j] <= |p| - 2;
      assert j < head;
      assert Expanded(step, order, dist, j);
      assert Found(order, dist, v, dist[j] + 1);
    }
  }

  lemma FoundStays(order: seq<Node>, dist: seq<nat>, v: Node, n: nat, w: Node, d: nat)
    requires |order| == |dist| && Found(order, dist, v, n)
    ensures Found(order + [w], dist + [d], v, n)
  {
    var j :| 0 <= j < |order| && order[j] == v && dist[j] <= n;
    assert (order + [w])[j] == v && (dist + [d])[j] <= n;
  }

  // Discovering a node one edge behind the head keeps the search state.
  lemma Discover(step: Step, sources: set<Node>, order: seq<Node>, dist: seq<nat>, head: nat, limit: nat, w: Node)
    requires Search(step, sources, order, dist, head, limit) && head < |order|
    ensures Search(step, sources, order + [w], dist + [dist[head] + 1], head, limit)
    ensures Found(order + [w], dist + [dist[head] + 1], w, dist[head] + 1)
    ensures forall v, n :: Found(order, dist, v, n) ==> Found(order + [w], dist + [dist[head] + 1], v, n)
  {
    var (order', dist') := (order + [w], dist + [dist[head] + 1]);
    forall v, n | Found(order, dist, v, n)
      ensures Found(order', dist', v, n)
    {
      FoundStays(order, dist, v, n, w, dist[head] + 1);
    }
    assert order'[|order|] == w && dist'[|order|] == dist[head] + 1;
    forall i | 0 <= i < head && dist'[i] < limit
      ensures Expanded(step, order', dist', i)
    {
      assert Expanded(step, order, dist, i);
    }
  }

  // Once the head is expanded, or too far away to be, the queue moves on.
  lemma Advance(step: Step, sources: set<Node>, order: seq<Node>, dist: seq<nat>, head: nat, limit: nat)
    requires Search(step, sources, order, dist, head, limit) && head < |order|
    requires dist[head] >= limit || Expanded(step, order, dist, head)
    ensures Search(step, sources, order, dist, head + 1, limit)
  {
  }

  lemma StartSearch(step: Step, sources: set<Node>, order: seq<Node>, dist: seq<nat>, limit: nat)
    requires |order| == |dist| && (forall v :: v in sources <==> v in order) && forall i :: 0 <= i < |dist| ==> dist[i] == 0
    ensures Search(step, sources, order, dist, 0, limit)
  {
    forall v | v in sources
      ensures Found(order, dist, v, 0)
    {
      var j :| 0 <= j < |order| && order[j] == v;
    }
  }
}
