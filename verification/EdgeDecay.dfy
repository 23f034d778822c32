/** In-place strengthening and decay of one graph edge (`strengthen`, `decay` in `crates/graph/src/lib.rs`). */
module EdgeDecay {
  import opened RealArith
  import opened Lifecycle
  import opened Expansion

  datatype GraphConfig = GraphConfig(strengthenAmount: real, tauDays: real, exp: real -> real)

  function Factor(last: int, now: int, g: GraphConfig): real
    requires g.tauDays != 0.0
  {
    g.exp(-DaysSince(last, now) / g.tauDays)
  }

  function Decayed(a: Association, now: int, g: GraphConfig): Association
    requires g.tauDays != 0.0
  {
    a.(weight := a.weight * Factor(a.lastCoRetrieval, now, g))
  }

  function Strengthened(a: Association, now: int, g: GraphConfig): Association {
    a.(weight := Min(a.weight + g.strengthenAmount, 1.0), lastCoRetrieval := now)
  }

  class EdgeCell {
    var edge: Association

    constructor (a: Association)
      ensures edge == a
    {
      edge := a;
    }

    method Strengthen(now: int, g: GraphConfig)
      modifies this
      ensures edge == Strengthened(old(edge), now, g)
      ensures g.strengthenAmount >= 0.0 && old(edge).weight <= 1.0 ==> old(edge).weight <= edge.weight <= 1.0
    {
      edge := edge.(weight := Min(edge.weight + g.strengthenAmount, 1.0));
      edge := edge.(lastCoRetrieval := now);
    }

    method Decay(now: int, g: GraphConfig) returns (decayed: real)
      requires g.tauDays != 0.0
      modifies this
      ensures edge == Decayed(old(edge), now, g) && decayed == edge.weight
    {
      var dtDays := DaysSince(edge.lastCoRetrieval, now);
      decayed := edge.weight * g.exp(-dtDays / g.tauDays);
      edge := edge.(weight := decayed);
    }
  }

  // -------------------------------------------------------------------------
  // Any history of an edge
  // -------------------------------------------------------------------------

  datatype Touch = Bump(now: int) | Fade(now: int)

  function Touched(a: Association, touches: seq<Touch>, g: GraphConfig): Association
    requires g.tauDays != 0.0
  {
    if touches == [] then a
    else
      var before := Touched(a, touches[..|touches| - 1], g);
      match touches[|touches| - 1]
      case Bump(now) => Strengthened(before, now, g)
      case Fade(now) => Decayed(before, now, g)
  }

  // The time of the latest strengthening, or `start` if there was none.
  function LatestBump(touches: seq<Touch>, start: int): int {
    if touches == [] then start
    else
      match touches[|touches| - 1]
      case Bump(now) => now
      case Fade(_) => LatestBump(touches[..|touches| - 1], start)
  }

  lemma FadeStaysInUnit(b: Association, now: int, g: GraphConfig)
    requires g.tauDays != 0.0 && 0.0 <= b.weight <= 1.0 && 0.0 < Factor(b.lastCoRetrieval, now, g) <= 1.0
    ensures 0.0 <= Decayed(b, now, g).weight <= 1.0
  {
    var f := Factor(b.lastCoRetrieval, now, g);
    ScaledOrder(b.weight, b.weight, f, f);
  }

  /**
    Over any sequence of strengthenings and decays the weight stays in [0, 1], the age is counted from
    the latest strengthening, and the edge keeps its target.
   */
  lemma {:induction false} EdgeHistoryIsSound(a: Association, touches: seq<Touch>, g: GraphConfig)
    requires GoodExp(g.exp) && g.tauDays > 0.0 && g.strengthenAmount >= 0.0 && 0.0 <= a.weight <= 1.0
    ensures 0.0 <= Touched(a, touches, g).weight <= 1.0
    ensures Touched(a, touches, g).lastCoRetrieval == LatestBump(touches, a.lastCoRetrieval)
    ensures Touched(a, touches, g).target == a.target
  {
    if touches != [] {
      var front := touches[..|touches| - 1];
      EdgeHistoryIsSound(a, front, g);
      match touches[|touches| - 1]
      case Bump(_) =>
      case Fade(now) =>
        FactorInUnit(Touched(a, front, g).lastCoRetrieval, now, g);
        FadeStaysInUnit(Touched(a, front, g), now, g);
    }
  }

  function Bumps(times: seq<int>): seq<Touch> {
    seq(|times|, i requires 0 <= i < |times| => Bump(times[i]))
  }

  /** Strengthenings without a decay between them add up, to one at most. */
  lemma {:induction false} BumpsAddUp(a: Association, times: seq<int>, g: GraphConfig)
    requires g.tauDays != 0.0 && g.strengthenAmount >= 0.0 && a.weight <= 1.0
    ensures var w := a.weight + |times| as real * g.strengthenAmount;
            Touched(a, Bumps(times), g).weight == if w < 1.0 then w else 1.0
  {
    if times != [] {
      var k := |times| - 1;
      assert Bumps(times)[..k] == Bumps(times[..k]);
      BumpsAddUp(a, times[..k], g);
      assert |times| as real * g.strengthenAmount == k as real * g.strengthenAmount + g.strengthenAmount;
    }
  }

  /**
    Whatever came before, a strengthening at `t` never lowers the weight and resets the age: what a
    decay at `u` then leaves depends on `u - t` only, and is everything when `u` is not after `t`.
   */
  lemma StrengthenResetsAge(a: Association, touches: seq<Touch>, t: int, u: int, g: GraphConfig)
    requires GoodExp(g.exp) && g.tauDays > 0.0 && g.strengthenAmount >= 0.0 && 0.0 <= a.weight <= 1.0
    ensures Resets(Touched(a, touches, g), Touched(a, touches + [Bump(t)], g), t, u, g)
  {
    EdgeHistoryIsSound(a, touches, g);
    LastTouchIsBump(a, touches, t, g);
    FactorInUnit(t, u, g);
    BumpResets(Touched(a, touches, g), t, u, g);
  }

  ghost predicate Resets(before: Association, after: Association, t: int, u: int, g: GraphConfig)
    requires g.tauDays != 0.0
  {
    && before.weight <= after.weight
    && Decayed(after, u, g).weight == after.weight * Factor(0, u - t, g)
    && (u <= t ==> Decayed(after, u, g) == after)
  }

  lemma BumpResets(b: Association, t: int, u: int, g: GraphConfig)
    requires g.tauDays != 0.0 && g.strengthenAmount >= 0.0 && b.weight <= 1.0 && (u <= t ==> Factor(t, u, g) == 1.0)
    ensures Resets(b, Strengthened(b, t, g), t, u, g)
  {
    DecayAfter(Strengthened(b, t, g), u, g);
  }

  lemma LastTouchIsBump(a: Association, touches: seq<Touch>, t: int, g: GraphConfig)
    requires g.tauDays != 0.0
    ensures Touched(a, touches + [Bump(t)], g) == Strengthened(Touched(a, touches, g), t, g)
  {
    assert (touches + [Bump(t)])[..|touches|] == touches;
  }

  lemma DecayAfter(b: Association, u: int, g: GraphConfig)
    requires g.tauDays != 0.0 && (u <= b.lastCoRetrieval ==> Factor(b.lastCoRetrieval, u, g) == 1.0)
    ensures Decayed(b, u, g).weight == b.weight * Factor(0, u - b.lastCoRetrieval, g)
    ensures u <= b.lastCoRetrieval ==> Decayed(b, u, g) == b
  {
    assert DaysSince(b.lastCoRetrieval, u) == DaysSince(0, u - b.lastCoRetrieval);
  }

  // -------------------------------------------------------------------------
  // Repeated decay
  // -------------------------------------------------------------------------

  // Decay called at each of the given times in turn.
  function DecayedAll(a: Association, times: seq<int>, g: GraphConfig): Association
    requires g.tauDays != 0.0
  {
    if times == [] then a else Decayed(DecayedAll(a, times[..|times| - 1], g), times[|times| - 1], g)
  }

  lemma FactorInUnit(last: int, now: int, g: GraphConfig)
    requires GoodExp(g.exp) && g.tauDays > 0.0
    ensures 0.0 < Factor(last, now, g) <= 1.0
    ensures Factor(last, now, g) == 1.0 <==> now <= last
  {
    var d := DaysSince(last, now);
    var x := -d / g.tauDays;
    assert x * g.tauDays == -d;
    if now <= last {
      assert x == 0.0;
    } else {
      assert d > 0.0;
      DivisionIsMonotone(0.0, d, g.tauDays, g.tauDays);
      assert x == -(d / g.tauDays) && x != 0.0;
      assert g.exp(x) < g.exp(0.0);
    }
  }

  lemma ShrinkOrStay(w: real, v: real, f: real)
    requires 0.0 < v <= w && 0.0 < f <= 1.0
    ensures 0.0 < v * f <= w
    ensures v * f == w <==> v == w && f == 1.0
  {
    PositiveProduct(v, f);
    ProductOrder(f, 1.0, v);
    if f < 1.0 {
      StrictProductOrder(f, 1.0, v);
    }
  }

  ghost predicate NoneLater(times: seq<int>, last: int) {
    forall i :: 0 <= i < |times| ==> times[i] <= last
  }

  // One more decay of a weight `v` that stems from `w`.
  lemma OneMoreDecay(w: real, v: real, f: real, times: seq<int>, last: int)
    requires times != [] && 0.0 < v <= w && 0.0 < f <= 1.0
    requires v == w <==> NoneLater(times[..|times| - 1], last)
    requires f == 1.0 <==> times[|times| - 1] <= last
    ensures 0.0 < v * f <= w && (v * f == w <==> NoneLater(times, last))
  {
    ShrinkOrStay(w, v, f);
    var front := times[..|times| - 1];
    assert NoneLater(times, last) <==> NoneLater(front, last) && times[|times| - 1] <= last by {
      assert times == front + [times[|times| - 1]];
    }
  }

  ghost predicate Shrunk(a: Association, b: Association, times: seq<int>) {
    && b == a.(weight := b.weight) && 0.0 < b.weight <= a.weight
    && (b.weight == a.weight <==> NoneLater(times, a.lastCoRetrieval))
  }

  lemma {:induction false} RepeatedDecay(a: Association, times: seq<int>, g: GraphConfig)
    requires GoodExp(g.exp) && g.tauDays > 0.0 && a.weight > 0.0
    ensures Shrunk(a, DecayedAll(a, times, g), times)
  {
    if times != [] {
      RepeatedDecay(a, times[..|times| - 1], g);
      var (mid, t) := (DecayedAll(a, times[..|times| - 1], g), times[|times| - 1]);
      FactorInUnit(a.lastCoRetrieval, t, g);
      OneMoreDecay(a.weight, mid.weight, Factor(a.lastCoRetrieval, t, g), times, a.lastCoRetrieval);
    }
  }

  lemma SameProduct(w: real, v: real, f: real)
    requires f > 0.0
    ensures v * f == w * f <==> v == w
  {
    if v < w {
      StrictProductOrder(v, w, f);
    } else if w < v {
      StrictProductOrder(w, v, f);
    }
  }

  lemma SameDecay(a: Association, b: Association, now: int, g: GraphConfig)
    requires g.tauDays != 0.0 && b == a.(weight := b.weight) && Factor(a.lastCoRetrieval, now, g) > 0.0
    ensures Decayed(b, now, g) == Decayed(a, now, g) <==> b.weight == a.weight
  {
    SameProduct(a.weight, b.weight, Factor(a.lastCoRetrieval, now, g));
  }

  /**
    The decay is measured from the last co-retrieval, which decaying does not move, so calls compound:
    after earlier calls a decay gives `w * exp(-dt/tau)` of the original weight exactly when none of
    them came later than that co-retrieval.
   */
  lemma DecayCompoundsUnlessIdle(a: Association, times: seq<int>, now: int, g: GraphConfig)
    requires GoodExp(g.exp) && g.tauDays > 0.0 && a.weight > 0.0
    ensures Decayed(DecayedAll(a, times, g), now, g) == Decayed(a, now, g) <==> NoneLater(times, a.lastCoRetrieval)
  {
    var b := DecayedAll(a, times, g);
    RepeatedDecay(a, times, g);
    FactorInUnit(a.lastCoRetrieval, now, g);
    SameDecay(a, b, now, g);
  }
}
