/**
  Decay, boosts and promotion of one memory (`crates/lifecycle/src/lib.rs`).

  Floats are modelled as reals.  `exp`, `powf` and `sqrt` are fields of the configuration;
  what is needed of them is the predicate `GoodMath`, a hypothesis of the lemmas that use it.
 */
module Lifecycle {
  import opened RealArith

  datatype DecayModel = Exponential | Power

  // Base decay rate in days; `Infinite` is the "never decays" rate of procedural memories.
  datatype Rate = Finite(days: real) | Infinite

  datatype Config = Config(
    decayModel: DecayModel,
    scoreExponent: real,
    gamma: real,
    directBoost: real,
    associativeBoost: real,
    intervalDays: real,
    maxMultiplier: real,
    coreAccess: int,
    coreStability: real,
    coreSessions: nat,
    tauDays: real,
    baseRates: map<string, Rate>,
    exp: real -> real,
    pow: (real, real) -> real,
    sqrt: real -> real)

  const SECONDS_PER_DAY: real := 86400.0

  function Max(x: real, y: real): real { if x < y then y else x }

  function Min(x: real, y: real): real { if x < y then x else y }

  function Abs(x: real): real { if x < 0.0 then -x else x }

  function BetaFor(cfg: Config, category: string): Rate {
    if category in cfg.baseRates then cfg.baseRates[category] else Finite(120.0)
  }

  datatype Category = Episodic | Semantic | Procedural | Core

  function ParseCategory(s: string): Category {
    if s == "episodic" then Episodic
    else if s == "procedural" then Procedural
    else if s == "core" then Core
    else Semantic
  }

  datatype MemoryState = MemoryState(
    lastAccessedAt: int,
    createdAt: int,
    stability: real,
    importance: real,
    rate: Rate,
    floor: real,
    isStub: bool,
    accessCount: int,
    sessionCount: nat,
    category: Category)

  // Elapsed days, clamped at zero so that clock skew never counts as negative age.
  function DaysSince(last: int, now: int): (d: real)
    ensures d >= 0.0
  {
    (if now > last then now - last else 0) as real / SECONDS_PER_DAY
  }

  function EffectiveRate(m: MemoryState): real
    requires m.rate.Finite?
  {
    Max(m.stability, 0.01) * Min(1.0 + m.importance * 2.0, 3.0) * m.rate.days
  }

  // The decay curve as a function of age divided by the effective rate.
  function Curve(ratio: real, cfg: Config): real {
    match cfg.decayModel
    case Exponential => cfg.exp(-ratio)
    case Power => cfg.pow(1.0 + ratio, -cfg.gamma)
  }

  // A zero rate follows IEEE division: a positive age decays to nothing, age zero is NaN and
  // yields the floor.
  function ComputeRetention(m: MemoryState, now: int, cfg: Config): real {
    if m.isStub then 0.0
    else if m.rate.Infinite? then 1.0
    else
      var dt := DaysSince(m.lastAccessedAt, now);
      var rate := EffectiveRate(m);
      if rate == 0.0 then (if dt > 0.0 then Max(0.0, m.floor) else m.floor)
      else Max(Curve(dt / rate, cfg), m.floor)
  }

  function ScoreMemory(m: MemoryState, relevance: real, now: int, cfg: Config): real {
    relevance * cfg.pow(ComputeRetention(m, now, cfg), cfg.scoreExponent)
  }

  function DecayAssociationWeight(w: real, last: int, now: int, cfg: Config): real
    requires cfg.tauDays != 0.0
  {
    w * cfg.exp(-DaysSince(last, now) / cfg.tauDays)
  }

  function SpacedRepFactor(m: MemoryState, now: int, cfg: Config): real
    requires cfg.intervalDays != 0.0
  {
    Min(cfg.maxMultiplier, DaysSince(m.lastAccessedAt, now) / cfg.intervalDays)
  }

  function Boosted(m: MemoryState, amount: real, now: int, cfg: Config): MemoryState
    requires cfg.intervalDays != 0.0
  {
    m.(stability := Min(m.stability + amount * SpacedRepFactor(m, now, cfg), 1.0),
       accessCount := m.accessCount + 1,
       lastAccessedAt := now)
  }

  predicate MeetsCoreThresholds(m: MemoryState, cfg: Config) {
    && m.accessCount >= cfg.coreAccess
    && m.stability >= cfg.coreStability
    && m.sessionCount >= cfg.coreSessions
  }

  /** The in-memory view that the boosts and the promotion check update in place. */
  class MemoryCell {
    var state: MemoryState

    constructor (s: MemoryState)
      ensures state == s
    {
      state := s;
    }

    method ApplyDirectBoost(now: int, cfg: Config)
      requires cfg.intervalDays != 0.0
      modifies this
      ensures state == Boosted(old(state), cfg.directBoost, now, cfg)
    {
      var factor := SpacedRepFactor(state, now, cfg);
      state := state.(stability := Min(state.stability + cfg.directBoost * factor, 1.0));
      state := state.(accessCount := state.accessCount + 1);
      state := state.(lastAccessedAt := now);
    }

    method ApplyAssociativeBoost(now: int, cfg: Config)
      requires cfg.intervalDays != 0.0
      modifies this
      ensures state == Boosted(old(state), cfg.associativeBoost, now, cfg)
    {
      var factor := SpacedRepFactor(state, now, cfg);
      state := state.(stability := Min(state.stability + cfg.associativeBoost * factor, 1.0));
      state := state.(accessCount := state.accessCount + 1);
      state := state.(lastAccessedAt := now);
    }

    method CheckCorePromotion(cfg: Config) returns (promoted: bool)
      modifies this
      ensures promoted <==> old(state).category != Core && MeetsCoreThresholds(old(state), cfg)
      ensures state == if promoted then old(state).(category := Core) else old(state)
    {
      if state.category == Core {
        return false;
      }
      if state.accessCount >= cfg.coreAccess && state.stability >= cfg.coreStability
         && state.sessionCount >= cfg.coreSessions {
        state := state.(category := Core);
        return true;
      }
      return false;
    }
  }

  // -------------------------------------------------------------------------
  // Properties of the decay curve
  // -------------------------------------------------------------------------

  ghost predicate GoodExp(exp: real -> real) {
    && exp(0.0) == 1.0
    && (forall x: real :: exp(x) > 0.0)
    && (forall x: real, y: real :: x < y ==> exp(x) < exp(y))
  }

  ghost predicate GoodPow(pow: (real, real) -> real) {
    && (forall e: real :: pow(1.0, e) == 1.0)
    && (forall b: real, e: real :: b > 0.0 ==> pow(b, e) > 0.0)
    && (forall b: real, c: real, e: real :: 1.0 <= b < c && e < 0.0 ==> pow(c, e) < pow(b, e))
    && (forall b: real, e: real :: 0.0 <= b <= 1.0 && e >= 0.0 ==> 0.0 <= pow(b, e) <= 1.0)
  }

  ghost predicate GoodMath(cfg: Config) {
    && GoodExp(cfg.exp)
    && GoodPow(cfg.pow)
    && cfg.gamma > 0.0
    && cfg.scoreExponent >= 0.0
  }

  predicate Decays(m: MemoryState) {
    !m.isStub && m.rate.Finite? && EffectiveRate(m) > 0.0
  }

  lemma CurveStrictlyFalls(x: real, y: real, cfg: Config)
    requires GoodMath(cfg) && 0.0 <= x <= y
    ensures 0.0 < Curve(y, cfg) <= Curve(x, cfg) <= 1.0
    ensures x < y ==> Curve(y, cfg) < Curve(x, cfg)
    ensures Curve(0.0, cfg) == 1.0
  {
    assert -0.0 == 0.0;
    assert -y <= -x <= 0.0;
    if x > 0.0 {
      assert cfg.pow(1.0 + x, -cfg.gamma) < cfg.pow(1.0, -cfg.gamma);
    }
  }

  /** Retention of a live memory lies between its floor and one. */
  lemma RetentionInRange(m: MemoryState, now: int, cfg: Config)
    requires GoodMath(cfg) && !m.isStub && m.floor <= 1.0
    requires m.rate.Infinite? || Decays(m)
    ensures m.floor <= ComputeRetention(m, now, cfg) <= 1.0
    ensures 0.0 < ComputeRetention(m, now, cfg)
  {
    if Decays(m) {
      var dt := DaysSince(m.lastAccessedAt, now);
      DivisionIsMonotone(dt, dt, EffectiveRate(m), EffectiveRate(m));
      CurveStrictlyFalls(dt / EffectiveRate(m), dt / EffectiveRate(m), cfg);
    }
  }

  /** Without an access, retention never rises as time passes. */
  lemma RetentionNeverRises(m: MemoryState, t: int, u: int, cfg: Config)
    requires GoodMath(cfg) && t <= u
    requires m.isStub || m.rate.Infinite? || Decays(m)
    ensures ComputeRetention(m, u, cfg) <= ComputeRetention(m, t, cfg)
  {
    if Decays(m) {
      var r := EffectiveRate(m);
      DivisionIsMonotone(DaysSince(m.lastAccessedAt, t), DaysSince(m.lastAccessedAt, u), r, r);
      CurveStrictlyFalls(DaysSince(m.lastAccessedAt, t) / r, DaysSince(m.lastAccessedAt, u) / r, cfg);
    }
  }

  /** A floor is never undercut, whatever the curve does. */
  lemma FloorIsRespected(m: MemoryState, now: int, cfg: Config)
    requires !m.isStub && m.floor <= 1.0
    ensures m.floor <= ComputeRetention(m, now, cfg)
  {
  }

  // The boost applied on access, provided the configured amounts are not negative.
  ghost predicate GainfulAccess(amount: real, cfg: Config) {
    amount >= 0.0 && cfg.intervalDays > 0.0 && cfg.maxMultiplier >= 0.0
  }

  lemma StabilityAfterAccess(m: MemoryState, amount: real, now: int, cfg: Config)
    requires GainfulAccess(amount, cfg)
    ensures m.stability <= 1.0 ==> m.stability <= Boosted(m, amount, now, cfg).stability <= 1.0
    ensures m.stability > 1.0 ==> Boosted(m, amount, now, cfg).stability == 1.0
  {
    var dt := DaysSince(m.lastAccessedAt, now);
    DivisionIsMonotone(0.0, dt, cfg.intervalDays, cfg.intervalDays);
    assert SpacedRepFactor(m, now, cfg) >= 0.0;
    assert amount * SpacedRepFactor(m, now, cfg) >= 0.0;
  }

  // The retention an access at `now` leaves at time `t` is at least what it would have been.
  ghost predicate KeptAt(m: MemoryState, amount: real, now: int, cfg: Config, t: int)
    requires cfg.intervalDays != 0.0
  {
    ComputeRetention(m, t, cfg) <= ComputeRetention(Boosted(m, amount, now, cfg), t, cfg)
  }

  lemma RateGrowsWithStability(m: MemoryState, k: MemoryState)
    requires Decays(m) && k.rate == m.rate && k.importance == m.importance
    ensures m.stability <= k.stability ==> EffectiveRate(m) <= EffectiveRate(k)
  {
    var s, s' := Max(m.stability, 0.01), Max(k.stability, 0.01);
    var c := Min(1.0 + m.importance * 2.0, 3.0) * m.rate.days;
    assert EffectiveRate(m) == s * c && EffectiveRate(k) == s' * c;
    PositiveFactor(s, c);
    if s <= s' {
      ProductOrder(s, s', c);
    }
  }

  /** With stability at most one, an access never lowers retention at any later instant. */
  lemma AccessNeverLowersRetention(m: MemoryState, amount: real, now: int, cfg: Config, t: int)
    requires GoodMath(cfg) && GainfulAccess(amount, cfg)
    requires m.isStub || m.rate.Infinite? || Decays(m)
    requires m.lastAccessedAt <= now <= t
    requires m.stability <= 1.0
    ensures KeptAt(m, amount, now, cfg, t)
  {
    var k := Boosted(m, amount, now, cfg);
    StabilityAfterAccess(m, amount, now, cfg);
    if Decays(m) {
      RateGrowsWithStability(m, k);
      var (r, r') := (EffectiveRate(m), EffectiveRate(k));
      DivisionIsMonotone(DaysSince(now, t), DaysSince(m.lastAccessedAt, t), r, r');
      DivisionIsMonotone(DaysSince(now, t), DaysSince(now, t), r', r');
      CurveStrictlyFalls(DaysSince(now, t) / r', DaysSince(m.lastAccessedAt, t) / r, cfg);
    }
  }

  lemma CrossRatios(d: real, e: real, s: real, c: real, r: real)
    requires s > 1.0 && c > 0.0 && 0.0 <= d && 0.0 <= e && r == s * c && r > 0.0
    ensures e < d * s ==> 0.0 <= e / r < d / c
    ensures d * s <= e ==> 0.0 <= d / c <= e / r
  {
    var p, q := e / r, d / c;
    assert p * r == e && q * c == d;
    assert q * r == (q * c) * s;
    if q <= p {
      ProductOrder(q, p, r);
    } else {
      StrictProductOrder(p, q, r);
    }
    if p < 0.0 {
      StrictProductOrder(p, 0.0, r);
    }
    if q < 0.0 {
      StrictProductOrder(q, 0.0, c);
    }
  }

  // At `t` a stability cut from `s` to one outweighs the fresh access.
  predicate Outweighed(s: real, last: int, now: int, t: int) {
    (t - last) as real < (t - now) as real * s
  }

  // The first instant at which a stability cut from `s` to one outweighs the fresh access.
  function LateInstant(s: real, last: int, now: int): (t: int)
    requires s > 1.0 && last <= now
    ensures t > now && Outweighed(s, last, now, t)
    ensures forall u :: now <= u < t ==> !Outweighed(s, last, now, u)
  {
    var gap := now - last;
    var q := gap as real / (s - 1.0);
    assert q * (s - 1.0) == gap as real;
    FirstOvertaking(q, s, gap, last, now);
    now + q.Floor + 1
  }

  lemma FirstOvertaking(q: real, s: real, gap: nat, last: int, now: int)
    requires s > 1.0 && q * (s - 1.0) == gap as real && last + gap == now
    ensures q >= 0.0 && Outweighed(s, last, now, now + q.Floor + 1)
    ensures forall u :: now <= u < now + q.Floor + 1 ==> !Outweighed(s, last, now, u)
  {
    if q < 0.0 {
      StrictProductOrder(q, 0.0, s - 1.0);
    }
    var n := q.Floor + 1;
    Overtakes(q, n as real, s, gap as real);
    assert ((now + n) - last) as real == n as real + gap as real;
    forall u | now <= u < now + n
      ensures !Outweighed(s, last, now, u)
    {
      var k := u - now;
      NotYet(q, k as real, s, gap as real);
      assert (u - last) as real == k as real + gap as real;
    }
  }

  // The decay curve of a memory that is left alone, before the floor is applied.
  function LeftAlone(m: MemoryState, t: int, cfg: Config): real
    requires Decays(m)
  {
    Curve(DaysSince(m.lastAccessedAt, t) / EffectiveRate(m), cfg)
  }

  lemma LeftAloneFalls(m: MemoryState, t: int, u: int, cfg: Config)
    requires GoodMath(cfg) && Decays(m) && t <= u
    ensures LeftAlone(m, u, cfg) <= LeftAlone(m, t, cfg)
  {
    var r := EffectiveRate(m);
    DivisionIsMonotone(DaysSince(m.lastAccessedAt, t), DaysSince(m.lastAccessedAt, u), r, r);
    CurveStrictlyFalls(DaysSince(m.lastAccessedAt, t) / r, DaysSince(m.lastAccessedAt, u) / r, cfg);
  }

  lemma OutweighedInDays(s: real, last: int, now: int, t: int)
    requires last <= now <= t
    ensures Outweighed(s, last, now, t) <==> DaysSince(last, t) < DaysSince(now, t) * s
  {
    var (d, e) := (DaysSince(now, t), DaysSince(last, t));
    assert d * SECONDS_PER_DAY == (t - now) as real && e * SECONDS_PER_DAY == (t - last) as real;
    assert (t - now) as real * s == (d * s) * SECONDS_PER_DAY;
  }

  lemma RateOfCut(m: MemoryState, k: MemoryState)
    requires Decays(m) && m.stability > 1.0 && k.stability == 1.0 && k.rate == m.rate && k.importance == m.importance
    ensures EffectiveRate(k) > 0.0 && EffectiveRate(m) == m.stability * EffectiveRate(k)
  {
    var c := Min(1.0 + m.importance * 2.0, 3.0) * m.rate.days;
    assert EffectiveRate(m) == m.stability * c;
    PositiveFactor(m.stability, c);
    assert EffectiveRate(k) == 1.0 * c;
  }

  lemma CurveOrder(d: real, e: real, s: real, c: real, r: real, cfg: Config)
    requires GoodMath(cfg) && s > 1.0 && c > 0.0 && 0.0 <= d && 0.0 <= e && r == s * c && r > 0.0
    ensures Curve(d / c, cfg) < Curve(e / r, cfg) <==> e < d * s
  {
    CrossRatios(d, e, s, c, r);
    if e < d * s {
      CurveStrictlyFalls(e / r, d / c, cfg);
    } else {
      CurveStrictlyFalls(d / c, e / r, cfg);
    }
  }

  lemma CurvesCross(m: MemoryState, k: MemoryState, cfg: Config, now: int, t: int)
    requires GoodMath(cfg) && Decays(m) && m.stability > 1.0 && m.lastAccessedAt <= now <= t
    requires k == m.(stability := 1.0, lastAccessedAt := now, accessCount := k.accessCount)
    ensures Decays(k)
    ensures LeftAlone(k, t, cfg) < LeftAlone(m, t, cfg) <==> Outweighed(m.stability, m.lastAccessedAt, now, t)
  {
    RateOfCut(m, k);
    OutweighedInDays(m.stability, m.lastAccessedAt, now, t);
    CurveOrder(DaysSince(now, t), DaysSince(m.lastAccessedAt, t), m.stability, EffectiveRate(k), EffectiveRate(m), cfg);
  }

  // With stability above one, an access keeps retention at `t` unless the cut outweighs it above the floor.
  lemma KeptUnlessOutweighed(m: MemoryState, amount: real, now: int, cfg: Config, t: int)
    requires GoodMath(cfg) && GainfulAccess(amount, cfg) && Decays(m) && m.stability > 1.0 && m.lastAccessedAt <= now <= t
    ensures KeptAt(m, amount, now, cfg, t) <==>
            !Outweighed(m.stability, m.lastAccessedAt, now, t) || LeftAlone(m, t, cfg) <= m.floor
  {
    var k := Boosted(m, amount, now, cfg);
    StabilityAfterAccess(m, amount, now, cfg);
    CurvesCross(m, k, cfg, now, t);
    assert ComputeRetention(m, t, cfg) == Max(LeftAlone(m, t, cfg), m.floor);
    assert ComputeRetention(k, t, cfg) == Max(LeftAlone(k, t, cfg), m.floor);
  }

  /**
    The documentation of the boost promises that an access strengthens a memory.  The cap
    `min(1.0)` breaks that for a stability above one, which a client can store: an access keeps
    retention at every later instant if and only if the stability was at most one, or the memory left
    alone is at its floor by the first instant at which the cut outweighs the access.
   */
  lemma AccessKeepsRetentionIff(m: MemoryState, amount: real, now: int, cfg: Config)
    requires GoodMath(cfg) && GainfulAccess(amount, cfg) && Decays(m) && m.lastAccessedAt <= now
    ensures (forall t: int :: t >= now ==> KeptAt(m, amount, now, cfg, t)) <==>
            m.stability <= 1.0 || LeftAlone(m, LateInstant(m.stability, m.lastAccessedAt, now), cfg) <= m.floor
  {
    if m.stability <= 1.0 {
      forall t: int | t >= now
        ensures KeptAt(m, amount, now, cfg, t)
      {
        AccessNeverLowersRetention(m, amount, now, cfg, t);
      }
    } else {
      var late := LateInstant(m.stability, m.lastAccessedAt, now);
      KeptUnlessOutweighed(m, amount, now, cfg, late);
      if LeftAlone(m, late, cfg) <= m.floor {
        forall t: int | t >= now
          ensures KeptAt(m, amount, now, cfg, t)
        {
          KeptUnlessOutweighed(m, amount, now, cfg, t);
          if t >= late {
            LeftAloneFalls(m, late, t, cfg);
          }
        }
      }
    }
  }

  /** A row without a floor is weakened by an access exactly when its stability was above one. */
  lemma WithoutFloorTheCapWeakens(m: MemoryState, amount: real, now: int, cfg: Config)
    requires GoodMath(cfg) && GainfulAccess(amount, cfg) && Decays(m) && m.lastAccessedAt <= now && m.floor <= 0.0
    ensures (forall t: int :: t >= now ==> KeptAt(m, amount, now, cfg, t)) <==> m.stability <= 1.0
  {
    AccessKeepsRetentionIff(m, amount, now, cfg);
    if m.stability > 1.0 {
      var late := LateInstant(m.stability, m.lastAccessedAt, now);
      var r := EffectiveRate(m);
      DivisionIsMonotone(DaysSince(m.lastAccessedAt, late), DaysSince(m.lastAccessedAt, late), r, r);
      CurveStrictlyFalls(DaysSince(m.lastAccessedAt, late) / r, DaysSince(m.lastAccessedAt, late) / r, cfg);
    }
  }

  /** Equation 3 keeps a relevance in [-1, 1] within [-1, 1]. */
  lemma CompositeScoreInRange(m: MemoryState, relevance: real, now: int, cfg: Config)
    requires GoodMath(cfg) && m.floor <= 1.0
    requires m.isStub || m.rate.Infinite? || Decays(m)
    requires -1.0 <= relevance <= 1.0
    ensures -1.0 <= ScoreMemory(m, relevance, now, cfg) <= 1.0
  {
    if !m.isStub {
      RetentionInRange(m, now, cfg);
    }
    var p := cfg.pow(ComputeRetention(m, now, cfg), cfg.scoreExponent);
    assert 0.0 <= p <= 1.0;
    UnitProduct(relevance, p);
  }

  lemma DecayFactors(d: real, d': real, cfg: Config)
    requires GoodExp(cfg.exp) && cfg.tauDays > 0.0 && 0.0 <= d' <= d
    ensures 0.0 < cfg.exp(-d / cfg.tauDays) <= cfg.exp(-d' / cfg.tauDays) <= 1.0
  {
    DivisionIsMonotone(d', d, cfg.tauDays, cfg.tauDays);
    DivisionIsMonotone(0.0, d', cfg.tauDays, cfg.tauDays);
    var (x, x') := (-d / cfg.tauDays, -d' / cfg.tauDays);
    assert x == -(d / cfg.tauDays) && x' == -(d' / cfg.tauDays);
    assert x <= x' <= 0.0;
  }

  /** Read-side edge decay: heavier and fresher edges stay heavier, and decay never adds weight. */
  lemma EdgeDecayIsMonotone(w: real, last: int, w': real, last': int, now: int, cfg: Config)
    requires GoodExp(cfg.exp) && cfg.tauDays > 0.0
    requires 0.0 <= w <= w' && last <= last'
    ensures DecayAssociationWeight(w, last, now, cfg) <= DecayAssociationWeight(w', last', now, cfg)
    ensures 0.0 <= DecayAssociationWeight(w, last, now, cfg) <= w
  {
    var (d, d') := (DaysSince(last, now), DaysSince(last', now));
    DecayFactors(d, d', cfg);
    var (f, f') := (cfg.exp(-d / cfg.tauDays), cfg.exp(-d' / cfg.tauDays));
    ScaledOrder(w, w', f, f');
    assert DecayAssociationWeight(w, last, now, cfg) == w * f;
    assert DecayAssociationWeight(w', last', now, cfg) == w' * f';
  }
}
