/**
  How importance, stability, decay rate and age trade against each other in the retention of a memory, and
  retention against relevance in its score (`compute_retention`, `score_memory`, the boosts).
 */
module DecayLaws {
  import opened RealArith
  import opened Lifecycle
  import opened Tables

  // A memory that decays: no stub, with a positive finite base rate and an importance not below zero.
  predicate Mortal(m: MemoryState) {
    !m.isStub && m.rate.Finite? && m.rate.days > 0.0 && m.importance >= 0.0
  }

  // How many times longer a memory of this importance lasts: from once to three times.
  function ImportanceFactor(importance: real): real {
    1.0 + 2.0 * (if importance < 1.0 then importance else 1.0)
  }

  function StabilityFactor(stability: real): real {
    if stability < 0.01 then 0.01 else stability
  }

  // The memory by which all others are measured: stability one, importance zero, a rate of one day.
  function Standard(m: MemoryState): MemoryState {
    m.(stability := 1.0, importance := 0.0, rate := Finite(1.0))
  }

  /** An age is counted in days of 86400 seconds, and a clock behind the last access counts as age zero. */
  lemma AgeIsInDays(last: int, days: nat, early: int)
    requires early <= last
    ensures DaysSince(last, last + 86400 * days) == days as real && DaysSince(last, early) == 0.0
  {
  }

  // -------------------------------------------------------------------------
  // Scaling
  // -------------------------------------------------------------------------

  lemma Factors(m: MemoryState)
    requires Mortal(m)
    ensures EffectiveRate(m) == StabilityFactor(m.stability) * ImportanceFactor(m.importance) * m.rate.days
    ensures EffectiveRate(m) > 0.0 && StabilityFactor(m.stability) > 0.0 && ImportanceFactor(m.importance) >= 1.0
  {
    var (s, i) := (StabilityFactor(m.stability), ImportanceFactor(m.importance));
    PositiveProduct(s, i);
    PositiveProduct(s * i, m.rate.days);
  }

  lemma SameRatio(d: real, e: real, c: real, r: real)
    requires r > 0.0 && c > 0.0 && d * c == e * r
    ensures d / r == e / c
  {
    var (p, q) := (d / r, e / c);
    assert p * r == d && q * c == e;
    assert (p * r) * c == (q * c) * r;
    assert (p - q) * (r * c) == 0.0;
    PositiveProduct(r, c);
  }

  lemma SameAgeSameRetention(m: MemoryState, k: MemoryState, t: int, u: int, cfg: Config)
    requires Mortal(m) && Mortal(k) && m.floor == k.floor
    requires DaysSince(m.lastAccessedAt, t) * EffectiveRate(k) == DaysSince(k.lastAccessedAt, u) * EffectiveRate(m)
    ensures ComputeRetention(m, t, cfg) == ComputeRetention(k, u, cfg)
  {
    Factors(m);
    Factors(k);
    SameRatio(DaysSince(m.lastAccessedAt, t), DaysSince(k.lastAccessedAt, u), EffectiveRate(k), EffectiveRate(m));
  }

  /**
    Age is measured in units of the memory's strength: a memory of stability s, importance i and base rate b
    is at age s * (1 + 2i) * b * d where the standard memory is at age d; the importance counts up to one,
    and a stability below 0.01 counts as that.
   */
  lemma AgeScalesWithStrength(m: MemoryState, t: int, u: int, cfg: Config)
    requires Mortal(m)
    requires DaysSince(m.lastAccessedAt, t)
             == StabilityFactor(m.stability) * ImportanceFactor(m.importance) * m.rate.days * DaysSince(m.lastAccessedAt, u)
    ensures ComputeRetention(m, t, cfg) == ComputeRetention(Standard(m), u, cfg)
  {
    Factors(m);
    Factors(Standard(m));
    SameAgeSameRetention(m, Standard(m), t, u, cfg);
  }

  /** The standard memory after d days: exp(-d), or (1 + d) to the power of minus gamma, or its floor if that is more. */
  lemma StandardDecay(m: MemoryState, t: int, cfg: Config)
    requires !m.isStub
    ensures var (d, r) := (DaysSince(m.lastAccessedAt, t), ComputeRetention(Standard(m), t, cfg));
            var raw := match cfg.decayModel case Exponential => cfg.exp(-d) case Power => cfg.pow(1.0 + d, -cfg.gamma);
            (r == raw || r == m.floor) && r >= raw && r >= m.floor
  {
    assert EffectiveRate(Standard(m)) == 1.0;
  }

  /** A memory of importance i at age (1 + 2 min(i, 1)) d is where one of importance zero is at age d. */
  lemma ImportanceStretchesAge(m: MemoryState, t: int, u: int, cfg: Config)
    requires Mortal(m)
    requires DaysSince(m.lastAccessedAt, t) == (1.0 + 2.0 * (if m.importance < 1.0 then m.importance else 1.0)) * DaysSince(m.lastAccessedAt, u)
    ensures ComputeRetention(m, t, cfg) == ComputeRetention(m.(importance := 0.0), u, cfg)
  {
    var k := m.(importance := 0.0);
    Factors(m);
    Factors(k);
    var (s, i, b, e) := (StabilityFactor(m.stability), ImportanceFactor(m.importance), m.rate.days, DaysSince(m.lastAccessedAt, u));
    assert EffectiveRate(k) == s * b;
    assert (i * e) * (s * b) == e * (s * i * b);
    SameAgeSameRetention(m, k, t, u, cfg);
  }

  /** A memory of stability s at age s * d is where one of stability one is at age d. */
  lemma StabilityStretchesAge(m: MemoryState, t: int, u: int, cfg: Config)
    requires Mortal(m)
    requires DaysSince(m.lastAccessedAt, t) == (if m.stability < 0.01 then 0.01 else m.stability) * DaysSince(m.lastAccessedAt, u)
    ensures ComputeRetention(m, t, cfg) == ComputeRetention(m.(stability := 1.0), u, cfg)
  {
    var k := m.(stability := 1.0);
    Factors(m);
    Factors(k);
    var (s, i, b, e) := (StabilityFactor(m.stability), ImportanceFactor(m.importance), m.rate.days, DaysSince(m.lastAccessedAt, u));
    assert EffectiveRate(k) == i * b;
    assert (s * e) * (i * b) == e * (s * i * b);
    SameAgeSameRetention(m, k, t, u, cfg);
  }

  /** A memory of a base rate of b days at age b * d is where one of a rate of one day is at age d. */
  lemma RateStretchesAge(m: MemoryState, t: int, u: int, cfg: Config)
    requires Mortal(m) && DaysSince(m.lastAccessedAt, t) == m.rate.days * DaysSince(m.lastAccessedAt, u)
    ensures ComputeRetention(m, t, cfg) == ComputeRetention(m.(rate := Finite(1.0)), u, cfg)
  {
    var k := m.(rate := Finite(1.0));
    Factors(m);
    Factors(k);
    var (c, b, e) := (StabilityFactor(m.stability) * ImportanceFactor(m.importance), m.rate.days, DaysSince(m.lastAccessedAt, u));
    assert EffectiveRate(k) == c;
    assert (b * e) * c == e * (c * b);
    SameAgeSameRetention(m, k, t, u, cfg);
  }

  // -------------------------------------------------------------------------
  // Order
  // -------------------------------------------------------------------------

  // `k` retains more than `m` at `t`, unless the floor hides it; both retain all at age zero.
  ghost predicate LastsLonger(m: MemoryState, k: MemoryState, t: int, cfg: Config) {
    && ComputeRetention(m, t, cfg) <= ComputeRetention(k, t, cfg)
    && (t > m.lastAccessedAt && ComputeRetention(k, t, cfg) > k.floor ==> ComputeRetention(m, t, cfg) < ComputeRetention(k, t, cfg))
  }

  lemma HigherRateLastsLonger(m: MemoryState, k: MemoryState, t: int, cfg: Config)
    requires GoodMath(cfg) && Mortal(m) && Mortal(k) && k.floor == m.floor && k.lastAccessedAt == m.lastAccessedAt
    requires EffectiveRate(m) < EffectiveRate(k)
    ensures LastsLonger(m, k, t, cfg)
  {
    Factors(m);
    Factors(k);
    var (d, r, r') := (DaysSince(m.lastAccessedAt, t), EffectiveRate(m), EffectiveRate(k));
    DivisionIsMonotone(d, d, r, r');
    if d > 0.0 {
      SmallerQuotient(d, r, r');
    }
    CurveStrictlyFalls(d / r', d / r, cfg);
  }

  lemma SmallerQuotient(d: real, r: real, r': real)
    requires d > 0.0 && 0.0 < r < r'
    ensures d / r' < d / r
  {
    var (p, q) := (d / r', d / r);
    assert p * r' == d && q * r == d;
    PositiveQuotient(d, r');
    StrictProductOrder(r, r', p);
    if q <= p {
      ProductOrder(q, p, r);
    }
  }

  lemma PositiveQuotient(d: real, r: real)
    requires d > 0.0 && r > 0.0
    ensures d / r > 0.0
  {
    var p := d / r;
    assert p * r == d;
    if p <= 0.0 {
      ProductOrder(p, 0.0, r);
    }
  }

  lemma RateTimes(c: real, b: real, b': real, r: real, r': real)
    requires c > 0.0 && b < b' && r == c * b && r' == c * b'
    ensures r < r'
  {
    StrictProductOrder(b, b', c);
  }

  /** Raising the importance towards one slows decay wherever the memory is older than zero and above its floor. */
  lemma ImportanceSlowsDecay(m: MemoryState, importance: real, t: int, cfg: Config)
    requires GoodMath(cfg) && Mortal(m) && m.importance < importance <= 1.0
    ensures LastsLonger(m, m.(importance := importance), t, cfg)
  {
    var k := m.(importance := importance);
    Factors(m);
    Factors(k);
    PositiveProduct(StabilityFactor(m.stability), m.rate.days);
    RateTimes(StabilityFactor(m.stability) * m.rate.days, ImportanceFactor(m.importance), ImportanceFactor(importance),
              EffectiveRate(m), EffectiveRate(k));
    HigherRateLastsLonger(m, k, t, cfg);
  }

  /** Above one the importance makes no difference. */
  lemma ImportanceIsCapped(m: MemoryState, t: int, cfg: Config)
    requires m.importance >= 1.0
    ensures ComputeRetention(m, t, cfg) == ComputeRetention(m.(importance := 1.0), t, cfg)
  {
    if m.rate.Finite? {
      assert EffectiveRate(m) == EffectiveRate(m.(importance := 1.0)) by {
        assert Min(1.0 + m.importance * 2.0, 3.0) == 3.0 == Min(1.0 + 1.0 * 2.0, 3.0);
      }
    }
  }

  /** Raising the stability beyond 0.01 slows decay in the same way. */
  lemma StabilitySlowsDecay(m: MemoryState, stability: real, t: int, cfg: Config)
    requires GoodMath(cfg) && Mortal(m) && m.stability < stability && 0.01 < stability
    ensures LastsLonger(m, m.(stability := stability), t, cfg)
  {
    var k := m.(stability := stability);
    Factors(m);
    Factors(k);
    PositiveProduct(ImportanceFactor(m.importance), m.rate.days);
    RateTimes(ImportanceFactor(m.importance) * m.rate.days, StabilityFactor(m.stability), StabilityFactor(stability),
              EffectiveRate(m), EffectiveRate(k));
    HigherRateLastsLonger(m, k, t, cfg);
  }

  /** So does a longer base rate. */
  lemma RateSlowsDecay(m: MemoryState, days: real, t: int, cfg: Config)
    requires GoodMath(cfg) && Mortal(m) && m.rate.days < days
    ensures LastsLonger(m, m.(rate := Finite(days)), t, cfg)
  {
    var k := m.(rate := Finite(days));
    Factors(m);
    Factors(k);
    PositiveProduct(StabilityFactor(m.stability), ImportanceFactor(m.importance));
    RateTimes(StabilityFactor(m.stability) * ImportanceFactor(m.importance), m.rate.days, days, EffectiveRate(m), EffectiveRate(k));
    HigherRateLastsLonger(m, k, t, cfg);
  }

  /** Procedural memories never decay, and stubs retain nothing. */
  lemma ExtremesOfDecay(m: MemoryState, t: int, cfg: Config)
    ensures m.isStub ==> ComputeRetention(m, t, cfg) == 0.0
    ensures !m.isStub && m.rate.Infinite? ==> ComputeRetention(m, t, cfg) == 1.0
  {
  }

  lemma QuotientOf(d: real, k: real, n: real)
    requires n > 0.0
    ensures d == k * n ==> d / n == k
    ensures d >= k * n ==> d / n >= k
  {
    var q := d / n;
    assert q * n == d;
    if q < k {
      StrictProductOrder(q, k, n);
    }
    if k < q {
      StrictProductOrder(k, q, n);
    }
  }

  // -------------------------------------------------------------------------
  // Rows
  // -------------------------------------------------------------------------

  // The base rate of a row's category in days; an unknown category decays like a semantic one.
  predicate BaseRate(r: Row, cfg: Config, days: real) {
    if r.category in cfg.baseRates then cfg.baseRates[r.category] == Finite(days) else days == 120.0
  }

  // The age of the row at `t` in units of its own strength.
  ghost predicate OwnAge(r: Row, cfg: Config, t: int, age: real) {
    exists days :: BaseRate(r, cfg, days) && days > 0.0
      && DaysSince(r.lastAccessedAt, t) == StabilityFactor(r.stability) * ImportanceFactor(r.importance) * days * age
  }

  /** A stored row decays by its own columns: at age x in units of its strength it retains exp(-x), or the power law, or its floor. */
  lemma RowsDecayByTheirColumns(r: Row, t: int, age: real, cfg: Config)
    requires !r.isStub && r.importance >= 0.0 && age >= 0.0 && OwnAge(r, cfg, t, age)
    ensures var (raw, x) := (match cfg.decayModel case Exponential => cfg.exp(-age) case Power => cfg.pow(1.0 + age, -cfg.gamma),
                             Retention(r, t, cfg));
            (x == raw || x == r.floor) && x >= raw && x >= r.floor
  {
    var days :| BaseRate(r, cfg, days) && days > 0.0
      && DaysSince(r.lastAccessedAt, t) == StabilityFactor(r.stability) * ImportanceFactor(r.importance) * days * age;
    var m := StateOf(r, cfg);
    assert m.rate == Finite(days);
    Factors(m);
    QuotientOf(DaysSince(r.lastAccessedAt, t), age, EffectiveRate(m));
  }

  /** A stub retains nothing, and a row of a category that never decays retains all. */
  lemma RowsAtTheExtremes(r: Row, t: int, cfg: Config)
    ensures r.isStub ==> Retention(r, t, cfg) == 0.0
    ensures !r.isStub && r.category in cfg.baseRates && cfg.baseRates[r.category].Infinite? ==> Retention(r, t, cfg) == 1.0
  {
  }

  // -------------------------------------------------------------------------
  // Scores
  // -------------------------------------------------------------------------

  ghost predicate GrowingPow(pow: (real, real) -> real) {
    forall x: real, y: real, e: real :: 0.0 < x < y && e > 0.0 ==> pow(x, e) < pow(y, e)
  }

  // The exponents `a` and `b` add up, and exponent one changes nothing.
  ghost predicate AdditivePow(pow: (real, real) -> real, a: real, b: real) {
    forall x: real :: x > 0.0 ==> pow(x, 1.0) == x && pow(x, a + b) == pow(x, a) * pow(x, b)
  }

  /** Between equally relevant memories the one that retains more scores higher. */
  lemma RetentionRanks(m: MemoryState, k: MemoryState, relevance: real, t: int, cfg: Config)
    requires GrowingPow(cfg.pow) && cfg.scoreExponent > 0.0 && relevance > 0.0
    requires 0.0 < ComputeRetention(m, t, cfg) < ComputeRetention(k, t, cfg)
    ensures ScoreMemory(m, relevance, t, cfg) < ScoreMemory(k, relevance, t, cfg)
  {
    StrictProductOrder(cfg.pow(ComputeRetention(m, t, cfg), cfg.scoreExponent),
                       cfg.pow(ComputeRetention(k, t, cfg), cfg.scoreExponent), relevance);
  }

  /** A score is linear in the relevance, and full retention leaves the relevance as it is. */
  lemma RelevanceScales(m: MemoryState, relevance: real, factor: real, t: int, cfg: Config)
    requires GoodPow(cfg.pow)
    ensures ScoreMemory(m, factor * relevance, t, cfg) == factor * ScoreMemory(m, relevance, t, cfg)
    ensures ComputeRetention(m, t, cfg) == 1.0 ==> ScoreMemory(m, relevance, t, cfg) == relevance
  {
  }

  /** With exponent one the score is relevance times retention, and scoring with a, then with b, is scoring with a + b. */
  lemma ExponentsAdd(m: MemoryState, relevance: real, a: real, b: real, t: int, cfg: Config)
    requires AdditivePow(cfg.pow, a, b) && ComputeRetention(m, t, cfg) > 0.0
    ensures ScoreMemory(m, relevance, t, cfg.(scoreExponent := 1.0)) == relevance * ComputeRetention(m, t, cfg)
    ensures ScoreMemory(m, ScoreMemory(m, relevance, t, cfg.(scoreExponent := a)), t, cfg.(scoreExponent := b))
         == ScoreMemory(m, relevance, t, cfg.(scoreExponent := a + b))
  {
    var r := ComputeRetention(m, t, cfg);
    RetentionHasNoExponent(m, t, cfg, 1.0);
    RetentionHasNoExponent(m, t, cfg, a);
    RetentionHasNoExponent(m, t, cfg, b);
    RetentionHasNoExponent(m, t, cfg, a + b);
    Regroup(relevance, cfg.pow(r, a), cfg.pow(r, b), cfg.pow(r, a + b));
  }

  lemma RetentionHasNoExponent(m: MemoryState, t: int, cfg: Config, e: real)
    ensures ComputeRetention(m, t, cfg.(scoreExponent := e)) == ComputeRetention(m, t, cfg)
  {
  }

  lemma Regroup(x: real, y: real, z: real, yz: real)
    requires yz == y * z
    ensures (x * y) * z == x * yz
  {
  }

  // -------------------------------------------------------------------------
  // Boosts and links
  // -------------------------------------------------------------------------

  /**
    Accesses that are spaced pay: k intervals after the last one an access adds k times the amount, up to
    the largest multiplier, and never takes the stability above one; one that comes at once adds nothing.
   */
  lemma SpacedAccessesPay(m: MemoryState, amount: real, k: real, now: int, cfg: Config)
    requires cfg.intervalDays > 0.0 && 0.0 <= k <= cfg.maxMultiplier
    ensures DaysSince(m.lastAccessedAt, now) == k * cfg.intervalDays ==>
      Boosted(m, amount, now, cfg).stability == (if m.stability + amount * k < 1.0 then m.stability + amount * k else 1.0)
    ensures k == cfg.maxMultiplier && DaysSince(m.lastAccessedAt, now) >= k * cfg.intervalDays ==>
      Boosted(m, amount, now, cfg).stability == (if m.stability + amount * k < 1.0 then m.stability + amount * k else 1.0)
    ensures now <= m.lastAccessedAt && m.stability <= 1.0 ==> Boosted(m, amount, now, cfg).stability == m.stability
  {
    QuotientOf(DaysSince(m.lastAccessedAt, now), k, cfg.intervalDays);
    QuotientOf(DaysSince(m.lastAccessedAt, now), 0.0, cfg.intervalDays);
  }

  /** After k time constants a link keeps exp(-k) of its weight, and strictly less the longer it rests. */
  lemma LinksFade(w: real, last: int, k: real, t: int, u: int, cfg: Config)
    requires GoodExp(cfg.exp) && cfg.tauDays > 0.0 && w > 0.0
    ensures DaysSince(last, t) == k * cfg.tauDays ==> DecayAssociationWeight(w, last, t, cfg) == w * cfg.exp(-k)
    ensures t <= last ==> DecayAssociationWeight(w, last, t, cfg) == w
    ensures last <= t < u ==> DecayAssociationWeight(w, last, u, cfg) < DecayAssociationWeight(w, last, t, cfg)
  {
    Exponents(DaysSince(last, t), 0.0, k, cfg.tauDays);
    if last <= t < u {
      RestedLonger(w, last, t, u, cfg);
    }
  }

  lemma RestedLonger(w: real, last: int, t: int, u: int, cfg: Config)
    requires GoodExp(cfg.exp) && cfg.tauDays > 0.0 && w > 0.0 && last <= t < u
    ensures DecayAssociationWeight(w, last, u, cfg) < DecayAssociationWeight(w, last, t, cfg)
  {
    Exponents(DaysSince(last, t), DaysSince(last, u), 0.0, cfg.tauDays);
    StrictProductOrder(cfg.exp(-DaysSince(last, u) / cfg.tauDays), cfg.exp(-DaysSince(last, t) / cfg.tauDays), w);
  }

  lemma Exponents(d: real, e: real, k: real, tau: real)
    requires tau > 0.0 && d >= 0.0 && e >= 0.0
    ensures d == k * tau ==> -d / tau == -k
    ensures d == 0.0 ==> -d / tau == 0.0
    ensures d < e ==> -e / tau < -d / tau
  {
    QuotientOf(-d, -k, tau);
    QuotientOf(-d, 0.0, tau);
    var (x, y) := (-d / tau, -e / tau);
    assert x * tau == -d && y * tau == -e;
    if d < e && x <= y {
      ProductOrder(x, y, tau);
    }
  }
}
