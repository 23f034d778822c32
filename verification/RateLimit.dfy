/**
  The token bucket in front of the LLM (`crates/llm/src/rate_limit.rs`).  Instants are reals, in seconds.

  A refused call asks for the wait `needed / refill_per_second` as a duration while it holds the lock.
  If that is no duration, because the refill is not positive or the wait exceeds `maxWait`, the longest
  duration there is, the call panics, the lock is poisoned, and every later call takes the failing lock
  for a grant.
 */
module RateLimit {
  import opened RealArith

  datatype Bucket = Bucket(tokens: real, lastRefill: real, poisoned: bool)

  datatype Limits = Limits(capacity: real, refill: real, maxWait: real)

  datatype Attempt = Granted | Wait(seconds: real) | Panicked

  // What a bucket earns between two instants; time never runs backwards.
  function Earned(l: Limits, from: real, to: real): real {
    Refill(l, if to > from then to - from else 0.0)
  }

  function Refill(l: Limits, span: real): real {
    span * l.refill
  }

  function Refilled(b: Bucket, l: Limits, now: real): real {
    var t := b.tokens + Earned(l, b.lastRefill, now);
    if t < l.capacity then t else l.capacity
  }

  predicate Grants(b: Bucket, l: Limits, now: real) {
    b.poisoned || Refilled(b, l, now) >= 1.0
  }

  function AdvisedWait(b: Bucket, l: Limits, now: real): real
    requires l.refill > 0.0
  {
    (1.0 - Refilled(b, l, now)) / l.refill
  }

  predicate Panics(b: Bucket, l: Limits, now: real) {
    !Grants(b, l, now) && (l.refill <= 0.0 || AdvisedWait(b, l, now) > l.maxWait)
  }

  function Answer(b: Bucket, l: Limits, now: real): Attempt {
    if Grants(b, l, now) then Granted
    else if Panics(b, l, now) then Panicked
    else Wait(AdvisedWait(b, l, now))
  }

  function AfterTry(b: Bucket, l: Limits, now: real): Bucket {
    if b.poisoned then b
    else if Grants(b, l, now) then Bucket(Refilled(b, l, now) - 1.0, now, false)
    else Bucket(Refilled(b, l, now), now, Panics(b, l, now))
  }

  function After(b: Bucket, l: Limits, times: seq<real>): Bucket {
    if times == [] then b else AfterTry(After(b, l, times[..|times| - 1]), l, times[|times| - 1])
  }

  // One sleep of a waiting caller: how much too long it was, and the calls of others during it.
  datatype Nap = Nap(oversleep: real, rivals: seq<real>)

  // The bucket and the instant at which a caller that keeps waiting makes its next try.
  function Turn(b: Bucket, l: Limits, now: real, naps: seq<Nap>): (Bucket, real) {
    if naps == [] then (b, now)
    else
      var nap := naps[|naps| - 1];
      var (c, t) := Turn(b, l, now, naps[..|naps| - 1]);
      var wait := match Answer(c, l, t) case Wait(s) => s case _ => 0.0;
      (After(AfterTry(c, l, t), l, nap.rivals), t + wait + nap.oversleep)
  }

  function TryAt(b: Bucket, l: Limits, now: real, naps: seq<Nap>): Attempt {
    var (c, t) := Turn(b, l, now, naps);
    Answer(c, l, t)
  }

  class TokenBucket {
    const limits: Limits
    var state: Bucket

    constructor (limits: Limits, now: real)
      ensures this.limits == limits && state == Bucket(limits.capacity, now, false)
    {
      this.limits := limits;
      state := Bucket(limits.capacity, now, false);
    }

    method TryConsumeOne(now: real) returns (attempt: Attempt)
      modifies this
      ensures state == AfterTry(old(state), limits, now)
      ensures attempt == Answer(old(state), limits, now)
    {
      if state.poisoned {
        return Granted;
      }
      var elapsed := if now > state.lastRefill then now - state.lastRefill else 0.0;
      var tokens := state.tokens + elapsed * limits.refill;
      state := Bucket(if tokens < limits.capacity then tokens else limits.capacity, now, false);
      if state.tokens >= 1.0 {
        state := state.(tokens := state.tokens - 1.0);
        return Granted;
      }
      var needed := 1.0 - state.tokens;
      if limits.refill <= 0.0 || needed / limits.refill > limits.maxWait {
        state := state.(poisoned := true);
        return Panicked;
      }
      attempt := Wait(needed / limits.refill);
    }

    method RivalCalls(times: seq<real>)
      modifies this
      ensures state == After(old(state), limits, times)
    {
      for k := 0 to |times|
        invariant state == After(old(state), limits, times[..k])
      {
        assert times[..k + 1][..k] == times[..k];
        var _ := TryConsumeOne(times[k]);
      }
      assert times[..|times|] == times;
    }

    /**
      The loop of `acquire`, while others call during its sleeps: it tries until it is granted or panics,
      each time after the advised wait, or is still waiting when `naps` runs out.
     */
    method Acquire(now: real, naps: seq<Nap>) returns (attempt: Attempt, tries: nat)
      modifies this
      ensures tries <= |naps| && attempt == TryAt(old(state), limits, now, naps[..tries])
      ensures forall j :: 0 <= j < tries ==> TryAt(old(state), limits, now, naps[..j]).Wait?
      ensures attempt.Wait? ==> tries == |naps|
      ensures var (c, t) := Turn(old(state), limits, now, naps[..tries]); state == AfterTry(c, limits, t)
    {
      ghost var start := state;
      var t := now;
      tries := 0;
      attempt := TryConsumeOne(t);
      while attempt.Wait? && tries < |naps|
        invariant tries <= |naps| && attempt == TryAt(start, limits, now, naps[..tries])
        invariant forall j :: 0 <= j < tries ==> TryAt(start, limits, now, naps[..j]).Wait?
        invariant Turn(start, limits, now, naps[..tries]).1 == t
        invariant state == AfterTry(Turn(start, limits, now, naps[..tries]).0, limits, t)
        decreases |naps| - tries
      {
        assert naps[..tries + 1][..tries] == naps[..tries];
        RivalCalls(naps[tries].rivals);
        t := t + attempt.seconds + naps[tries].oversleep;
        attempt := TryConsumeOne(t);
        tries := tries + 1;
      }
    }
  }

  // -------------------------------------------------------------------------
  // Any sequence of calls at non-decreasing times
  // -------------------------------------------------------------------------

  predicate InBounds(b: Bucket, l: Limits) {
    0.0 <= b.tokens <= l.capacity
  }

  ghost predicate Ordered(b: Bucket, times: seq<real>) {
    && (times != [] ==> b.lastRefill <= times[0])
    && forall i, j :: 0 <= i < j < |times| ==> times[i] <= times[j]
  }

  function GrantCount(b: Bucket, l: Limits, times: seq<real>): nat {
    if times == [] then 0
    else
      var front := times[..|times| - 1];
      GrantCount(b, l, front) + if Grants(After(b, l, front), l, times[|times| - 1]) then 1 else 0
  }

  // The most a call can lack: a whole token, or in a bucket that never holds one, what it always lacks.
  function LargestNeed(l: Limits): real {
    if l.capacity >= 1.0 then 1.0 else 1.0 - l.capacity
  }

  // Every wait the bucket can advise is a duration.
  predicate WaitsFit(l: Limits) {
    l.refill > 0.0 && LargestNeed(l) / l.refill <= l.maxWait
  }

  predicate Intact(b: Bucket, l: Limits) {
    !b.poisoned && InBounds(b, l) && (l.capacity < 1.0 ==> b.tokens == l.capacity)
  }

  lemma EarnedIsNonNegative(l: Limits, from: real, to: real)
    requires l.refill >= 0.0
    ensures Earned(l, from, to) >= 0.0
  {
    NonNegativeProduct(if to > from then to - from else 0.0, l.refill);
  }

  lemma TryKeepsBounds(b: Bucket, l: Limits, now: real)
    requires InBounds(b, l) && l.refill >= 0.0
    ensures InBounds(AfterTry(b, l, now), l)
  {
    EarnedIsNonNegative(l, b.lastRefill, now);
  }

  /** The tokens stay between zero and the capacity. */
  lemma {:induction false} TokensStayInBounds(b: Bucket, l: Limits, times: seq<real>)
    requires InBounds(b, l) && l.refill >= 0.0
    ensures InBounds(After(b, l, times), l)
  {
    if times != [] {
      TokensStayInBounds(b, l, times[..|times| - 1]);
      TryKeepsBounds(After(b, l, times[..|times| - 1]), l, times[|times| - 1]);
    }
  }

  lemma TryKeepsIntact(b: Bucket, l: Limits, now: real)
    requires Intact(b, l) && WaitsFit(l)
    ensures Intact(AfterTry(b, l, now), l) && !Panics(b, l, now) && AfterTry(b, l, now).lastRefill == now
    ensures l.capacity < 1.0 ==> !Grants(b, l, now)
  {
    EarnedIsNonNegative(l, b.lastRefill, now);
    if !Grants(b, l, now) {
      DivisionIsMonotone(1.0 - Refilled(b, l, now), LargestNeed(l), l.refill, l.refill);
    }
  }

  /** While every wait fits, no call panics. */
  lemma {:induction false} StaysIntact(b: Bucket, l: Limits, times: seq<real>)
    requires Intact(b, l) && WaitsFit(l)
    ensures Intact(After(b, l, times), l)
    ensures times != [] ==> After(b, l, times).lastRefill == times[|times| - 1]
  {
    if times != [] {
      StaysIntact(b, l, times[..|times| - 1]);
      TryKeepsIntact(After(b, l, times[..|times| - 1]), l, times[|times| - 1]);
    }
  }

  // -------------------------------------------------------------------------
  // The bound
  // -------------------------------------------------------------------------

  // What was granted plus what is left.
  function Spent(b: Bucket, l: Limits, times: seq<real>): real {
    GrantCount(b, l, times) as real + After(b, l, times).tokens
  }

  // The refill earned between the first and the last call.
  function Income(l: Limits, times: seq<real>): real {
    if |times| <= 1 then 0.0
    else Income(l, times[..|times| - 1]) + Earned(l, times[|times| - 2], times[|times| - 1])
  }

  lemma NoTimeNoIncome(l: Limits)
    ensures Refill(l, 0.0) == 0.0
  {
  }

  lemma SpansAdd(l: Limits, a: real, b: real)
    ensures Refill(l, a + b) == Refill(l, a) + Refill(l, b)
  {
  }

  lemma {:induction false} IncomeIsElapsed(l: Limits, times: seq<real>)
    requires times != [] && forall i, j :: 0 <= i < j < |times| ==> times[i] <= times[j]
    ensures Income(l, times) == Refill(l, times[|times| - 1] - times[0])
  {
    var n := |times| - 1;
    if n == 0 {
      NoTimeNoIncome(l);
      assert times[n] - times[0] == 0.0;
    } else {
      IncomeIsElapsed(l, times[..n]);
      IncomeStep(l, Income(l, times[..n]), times[0], times[n - 1], times[n]);
    }
  }

  lemma IncomeStep(l: Limits, income: real, first: real, last: real, now: real)
    requires income == Refill(l, last - first) && last <= now
    ensures income + Earned(l, last, now) == Refill(l, now - first)
  {
    SpansAdd(l, last - first, now - last);
    assert (last - first) + (now - last) == now - first;
    assert (if now > last then now - last else 0.0) == now - last;
  }

  // One more call spends at most what there was plus what was earned since the last call.
  lemma SpendStep(b: Bucket, l: Limits, now: real)
    requires !b.poisoned
    ensures (if Grants(b, l, now) then 1.0 else 0.0) + AfterTry(b, l, now).tokens <= b.tokens + Earned(l, b.lastRefill, now)
    ensures (if Grants(b, l, now) then 1.0 else 0.0) + AfterTry(b, l, now).tokens <= l.capacity
  {
  }

  // What is spent never exceeds what was there at the first call plus the income since.
  lemma {:induction false} Accounting(b: Bucket, l: Limits, times: seq<real>)
    requires Intact(b, l) && WaitsFit(l) && times != []
    ensures Spent(b, l, times) <= l.capacity + Income(l, times)
  {
    var n := |times| - 1;
    StaysIntact(b, l, times[..n]);
    SpendStep(After(b, l, times[..n]), l, times[n]);
    if n == 0 {
      assert GrantCount(b, l, times[..0]) == 0;
    } else {
      Accounting(b, l, times[..n]);
    }
  }

  ghost predicate Bounded(b: Bucket, l: Limits, window: seq<real>)
    requires window != []
  {
    GrantCount(b, l, window) as real <= l.capacity + Refill(l, window[|window| - 1] - window[0])
  }

  /** At most capacity + refill * T requests are granted by any calls that span a time of length T. */
  lemma GrantsAreBounded(b: Bucket, l: Limits, times: seq<real>)
    requires Intact(b, l) && WaitsFit(l) && Ordered(b, times) && times != []
    ensures Bounded(b, l, times)
  {
    Accounting(b, l, times);
    IncomeIsElapsed(l, times);
    StaysIntact(b, l, times);
  }

  // -------------------------------------------------------------------------
  // A burst
  // -------------------------------------------------------------------------

  function AllAt(now: real, n: nat): seq<real> {
    seq(n, i => now)
  }

  lemma RefillAt(b: Bucket, l: Limits, now: real)
    requires b.lastRefill <= now
    ensures Refilled(b, l, now) == (if b.tokens + (now - b.lastRefill) * l.refill < l.capacity
                                    then b.tokens + (now - b.lastRefill) * l.refill else l.capacity)
    ensures now == b.lastRefill && b.tokens <= l.capacity ==> Refilled(b, l, now) == b.tokens
  {
    NoTimeNoIncome(l);
  }

  // The bucket after `n` calls at one instant at which it held `held` tokens.
  ghost predicate BurstTo(b: Bucket, l: Limits, now: real, n: nat, held: real) {
    && GrantCount(b, l, AllAt(now, n)) == (if n as real <= held then n else held.Floor)
    && (if n == 0 then Refilled(b, l, now) == held
        else After(b, l, AllAt(now, n)).lastRefill == now
             && After(b, l, AllAt(now, n)).tokens == held - GrantCount(b, l, AllAt(now, n)) as real)
  }

  lemma OneCallMore(b: Bucket, l: Limits, now: real, n: nat, held: real)
    requires Intact(b, l) && WaitsFit(l) && BurstTo(b, l, now, n, held) && held >= 0.0
    ensures BurstTo(b, l, now, n + 1, held)
  {
    var (front, count) := (AllAt(now, n), GrantCount(b, l, AllAt(now, n)));
    assert AllAt(now, n + 1)[..n] == front;
    StaysIntact(b, l, front);
    var c := After(b, l, front);
    if n > 0 {
      RefillAt(c, l, now);
    }
    assert Refilled(c, l, now) == held - count as real;
    TryKeepsIntact(c, l, now);
  }

  lemma {:induction false} BurstsCount(b: Bucket, l: Limits, now: real, n: nat)
    requires Intact(b, l) && WaitsFit(l) && Refilled(b, l, now) >= 0.0
    ensures BurstTo(b, l, now, n, Refilled(b, l, now))
  {
    if n > 0 {
      BurstsCount(b, l, now, n - 1);
      OneCallMore(b, l, now, n - 1, Refilled(b, l, now));
    }
  }

  /**
    A burst of calls at one instant gets exactly as many grants as the bucket holds whole tokens: what it held
    when it was last touched, plus the refill since, at most the capacity.
   */
  lemma BurstIsGrantedExactly(b: Bucket, l: Limits, now: real, n: nat)
    requires Intact(b, l) && WaitsFit(l) && b.lastRefill <= now
    ensures var t := b.tokens + (now - b.lastRefill) * l.refill;
            var whole := (if t < l.capacity then t else l.capacity).Floor;
            GrantCount(b, l, AllAt(now, n)) == if n <= whole then n else whole
  {
    RefillAt(b, l, now);
    EarnedIsNonNegative(l, b.lastRefill, now);
    BurstsCount(b, l, now, n);
  }

  // -------------------------------------------------------------------------
  // Where the bound holds
  // -------------------------------------------------------------------------

  ghost predicate Full(start: Bucket, l: Limits) {
    !start.poisoned && start.tokens == l.capacity >= 0.0
  }

  lemma SuffixIsOrdered(start: Bucket, before: seq<real>, window: seq<real>, b: Bucket)
    requires Ordered(start, before + window) && window != []
    requires b.lastRefill == if before == [] then start.lastRefill else before[|before| - 1]
    ensures Ordered(b, window)
  {
    var all := before + window;
    assert forall i :: 0 <= i < |window| ==> all[|before| + i] == window[i];
    if before == [] {
      assert all == window;
    } else {
      assert all[|before| - 1] == before[|before| - 1] && all[|before|] == window[0];
    }
    forall i, j | 0 <= i < j < |window|
      ensures window[i] <= window[j]
    {
      assert all[|before| + i] <= all[|before| + j];
    }
  }

  /** The bound holds in every window of a longer sequence of calls: `before` have happened, `window` follow. */
  lemma EveryWindowIsBounded(start: Bucket, l: Limits, before: seq<real>, window: seq<real>)
    requires Full(start, l) && WaitsFit(l) && Ordered(start, before + window) && window != []
    ensures Bounded(After(start, l, before), l, window)
  {
    StaysIntact(start, l, before);
    SuffixIsOrdered(start, before, window, After(start, l, before));
    GrantsAreBounded(After(start, l, before), l, window);
  }

  // -------------------------------------------------------------------------
  // Where a wait does not fit
  // -------------------------------------------------------------------------

  function Burst(n: nat, t: real): (times: seq<real>)
    ensures |times| == n && forall i :: 0 <= i < n ==> times[i] == t
  {
    seq(n, i => t)
  }

  // `n` calls at one instant take `n` tokens, if there are that many.
  lemma {:induction false} BurstDrains(b: Bucket, l: Limits, n: nat)
    requires !b.poisoned && b.tokens <= l.capacity && n as real <= b.tokens
    ensures After(b, l, Burst(n, b.lastRefill)) == b.(tokens := b.tokens - n as real)
  {
    if n > 0 {
      BurstDrains(b, l, n - 1);
      assert Burst(n, b.lastRefill)[..n - 1] == Burst(n - 1, b.lastRefill);
      NoTimeNoIncome(l);
    }
  }

  lemma AfterOneMore(b: Bucket, l: Limits, times: seq<real>, t: real)
    ensures After(b, l, times + [t]) == AfterTry(After(b, l, times), l, t)
  {
    assert (times + [t])[..|times|] == times;
  }

  // From a full bucket some calls poison the lock, if the refill is not positive ...
  lemma NoRefillPoisons(start: Bucket, l: Limits) returns (times: seq<real>)
    requires Full(start, l) && l.refill <= 0.0
    ensures times != [] && Ordered(start, times) && After(start, l, times).poisoned
  {
    var (n, t) := (l.capacity.Floor, start.lastRefill);
    BurstDrains(start, l, n);
    AfterOneMore(start, l, Burst(n, t), t);
    NoTimeNoIncome(l);
    times := Burst(n, t) + [t];
  }

  // ... or too small for what a bucket below one token always lacks ...
  lemma SmallBucketPoisons(start: Bucket, l: Limits) returns (times: seq<real>)
    requires Full(start, l) && l.refill > 0.0 && l.capacity < 1.0 && !WaitsFit(l)
    ensures times != [] && Ordered(start, times) && After(start, l, times).poisoned
  {
    times := [start.lastRefill];
    AfterOneMore(start, l, [], start.lastRefill);
    NoTimeNoIncome(l);
    assert [] + times == times && Refilled(start, l, start.lastRefill) == l.capacity;
  }

  // When exactly one token has been earned, a call takes it and the next one at that instant lacks a whole one.
  lemma EmptiedThenPoisoned(b: Bucket, l: Limits) returns (t: real)
    requires !b.poisoned && 0.0 <= b.tokens < 1.0 <= l.capacity && l.refill > 0.0 && 1.0 / l.refill > l.maxWait
    ensures t >= b.lastRefill && AfterTry(AfterTry(b, l, t), l, t).poisoned
  {
    var wait := (1.0 - b.tokens) / l.refill;
    assert wait * l.refill == 1.0 - b.tokens;
    assert wait > 0.0 by {
      if wait <= 0.0 {
        NonNegativeProduct(-wait, l.refill);
      }
    }
    t := b.lastRefill + wait;
    assert t - b.lastRefill == wait;
    assert Refilled(b, l, t) == 1.0;
    NoTimeNoIncome(l);
    assert Refilled(AfterTry(b, l, t), l, t) == 0.0;
  }

  // ... or too small for a whole token.
  lemma SlowRefillPoisons(start: Bucket, l: Limits) returns (times: seq<real>)
    requires Full(start, l) && l.refill > 0.0 && l.capacity >= 1.0 && !WaitsFit(l)
    ensures times != [] && Ordered(start, times) && After(start, l, times).poisoned
  {
    var n := l.capacity.Floor;
    BurstDrains(start, l, n);
    var drained := Burst(n, start.lastRefill);
    var t := EmptiedThenPoisoned(After(start, l, drained), l);
    AfterOneMore(start, l, drained, t);
    AfterOneMore(start, l, drained + [t], t);
    times := drained + [t] + [t];
  }

  lemma {:induction false} PoisonGrantsAll(b: Bucket, l: Limits, times: seq<real>)
    requires b.poisoned
    ensures After(b, l, times) == b && GrantCount(b, l, times) == |times|
  {
    if times != [] {
      PoisonGrantsAll(b, l, times[..|times| - 1]);
    }
  }

  lemma SomeCallsPoison(start: Bucket, l: Limits) returns (times: seq<real>)
    requires Full(start, l) && !WaitsFit(l)
    ensures times != [] && Ordered(start, times) && After(start, l, times).poisoned
  {
    if l.refill <= 0.0 {
      times := NoRefillPoisons(start, l);
    } else if l.capacity < 1.0 {
      times := SmallBucketPoisons(start, l);
    } else {
      times := SlowRefillPoisons(start, l);
    }
  }

  // Every window of every sequence of calls from a full bucket keeps to the bound.
  ghost predicate RateIsLimited(start: Bucket, l: Limits) {
    forall before: seq<real>, window: seq<real> :: window != [] && Ordered(start, before + window) ==>
      Bounded(After(start, l, before), l, window)
  }

  lemma BurstIsOrdered(start: Bucket, before: seq<real>, n: nat)
    requires before != [] && Ordered(start, before)
    ensures Ordered(start, before + Burst(n, before[|before| - 1]))
  {
    var all := before + Burst(n, before[|before| - 1]);
    forall i, j | 0 <= i < j < |all|
      ensures all[i] <= all[j]
    {
      if i < |before| - 1 {
        assert before[i] <= before[|before| - 1];
      }
    }
  }

  lemma BurstIsTooMuch(b: Bucket, l: Limits, n: nat, t: real)
    requires b.poisoned && n > 0 && n as real > l.capacity
    ensures !Bounded(b, l, Burst(n, t))
  {
    var window := Burst(n, t);
    PoisonGrantsAll(b, l, window);
    NoTimeNoIncome(l);
    assert window[n - 1] - window[0] == 0.0;
  }

  lemma BurstBreaksTheBound(start: Bucket, l: Limits, before: seq<real>)
    requires Full(start, l) && before != [] && Ordered(start, before) && After(start, l, before).poisoned
    ensures !RateIsLimited(start, l)
  {
    var (n, t) := (l.capacity.Floor + 2, before[|before| - 1]);
    BurstIsOrdered(start, before, n);
    BurstIsTooMuch(After(start, l, before), l, n, t);
  }

  /**
    The limit holds in every window of every sequence of calls if and only if the refill is positive and the
    largest wait the bucket can advise is a duration.
   */
  lemma LimitHoldsIffWaitsFit(start: Bucket, l: Limits)
    requires Full(start, l)
    ensures RateIsLimited(start, l) <==> WaitsFit(l)
  {
    if WaitsFit(l) {
      forall before: seq<real>, window: seq<real> | window != [] && Ordered(start, before + window)
        ensures Bounded(After(start, l, before), l, window)
      {
        EveryWindowIsBounded(start, l, before, window);
      }
    } else {
      var before := SomeCallsPoison(start, l);
      BurstBreaksTheBound(start, l, before);
    }
  }

  // -------------------------------------------------------------------------
  // Waiting
  // -------------------------------------------------------------------------

  lemma {:induction false} SmallBucketsNeverGrant(b: Bucket, l: Limits, times: seq<real>)
    requires Intact(b, l) && WaitsFit(l) && l.capacity < 1.0
    ensures GrantCount(b, l, times) == 0
  {
    if times != [] {
      SmallBucketsNeverGrant(b, l, times[..|times| - 1]);
      StaysIntact(b, l, times[..|times| - 1]);
      TryKeepsIntact(After(b, l, times[..|times| - 1]), l, times[|times| - 1]);
    }
  }

  ghost predicate SomeGrant(start: Bucket, l: Limits) {
    exists times: seq<real> :: Ordered(start, times) && GrantCount(start, l, times) > 0
  }

  /** Some call is ever granted if and only if the bucket can hold a token or the lock can be poisoned. */
  lemma SomeCallIsGrantedIff(start: Bucket, l: Limits)
    requires Full(start, l)
    ensures SomeGrant(start, l) <==> l.capacity >= 1.0 || !WaitsFit(l)
  {
    if l.capacity >= 1.0 {
      var times := [start.lastRefill];
      NoTimeNoIncome(l);
      assert Refilled(start, l, start.lastRefill) == l.capacity;
      assert times[..0] == [] && GrantCount(start, l, times) == 1;
    } else if !WaitsFit(l) {
      var before := SomeCallsPoison(start, l);
      var times := before + [before[|before| - 1]];
      assert times[..|before|] == before;
      assert Ordered(start, times) && GrantCount(start, l, times) > 0;
    } else {
      forall times: seq<real> | Ordered(start, times)
        ensures GrantCount(start, l, times) == 0
      {
        SmallBucketsNeverGrant(start, l, times);
      }
    }
  }

  /** A refused caller that waits at least the advised time, with no rival, succeeds on the next try ... */
  lemma WaitingHelps(b: Bucket, l: Limits, now: real, oversleep: real)
    requires l.capacity >= 1.0 && oversleep >= 0.0 && Answer(b, l, now).Wait?
    ensures AdvisedWait(b, l, now) > 0.0
    ensures TryAt(b, l, now, [Nap(oversleep, [])]) == Granted
  {
    var (w, c) := (AdvisedWait(b, l, now), AfterTry(b, l, now));
    assert w * l.refill == 1.0 - c.tokens;
    if w <= 0.0 {
      NonNegativeProduct(-w, l.refill);
    }
    NonNegativeProduct(oversleep, l.refill);
    assert (w + oversleep) * l.refill == w * l.refill + oversleep * l.refill;
    assert (now + w + oversleep) - c.lastRefill == w + oversleep;
    assert Grants(c, l, now + w + oversleep);
    assert [Nap(oversleep, [])][..0] == [];
    assert Turn(b, l, now, [Nap(oversleep, [])]) == (c, now + w + oversleep);
  }

  // A rival that calls when the caller's token is due takes it.
  lemma RivalTakesTheToken(b: Bucket, l: Limits, now: real)
    requires l.capacity >= 1.0 && WaitsFit(l) && Answer(b, l, now).Wait?
    ensures var t := now + AdvisedWait(b, l, now);
            var c := AfterTry(AfterTry(b, l, now), l, t);
            t > now && c == Bucket(0.0, t, false) && Answer(c, l, t).Wait?
  {
    var (w, c) := (AdvisedWait(b, l, now), AfterTry(b, l, now));
    assert w * l.refill == 1.0 - c.tokens;
    assert w > 0.0 by {
      if w <= 0.0 {
        NonNegativeProduct(-w, l.refill);
      }
    }
    assert (now + w) - c.lastRefill == w;
    assert Refilled(c, l, now + w) == 1.0;
    NoTimeNoIncome(l);
  }

  /** ... but rivals can starve a caller: for any number of tries there are calls of others that defeat them all. */
  lemma {:induction false} RivalsCanStarve(b: Bucket, l: Limits, now: real, n: nat) returns (naps: seq<Nap>)
    requires l.capacity >= 1.0 && WaitsFit(l) && Answer(b, l, now).Wait?
    ensures |naps| == n && forall k :: 0 <= k <= n ==> TryAt(b, l, now, naps[..k]).Wait?
  {
    if n == 0 {
      naps := [];
    } else {
      var front := RivalsCanStarve(b, l, now, n - 1);
      assert front[..n - 1] == front;
      var (c, t) := Turn(b, l, now, front);
      RivalTakesTheToken(c, l, t);
      var due := t + AdvisedWait(c, l, t);
      naps := front + [Nap(0.0, [due])];
      assert [due][..0] == [] && After(AfterTry(c, l, t), l, [due]) == AfterTry(AfterTry(c, l, t), l, due);
      assert naps[..n] == naps && naps[..n - 1] == front;
      forall k | 0 <= k <= n
        ensures TryAt(b, l, now, naps[..k]).Wait?
      {
        assert k < n ==> naps[..k] == front[..k];
      }
    }
  }
}
