/** What an answered composite quote guarantees: agreement with its probe, nearness to every source,
    and independence of everything but sealed history. */
module CompositeProperties {
  import opened Util
  import opened TickPriceMath
  import opened ObservationPool
  import opened PoolHistory
  import opened UniswapV3PonsOracle
  import opened Median
  import opened CompositePonsOracle

  /** Every source reads a reachable pool, all at the same time. */
  ghost predicate Backed(o: Composite, chains: seq<Chain>, now: nat) {
    && |chains| == |o.sources|
    && forall i | 0 <= i < |chains| :: BackedAt(o.sources[i], chains[i], now)
  }

  ghost predicate BackedAt(s: Source, c: Chain, now: nat) {
    Summarises(c) && s.pool == c.pool && c.Now() == now
  }

  predicate Available(s: Source, now: nat, target: nat, window: nat)
    requires Shape(s.pool) && window <= target <= now
  {
    && target <= NewestTimestamp(s.pool)
    && EarliestTimestamp(s.pool) <= target - window
    && now - (target - window) <= 0xFFFF_FFFF
  }

  /** The floored average tick of the window, turned to the base token's side. */
  function NormalTick(baseIsToken0: bool, ends: seq<int>, from: nat, to: nat): int
    requires from < to <= |ends|
  {
    if baseIsToken0 then FlooredAverage(ends, from, to) else -FlooredAverage(ends, from, to)
  }

  lemma BackedIsSound(o: Composite, chains: seq<Chain>, now: nat)
    requires Backed(o, chains, now)
    ensures SoundSources(o, now)
  {
    forall i | 0 <= i < |o.sources|
      ensures Sound(o.sources[i].pool, now)
    {
      assert BackedAt(o.sources[i], chains[i], now);
      SummaryIsSound(chains[i]);
    }
  }

  /** A reachable source answers exactly when the window is sealed and remembered, and never trips the
      domain check. */
  lemma SourceSays(s: Source, c: Chain, now: nat, target: nat, window: nat)
    requires BackedAt(s, c, now) && 0 < window <= target <= now
    ensures Sound(s.pool, now)
    ensures !Available(s, now, target, window) ==> SourceTick(s, now, target, window) == Unavailable
    ensures Available(s, now, target, window) ==>
      && c.genesis + window <= target
      && SourceTick(s, now, target, window)
         == Tick(NormalTick(s.baseIsToken0, c.ends, target - window - c.genesis, target - c.genesis))
      && TickInRange(SourceTick(s, now, target, window).tick)
  {
    hide Observe, MeanTick, FlooredAverage;
    SummaryIsSound(c);
    if Available(s, now, target, window) {
      var mean := WindowReading(c, target, window);
    }
  }

  /** Readings of reachable sources: a tick in the domain or nothing. */
  ghost predicate Clean(readings: seq<Reading>) {
    forall i | 0 <= i < |readings| :: readings[i].Unavailable? || (readings[i].Tick? && TickInRange(readings[i].tick))
  }

  lemma ReadingsAreClean(o: Composite, chains: seq<Chain>, now: nat, target: nat, window: nat, readings: seq<Reading>)
    requires Backed(o, chains, now) && SoundSources(o, now) && 0 < window <= target <= now
    requires readings == Readings(o, now, target, window)
    ensures Clean(readings)
    ensures forall i | 0 <= i < |readings| :: readings[i].Tick? <==> Available(o.sources[i], now, target, window)
  {
    hide SourceTick;
    forall i | 0 <= i < |readings|
      ensures readings[i].Unavailable? || (readings[i].Tick? && TickInRange(readings[i].tick))
      ensures readings[i].Tick? <==> Available(o.sources[i], now, target, window)
    {
      assert BackedAt(o.sources[i], chains[i], now);
      SourceSays(o.sources[i], chains[i], now, target, window);
    }
  }

  // ---- the gate -----------------------------------------------------------------------

  lemma {:induction false} ExtremesBound(ticks: seq<int>)
    ensures forall i | 0 <= i < |ticks| :: Low(ticks) <= ticks[i] <= High(ticks)
  {
    if ticks != [] {
      ExtremesBound(ticks[..|ticks| - 1]);
    }
  }

  lemma {:induction false} ExtremesAttained(ticks: seq<int>)
    requires |ticks| > 0 && forall i | 0 <= i < |ticks| :: TickInRange(ticks[i])
    ensures Low(ticks) in ticks && High(ticks) in ticks
  {
    var front, last := ticks[..|ticks| - 1], ticks[|ticks| - 1];
    assert ticks == front + [last] && last in ticks;
    if front == [] {
      assert Low(front) == INT24_MAX && High(front) == INT24_MIN;
      assert Low(ticks) == last == High(ticks);
    } else {
      hide TickInRange;
      ExtremesAttained(front);
      assert Low(front) in ticks && High(front) in ticks;
      assert Low(ticks) == Low(front) || Low(ticks) == last;
      assert High(ticks) == High(front) || High(ticks) == last;
    }
  }

  ghost predicate PairwiseWithin(gate: nat, readings: seq<Reading>) {
    && (forall i | 0 <= i < |readings| :: readings[i].Tick?)
    && (forall i, j | 0 <= i < |readings| && 0 <= j < |readings| :: readings[i].tick <= readings[j].tick + gate)
  }

  lemma SpreadIsPairwise(gate: nat, ticks: seq<int>)
    requires |ticks| > 0 && forall i | 0 <= i < |ticks| :: TickInRange(ticks[i])
    ensures SpreadBps(Low(ticks), High(ticks)) <= gate <==>
      forall i, j | 0 <= i < |ticks| && 0 <= j < |ticks| :: ticks[i] <= ticks[j] + gate
  {
    ExtremesBound(ticks);
    ExtremesAttained(ticks);
  }

  /** The gate on the extremes is the gate on every pair of sources. */
  lemma GateIsPairwise(gate: nat, readings: seq<Reading>)
    requires |readings| > 0 && Clean(readings)
    ensures Passes(gate, readings) <==> PairwiseWithin(gate, readings)
  {
    GatherCounts(readings);
    if Gather(readings).Ticks? {
      var ticks := Gather(readings).ticks;
      forall i | 0 <= i < |ticks|
        ensures readings[i] == Tick(ticks[i]) && TickInRange(ticks[i])
      {
      }
      SpreadIsPairwise(gate, ticks);
    }
  }

  /** The composite's probe says yes exactly when the request is well formed, every source has sealed
      and still remembers the window, and every pair of ticks is within the gate. */
  lemma ProbeIsExact(o: Composite, chains: seq<Chain>, now: nat, target: nat, window: nat)
    requires ValidComposite(o) && Backed(o, chains, now)
    ensures SoundSources(o, now)
    ensures CanQuoteSpec(o, now, target, window) <==>
      && 0 < window <= 604_800 && window <= target <= now
      && (forall i | 0 <= i < |o.sources| :: Available(o.sources[i], now, target, window))
      && PairwiseWithin(o.maxDivergenceBps, Readings(o, now, target, window))
  {
    BackedIsSound(o, chains, now);
    if 0 < window <= 604_800 && window <= target <= now {
      var readings := Readings(o, now, target, window);
      ReadingsAreClean(o, chains, now, target, window, readings);
      GateIsPairwise(o.maxDivergenceBps, readings);
    }
  }

  /** The ticks behind a passed probe, all in the domain. */
  lemma PassedTicks(gate: nat, readings: seq<Reading>) returns (ticks: seq<int>)
    requires |readings| > 0 && Clean(readings) && Passes(gate, readings)
    ensures Gather(readings) == Ticks(ticks) && |ticks| == |readings|
    ensures forall i | 0 <= i < |ticks| :: readings[i] == Tick(ticks[i]) && TickInRange(ticks[i])
    ensures SpreadBps(Low(ticks), High(ticks)) <= gate
  {
    GatherCounts(readings);
    ticks := Gather(readings).ticks;
    assert forall i | 0 <= i < |ticks| :: readings[i] == Tick(ticks[i]);
  }

  lemma JudgeOfTicks(o: Composite, readings: seq<Reading>, ticks: seq<int>, median: int)
    requires |ticks| > 0 && |readings| > 0 && Gather(readings) == Ticks(ticks) && median == MedianOf(ticks)
    requires SpreadBps(Low(ticks), High(ticks)) <= o.maxDivergenceBps
    ensures Judge(o, readings) == QuoteOrFail(o.sqrtRatio, median, o.baseUnit, true)
  {
    hide QuoteOrFail;
  }

  lemma JudgedPasses(o: Composite, readings: seq<Reading>)
    requires |readings| > 0 && Judge(o, readings).Priced?
    ensures Passes(o.maxDivergenceBps, readings)
  {
    hide QuoteOrFail, MedianOf;
  }

  lemma QuoteKeepsTick(sqrtRatio: int -> nat, tick: int, baseUnit: nat, price: Price)
    requires price == QuoteOrFail(sqrtRatio, tick, baseUnit, true) && price.Priced?
    ensures price.tick == tick
  {
    hide QuoteAtTick;
  }

  lemma QuoteInDomain(sqrtRatio: int -> nat, tick: int, baseUnit: nat, price: Price)
    requires TickTable(sqrtRatio) && TickInRange(tick) && baseUnit < TWO_128
    requires price == QuoteOrFail(sqrtRatio, tick, baseUnit, true)
    ensures price.Priced? || price == Failed(QuoteIsZero)
  {
    QuoteNeverOverflows(sqrtRatio, tick, baseUnit, true);
  }

  lemma JudgedAgreement(o: Composite, readings: seq<Reading>)
    requires ValidComposite(o) && |readings| > 0 && Clean(readings)
    ensures Judge(o, readings).Priced? ==> Passes(o.maxDivergenceBps, readings)
    ensures Passes(o.maxDivergenceBps, readings) ==>
      Judge(o, readings).Priced? || Judge(o, readings) == Failed(QuoteIsZero)
  {
    hide MedianOf, QuoteOrFail;
    if Passes(o.maxDivergenceBps, readings) {
      var ticks := PassedTicks(o.maxDivergenceBps, readings);
      var median := MedianOf(ticks);
      MedianBetween(ticks, MIN_TICK, MAX_TICK);
      JudgeOfTicks(o, readings, ticks, median);
      QuoteInDomain(o.sqrtRatio, median, o.baseUnit, Judge(o, readings));
    }
  }

  /** The probe and the quote agree both ways: beside a positive probe the quote fails only by being
      zero. */
  lemma CompositeAgreement(o: Composite, chains: seq<Chain>, now: nat, target: nat, window: nat)
    requires ValidComposite(o) && Backed(o, chains, now)
    ensures SoundSources(o, now)
    ensures PriceAtSpec(o, now, target, window).Priced? ==> CanQuoteSpec(o, now, target, window)
    ensures CanQuoteSpec(o, now, target, window) ==>
      PriceAtSpec(o, now, target, window).Priced? || PriceAtSpec(o, now, target, window) == Failed(QuoteIsZero)
  {
    BackedIsSound(o, chains, now);
    if CheckRequest(now, target, window).None? {
      var readings := Readings(o, now, target, window);
      ReadingsAreClean(o, chains, now, target, window, readings);
      JudgedAgreement(o, readings);
    }
  }

  // ---- nearness -----------------------------------------------------------------------

  /** The answered tick lies between the extremes, so within the gate of every source's tick; with two
      sources it is within half the gate, rounded up, of both. */
  ghost predicate NearAll(readings: seq<Reading>, gate: nat, answer: int) {
    && (forall i | 0 <= i < |readings| ::
          readings[i].Tick? && readings[i].tick - gate <= answer <= readings[i].tick + gate)
    && (exists i | 0 <= i < |readings| :: readings[i].Tick? && readings[i].tick <= answer)
    && (exists i | 0 <= i < |readings| :: readings[i].Tick? && answer <= readings[i].tick)
    && (|readings| == 2 ==>
          forall i | 0 <= i < 2 ::
            readings[i].Tick? && readings[i].tick - (gate + 1) / 2 <= answer <= readings[i].tick + (gate + 1) / 2)
  }

  lemma JudgedIsNear(o: Composite, readings: seq<Reading>)
    requires ValidComposite(o) && |readings| > 0 && Clean(readings) && Judge(o, readings).Priced?
    ensures NearAll(readings, o.maxDivergenceBps, Judge(o, readings).tick)
  {
    hide Judge, MedianOf, QuoteOrFail, Gather, Low, High;
    JudgedPasses(o, readings);
    var ticks := PassedTicks(o.maxDivergenceBps, readings);
    var median := MedianOf(ticks);
    JudgeOfTicks(o, readings, ticks, median);
    QuoteKeepsTick(o.sqrtRatio, median, o.baseUnit, Judge(o, readings));
    MedianIsNear(readings, ticks, o.maxDivergenceBps, median);
  }

  lemma MedianIsNear(readings: seq<Reading>, ticks: seq<int>, gate: nat, median: int)
    requires |ticks| == |readings| > 0 && median == MedianOf(ticks)
    requires forall i | 0 <= i < |ticks| :: readings[i] == Tick(ticks[i]) && TickInRange(ticks[i])
    requires SpreadBps(Low(ticks), High(ticks)) <= gate
    ensures NearAll(readings, gate, median)
  {
    hide MedianOf, Low, High;
    ExtremesBound(ticks);
    ExtremesAttained(ticks);
    MedianBetween(ticks, Low(ticks), High(ticks));
    var low :| 0 <= low < |ticks| && ticks[low] == Low(ticks);
    var high :| 0 <= high < |ticks| && ticks[high] == High(ticks);
    assert readings[low].tick == Low(ticks) && readings[high].tick == High(ticks);
    if |ticks| == 2 {
      MedianOfTwo(ticks, gate);
    }
  }

  lemma AnsweredQuoteIsNearEverySource(o: Composite, chains: seq<Chain>, now: nat, target: nat, window: nat)
    requires ValidComposite(o) && Backed(o, chains, now) && SoundSources(o, now)
    requires PriceAtSpec(o, now, target, window).Priced?
    ensures 0 < window <= target <= now
    ensures NearAll(Readings(o, now, target, window), o.maxDivergenceBps, PriceAtSpec(o, now, target, window).tick)
  {
    var readings := Readings(o, now, target, window);
    ReadingsAreClean(o, chains, now, target, window, readings);
    JudgedIsNear(o, readings);
  }

  ghost predicate Raised(readings: seq<Reading>, readings': seq<Reading>) {
    |readings| == |readings'| &&
    forall i | 0 <= i < |readings| ::
      readings[i].Tick? && readings'[i].Tick? ==> readings[i].tick <= readings'[i].tick
  }

  /** Raising any source's tick never lowers the composite's answer. */
  lemma AnswerMonotoneInEverySource(o: Composite, readings: seq<Reading>, readings': seq<Reading>)
    requires ValidComposite(o) && |readings| > 0 && Clean(readings) && Clean(readings') && Raised(readings, readings')
    requires Judge(o, readings).Priced? && Judge(o, readings').Priced?
    ensures Judge(o, readings).tick <= Judge(o, readings').tick
    ensures Judge(o, readings).price <= Judge(o, readings').price
  {
    hide MedianOf, QuoteAtTick;
    var ticks := PassedTicks(o.maxDivergenceBps, readings);
    var ticks' := PassedTicks(o.maxDivergenceBps, readings');
    assert Below(ticks, ticks');
    MedianMonotone(ticks, ticks');
    MedianBetween(ticks, MIN_TICK, MAX_TICK);
    MedianBetween(ticks', MIN_TICK, MAX_TICK);
    QuoteMonotoneInTick(o.sqrtRatio, MedianOf(ticks), MedianOf(ticks'), o.baseUnit, true);
  }

  /** Nor does the answer depend on the order the sources were configured in. */
  lemma AnswerIgnoresSourceOrder(o: Composite, readings: seq<Reading>, readings': seq<Reading>)
    requires ValidComposite(o) && |readings| > 0 && Clean(readings) && Clean(readings')
    requires multiset(readings) == multiset(readings')
    ensures |readings'| > 0
    ensures Judge(o, readings) == Judge(o, readings')
  {
    assert |multiset(readings)| == |multiset(readings')|;
    GatherPermuted(readings, readings');
    GateIgnoresOrder(o.maxDivergenceBps, readings, readings');
    if Passes(o.maxDivergenceBps, readings) {
      MedianIgnoresOrder(Gather(readings).ticks, Gather(readings').ticks);
    }
  }

  function TickBag(readings: seq<Reading>): multiset<int> {
    if readings == [] then multiset{}
    else
      match readings[|readings| - 1]
      case Tick(tick) => TickBag(readings[..|readings| - 1]) + multiset{tick}
      case _ => TickBag(readings[..|readings| - 1])
  }

  lemma {:induction false} TickCount(readings: seq<Reading>, tick: int)
    ensures TickBag(readings)[tick] == multiset(readings)[Tick(tick)]
  {
    if readings != [] {
      var front := readings[..|readings| - 1];
      assert readings == front + [readings[|readings| - 1]];
      TickCount(front, tick);
    }
  }

  lemma {:induction false} GatheredBag(readings: seq<Reading>)
    requires Gather(readings).Ticks?
    ensures multiset(Gather(readings).ticks) == TickBag(readings)
  {
    if readings != [] {
      GatheredBag(readings[..|readings| - 1]);
    }
  }

  lemma GatherPermuted(readings: seq<Reading>, readings': seq<Reading>)
    requires Clean(readings) && Clean(readings') && multiset(readings) == multiset(readings')
    ensures Gather(readings).Stopped? || Gather(readings').Stopped? ==> Gather(readings) == Gather(readings')
    ensures Gather(readings).Ticks? && Gather(readings').Ticks? ==>
      multiset(Gather(readings).ticks) == multiset(Gather(readings').ticks)
  {
    CleanStops(readings);
    CleanStops(readings');
    if Gather(readings).Ticks? {
      StillAllTicks(readings, readings');
      GatheredBag(readings);
      GatheredBag(readings');
      forall tick
        ensures TickBag(readings)[tick] == TickBag(readings')[tick]
      {
        TickCount(readings, tick);
        TickCount(readings', tick);
      }
    }
    if Gather(readings').Ticks? {
      StillAllTicks(readings', readings);
    }
  }

  lemma StillAllTicks(readings: seq<Reading>, readings': seq<Reading>)
    requires Gather(readings).Ticks? && multiset(readings) == multiset(readings')
    ensures Gather(readings').Ticks?
  {
    GatherCounts(readings);
    GatherCounts(readings');
    forall i | 0 <= i < |readings'|
      ensures readings'[i].Tick?
    {
      assert readings'[i] in multiset(readings);
    }
  }

  lemma {:induction false} CleanStops(readings: seq<Reading>)
    requires Clean(readings)
    ensures Gather(readings).Stopped? ==> Gather(readings) == Stopped(SourceUnavailable)
  {
    if readings != [] {
      CleanStops(readings[..|readings| - 1]);
    }
  }

  lemma GateIgnoresOrder(gate: nat, readings: seq<Reading>, readings': seq<Reading>)
    requires |readings| > 0 && |readings'| > 0 && Clean(readings) && Clean(readings')
    requires multiset(readings) == multiset(readings')
    ensures Passes(gate, readings) <==> Passes(gate, readings')
  {
    GateIsPairwise(gate, readings);
    GateIsPairwise(gate, readings');
    if PairwiseWithin(gate, readings) {
      PairsPermuted(gate, readings, readings');
    }
    if PairwiseWithin(gate, readings') {
      PairsPermuted(gate, readings', readings);
    }
  }

  lemma PairsPermuted(gate: nat, readings: seq<Reading>, readings': seq<Reading>)
    requires PairwiseWithin(gate, readings) && multiset(readings) == multiset(readings')
    ensures PairwiseWithin(gate, readings')
  {
    forall i | 0 <= i < |readings'|
      ensures readings'[i] in readings
    {
      assert readings'[i] in multiset(readings);
    }
  }

  // ---- purity -------------------------------------------------------------------------

  /** The same oracle looking at later pools. */
  ghost predicate SameOracle(o: Composite, o': Composite) {
    && o'.baseUnit == o.baseUnit && o'.sqrtRatio == o.sqrtRatio && o'.maxDivergenceBps == o.maxDivergenceBps
    && |o'.sources| == |o.sources|
    && forall i | 0 <= i < |o.sources| :: o'.sources[i].baseIsToken0 == o.sources[i].baseIsToken0
  }

  /** Two histories that agree on every second up to the target. */
  ghost predicate SameSealed(c: Chain, c': Chain, target: nat) {
    && c.genesis == c'.genesis <= target <= c.Now() && target <= c'.Now()
    && c.ends[..target - c.genesis] == c'.ends[..target - c.genesis]
  }

  lemma TickOfSealed(s: Source, c: Chain, now: nat, target: nat, window: nat, ticks: seq<int>)
    requires BackedAt(s, c, now) && Sound(s.pool, now)
    requires c.genesis <= target <= now && 0 < window <= target && ticks == c.ends[..target - c.genesis]
    requires SourceTick(s, now, target, window).Tick?
    ensures window <= |ticks|
    ensures SourceTick(s, now, target, window) == Tick(NormalTick(s.baseIsToken0, ticks, |ticks| - window, |ticks|))
  {
    hide SourceTick, FlooredAverage, Exact;
    SourceSays(s, c, now, target, window);
    AverageOfPrefix(c.ends, ticks, target - window - c.genesis, target - c.genesis);
  }

  lemma SameSealedSameTick(s: Source, c: Chain, now: nat, s': Source, c': Chain, now': nat, target: nat, window: nat)
    requires BackedAt(s, c, now) && BackedAt(s', c', now') && s.baseIsToken0 == s'.baseIsToken0
    requires 0 < window <= target <= now && target <= now' && SameSealed(c, c', target)
    requires Sound(s.pool, now) && Sound(s'.pool, now')
    requires SourceTick(s, now, target, window).Tick? && SourceTick(s', now', target, window).Tick?
    ensures SourceTick(s, now, target, window) == SourceTick(s', now', target, window)
  {
    hide SourceTick, NormalTick;
    var ticks := c.ends[..target - c.genesis];
    TickOfSealed(s, c, now, target, window, ticks);
    TickOfSealed(s', c', now', target, window, ticks);
  }

  /** Once the composite can quote an instant, any later reading that it also can quote is the same. */
  lemma CompositeAnswerNeverChanges(o: Composite, chains: seq<Chain>, now: nat,
                                    o': Composite, chains': seq<Chain>, now': nat, target: nat, window: nat)
    requires ValidComposite(o) && Backed(o, chains, now) && SoundSources(o, now)
    requires ValidComposite(o') && Backed(o', chains', now') && SoundSources(o', now')
    requires SameOracle(o, o') && forall i | 0 <= i < |chains| :: SameSealed(chains[i], chains'[i], target)
    requires CanQuoteSpec(o, now, target, window) && CanQuoteSpec(o', now', target, window)
    ensures PriceAtSpec(o, now, target, window) == PriceAtSpec(o', now', target, window)
  {
    var readings, readings' := Readings(o, now, target, window), Readings(o', now', target, window);
    SameReadings(o, chains, now, o', chains', now', target, window, readings, readings');
    SameReadingsSameAnswer(o, o', readings);
  }

  /** Later pools: each source's pool after some run of events of its own. */
  ghost predicate Later(chains: seq<Chain>, events: seq<seq<Event>>, chains': seq<Chain>) {
    && |events| == |chains| == |chains'|
    && forall i | 0 <= i < |chains| :: Summarises(chains[i]) && chains'[i] == Run(chains[i], events[i])
  }

  predicate Remembers(p: Pool, now: nat, from: nat)
    requires Shape(p)
  {
    EarliestTimestamp(p) <= from && now - from <= 0xFFFF_FFFF
  }

  lemma LaterSource(c: Chain, events: seq<Event>, c': Chain, target: nat, window: nat)
    requires Summarises(c) && c' == Run(c, events) && 0 < window <= target <= c.Now()
    requires Shape(c.pool) && Available(Source(c.pool, true), c.Now(), target, window)
    ensures Summarises(c') && Shape(c'.pool) && c.Now() <= c'.Now() && SameSealed(c, c', target)
    ensures Available(Source(c'.pool, true), c'.Now(), target, window) <==>
      Remembers(c'.pool, c'.Now(), target - window)
  {
    RunKeepsSummary(c, events);
    SummaryIsSound(c);
    SourceSays(Source(c.pool, true), c, c.Now(), target, window);
  }

  /** Once a composite can quote an instant it can, after any events in any of its pools, exactly as long as
      every source remembers the window's start and it is less than 2^32 seconds old; and then the
      answer is the same. */
  lemma CompositeStaysQuotable(o: Composite, chains: seq<Chain>, now: nat, events: seq<seq<Event>>,
                               o': Composite, chains': seq<Chain>, now': nat, target: nat, window: nat)
    requires ValidComposite(o) && Backed(o, chains, now) && SoundSources(o, now)
    requires ValidComposite(o') && Backed(o', chains', now') && SoundSources(o', now')
    requires SameOracle(o, o') && Later(chains, events, chains') && CanQuoteSpec(o, now, target, window)
    ensures window <= target
    ensures CanQuoteSpec(o', now', target, window) <==>
      forall i | 0 <= i < |o'.sources| :: Remembers(o'.sources[i].pool, now', target - window)
    ensures CanQuoteSpec(o', now', target, window) ==>
      PriceAtSpec(o', now', target, window) == PriceAtSpec(o, now, target, window)
  {
    hide Available, CanQuoteSpec, PriceAtSpec, Remembers, Readings, SourceTick, Summarises;
    ProbeIsExact(o, chains, now, target, window);
    ProbeIsExact(o', chains', now', target, window);
    forall i | 0 <= i < |chains|
      ensures SameSealed(chains[i], chains'[i], target) && now <= now'
      ensures Available(o'.sources[i], now', target, window) <==> Remembers(o'.sources[i].pool, now', target - window)
    {
      LaterOfComposite(o, chains, now, events, o', chains', now', target, window, i);
    }
    assert SameSealed(chains[0], chains'[0], target) && now <= now';
    if forall i | 0 <= i < |o'.sources| :: Available(o'.sources[i], now', target, window) {
      StillWithin(o, chains, now, o', chains', now', target, window);
      CompositeAnswerNeverChanges(o, chains, now, o', chains', now', target, window);
    }
  }

  lemma LaterOfComposite(o: Composite, chains: seq<Chain>, now: nat, events: seq<seq<Event>>,
                         o': Composite, chains': seq<Chain>, now': nat, target: nat, window: nat, i: nat)
    requires Backed(o, chains, now) && SoundSources(o, now) && Backed(o', chains', now') && SoundSources(o', now')
    requires SameOracle(o, o') && Later(chains, events, chains') && i < |chains|
    requires 0 < window <= target <= now && Available(o.sources[i], now, target, window)
    ensures SameSealed(chains[i], chains'[i], target) && now <= now'
    ensures Available(o'.sources[i], now', target, window) <==> Remembers(o'.sources[i].pool, now', target - window)
  {
    assert BackedAt(o.sources[i], chains[i], now) && BackedAt(o'.sources[i], chains'[i], now');
    assert Sound(o.sources[i].pool, now) && Sound(o'.sources[i].pool, now');
    LaterSource(chains[i], events[i], chains'[i], target, window);
  }

  lemma StillWithin(o: Composite, chains: seq<Chain>, now: nat, o': Composite, chains': seq<Chain>, now': nat,
                    target: nat, window: nat)
    requires ValidComposite(o) && Backed(o, chains, now) && SoundSources(o, now)
    requires ValidComposite(o') && Backed(o', chains', now') && SoundSources(o', now')
    requires SameOracle(o, o') && forall i | 0 <= i < |chains| :: SameSealed(chains[i], chains'[i], target)
    requires CanQuoteSpec(o, now, target, window) && 0 < window <= target <= now'
    requires forall i | 0 <= i < |o'.sources| :: Available(o'.sources[i], now', target, window)
    ensures CanQuoteSpec(o', now', target, window)
  {
    hide Available, SourceTick, Gather;
    var readings, readings' := Readings(o, now, target, window), Readings(o', now', target, window);
    ReadingsAreClean(o, chains, now, target, window, readings);
    ReadingsAreClean(o', chains', now', target, window, readings');
    GatherCounts(readings);
    GatherCounts(readings');
    SameReadings(o, chains, now, o', chains', now', target, window, readings, readings');
  }

  lemma SameReadings(o: Composite, chains: seq<Chain>, now: nat, o': Composite, chains': seq<Chain>, now': nat,
                     target: nat, window: nat, readings: seq<Reading>, readings': seq<Reading>)
    requires Backed(o, chains, now) && SoundSources(o, now) && Backed(o', chains', now') && SoundSources(o', now')
    requires SameOracle(o, o') && forall i | 0 <= i < |chains| :: SameSealed(chains[i], chains'[i], target)
    requires 0 < window <= target <= now && target <= now'
    requires readings == Readings(o, now, target, window) && readings' == Readings(o', now', target, window)
    requires Gather(readings).Ticks? && Gather(readings').Ticks?
    ensures readings == readings'
  {
    GatherCounts(readings);
    GatherCounts(readings');
    forall i | 0 <= i < |readings|
      ensures readings[i] == readings'[i]
    {
      assert BackedAt(o.sources[i], chains[i], now) && BackedAt(o'.sources[i], chains'[i], now');
      SameSealedSameTick(o.sources[i], chains[i], now, o'.sources[i], chains'[i], now', target, window);
    }
  }

  lemma SameReadingsSameAnswer(o: Composite, o': Composite, readings: seq<Reading>)
    requires |readings| > 0 && SameOracle(o, o')
    ensures Judge(o, readings) == Judge(o', readings)
  {
  }

  // ---- the published price ------------------------------------------------------------

  /** The newest instant every source has sealed, and the composite's price there. */
  method GetPrice(o: Composite, chains: seq<Chain>, now: nat) returns (price: Price, sealedAt: nat)
    requires ValidComposite(o) && Backed(o, chains, now) && SoundSources(o, now)
    ensures sealedAt <= now && price == PriceAtSpec(o, now, sealedAt, o.defaultTwapWindow)
    ensures forall i | 0 <= i < |o.sources| :: sealedAt <= NewestTimestamp(o.sources[i].pool)
    ensures forall t | t > sealedAt :: !CanQuoteSpec(o, now, t, o.defaultTwapWindow)
  {
    sealedAt := NewestCommonObservation(o);
    var newest :| 0 <= newest < |o.sources| && sealedAt == NewestTimestamp(o.sources[newest].pool);
    assert Sound(o.sources[newest].pool, now);
    if sealedAt > now { sealedAt := now; }
    price := CompositePonsOracle.PriceAt(o, now, sealedAt, o.defaultTwapWindow);
    forall t | t > sealedAt
      ensures !CanQuoteSpec(o, now, t, o.defaultTwapWindow)
    {
      ProbeIsExact(o, chains, now, t, o.defaultTwapWindow);
      assert o.defaultTwapWindow <= t <= now ==> !Available(o.sources[newest], now, t, o.defaultTwapWindow);
    }
  }
}
