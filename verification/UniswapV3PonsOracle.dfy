/** The single-pool adapter: a sealed, still-remembered window answers with the mean tick's price. */
module UniswapV3PonsOracle {
  import opened Util
  import opened TickPriceMath
  import opened ObservationPool
  import opened PoolHistory

  const MAX_TWAP_WINDOW: nat := 604_800
  const MAX_UINT32: nat := 0xFFFF_FFFF

  datatype Failure =
    | ZeroWindow | WindowTooLong | TargetInFuture | WindowStartUnderflow | TargetNotSealed
    | HistoryEvicted | Old | MeanTickOutOfRange | QuoteOverflow | QuoteIsZero
    | SourceUnavailable | SourcesDiverged

  datatype Price = Priced(price: nat, tick: int) | Failed(why: Failure)

  /** The immutables: token orientation, one whole base unit, the default window and the tick table. */
  datatype Adapter = Adapter(baseIsToken0: bool, baseUnit: nat, defaultTwapWindow: nat, sqrtRatio: int -> nat)

  ghost predicate ValidAdapter(o: Adapter) {
    && TickTable(o.sqrtRatio)
    && 0 < o.baseUnit < TWO_128
    && 0 < o.defaultTwapWindow <= MAX_TWAP_WINDOW
  }

  function QuoteOrFail(sqrtRatio: int -> nat, tick: int, baseUnit: nat, baseIsToken0: bool): Price {
    match QuoteAtTick(sqrtRatio, tick, baseUnit, baseIsToken0)
    case None => Failed(QuoteOverflow)
    case Some(price) => if price == 0 then Failed(QuoteIsZero) else Priced(price, tick)
  }

  function PriceAt(o: Adapter, p: Pool, now: nat, target: nat, window: nat): Price
    requires Sound(p, now)
  {
    if window == 0 then Failed(ZeroWindow)
    else if window > MAX_TWAP_WINDOW then Failed(WindowTooLong)
    else if target > now then Failed(TargetInFuture)
    else if target < window then Failed(WindowStartUnderflow)
    else if NewestTimestamp(p) < target then Failed(TargetNotSealed)
    else if target - window < EarliestTimestamp(p) then Failed(HistoryEvicted)
    else if now - (target - window) > MAX_UINT32 then Failed(HistoryEvicted)
    else
      match (Observe(p, now, now - (target - window)), Observe(p, now, now - target))
      case (Some(start), Some(end)) =>
        (match MeanTick(end - start, window)
         case None => Failed(MeanTickOutOfRange)
         case Some(mean) => QuoteOrFail(o.sqrtRatio, mean, o.baseUnit, o.baseIsToken0))
      case _ => Failed(Old)
  }

  predicate CanQuote(p: Pool, now: nat, target: nat, window: nat)
    requires Shape(p)
  {
    if window == 0 then false
    else if window > MAX_TWAP_WINDOW then false
    else if target > now then false
    else if target < window then false
    else if NewestTimestamp(p) < target then false
    else if target - window < EarliestTimestamp(p) then false
    else if now - (target - window) > MAX_UINT32 then false
    else true
  }

  /** The newest instant already sealed, and its price over the default window. */
  function GetPrice(o: Adapter, p: Pool, now: nat): (Price, nat)
    requires Sound(p, now)
  {
    var sealedAt := if NewestTimestamp(p) > now then now else NewestTimestamp(p);
    (PriceAt(o, p, now, sealedAt, o.defaultTwapWindow), sealedAt)
  }

  /** The probe says yes exactly for a window of a second to a week that ends by now, lies within the span of
      the live observations and began less than 2^32 seconds ago. */
  lemma ProbeExactly(p: Pool, now: nat, target: nat, window: nat)
    requires Sound(p, now)
    ensures |Live(p)| > 0
    ensures CanQuote(p, now, target, window) <==>
      && 0 < window <= 604_800 && target <= now
      && Live(p)[0].blockTimestamp + window <= target <= Live(p)[|Live(p)| - 1].blockTimestamp
      && now + window < target + 0x1_0000_0000
  {
    EarliestIsFirstLive(p);
    LiveEnds(p);
  }

  // ---- what is answered ---------------------------------------------------------------

  /** The floored average of the ticks that ended the seconds in [from, to). */
  function FlooredAverage(ends: seq<int>, from: nat, to: nat): int
    requires from < to <= |ends|
  {
    (Integral(ends, to) - Integral(ends, from)) / (to - from)
  }

  lemma FloorBounds(n: int, d: nat)
    requires d > 0
    ensures (n / d) * d <= n < (n / d + 1) * d
  {
    assert n == d * (n / d) + n % d;
  }

  lemma AverageInRange(ends: seq<int>, from: nat, to: nat)
    requires from < to <= |ends| && forall i | 0 <= i < |ends| :: TickInRange(ends[i])
    ensures TickInRange(FlooredAverage(ends, from, to))
  {
    var sum, n := Integral(ends, to) - Integral(ends, from), to - from;
    IntegralBounds(ends, from, to);
    FloorBounds(sum, n);
    var mean := sum / n;
    FloorOrdered(sum, n, MIN_TICK, mean);
    FloorOrdered(MAX_TICK * n, n, mean, MAX_TICK);
  }

  /** Rounding the difference of two accumulator readings gives the floored average, in the domain. */
  lemma MeanIsAverage(ends: seq<int>, from: nat, to: nat, mean: int)
    requires from < to <= |ends| && forall i | 0 <= i < |ends| :: TickInRange(ends[i])
    requires mean == FlooredAverage(ends, from, to)
    ensures TickInRange(mean) && MeanTick(Integral(ends, to) - Integral(ends, from), to - from) == Some(mean)
  {
    AverageInRange(ends, from, to);
    FloorBounds(Integral(ends, to) - Integral(ends, from), to - from);
    MeanTickIsFloor(Integral(ends, to) - Integral(ends, from), to - from, mean);
  }

  lemma ReadingAt(c: Chain, target: nat)
    requires Summarises(c) && Sound(c.pool, c.Now()) && EarliestTimestamp(c.pool) <= target <= c.Now()
    ensures c.genesis <= target
    ensures Observe(c.pool, c.Now(), c.Now() - target) == Some(Integral(c.ends, target - c.genesis))
  {
    hide Observe;
    ObserveIsIntegral(c, c.Now() - target);
  }

  /** Over any window the ring still remembers, the two accumulator readings give the floored average
      of the window's end-of-second ticks. */
  lemma WindowReading(c: Chain, target: nat, window: nat) returns (mean: int)
    requires Summarises(c) && 0 < window <= target <= c.Now()
    requires EarliestTimestamp(c.pool) <= target - window
    ensures Sound(c.pool, c.Now()) && c.genesis <= target - window
    ensures mean == FlooredAverage(c.ends, target - window - c.genesis, target - c.genesis) && TickInRange(mean)
    ensures var start, end := Observe(c.pool, c.Now(), c.Now() - (target - window)),
                              Observe(c.pool, c.Now(), c.Now() - target);
      start.Some? && end.Some? && MeanTick(end.value - start.value, window) == Some(mean)
  {
    hide MeanTick, FlooredAverage, Observe, Exact;
    SummaryIsSound(c);
    ReadingAt(c, target - window);
    ReadingAt(c, target);
    mean := FlooredAverage(c.ends, target - window - c.genesis, target - c.genesis);
    MeanIsAverage(c.ends, target - window - c.genesis, target - c.genesis, mean);
  }

  /** The answer as a function of the history before the target alone. */
  function Answer(o: Adapter, ends: seq<int>, from: nat, to: nat): Price
    requires from < to <= |ends|
  {
    QuoteOrFail(o.sqrtRatio, FlooredAverage(ends, from, to), o.baseUnit, o.baseIsToken0)
  }

  /** The probe and the quote agree both ways on every reachable pool: the quote fails beside a positive
      probe only by being zero, and what it answers is the floored average and its price. */
  lemma QuoteAgreement(o: Adapter, c: Chain, target: nat, window: nat)
    requires ValidAdapter(o) && Summarises(c)
    ensures Sound(c.pool, c.Now())
    ensures PriceAt(o, c.pool, c.Now(), target, window).Priced? ==> CanQuote(c.pool, c.Now(), target, window)
    ensures CanQuote(c.pool, c.Now(), target, window) ==>
      && c.genesis + window <= target <= c.Now()
      && PriceAt(o, c.pool, c.Now(), target, window)
         == Answer(o, c.ends, target - window - c.genesis, target - c.genesis)
      && PriceAt(o, c.pool, c.Now(), target, window) != Failed(QuoteOverflow)
  {
    hide MeanTick, FlooredAverage, Observe, QuoteAtTick;
    SummaryIsSound(c);
    if CanQuote(c.pool, c.Now(), target, window) {
      var mean := WindowReading(c, target, window);
      QuoteNeverOverflows(o.sqrtRatio, mean, o.baseUnit, o.baseIsToken0);
    }
  }

  lemma PricedAnswer(o: Adapter, c: Chain, target: nat, window: nat)
    requires ValidAdapter(o) && Summarises(c) && Sound(c.pool, c.Now())
    requires PriceAt(o, c.pool, c.Now(), target, window).Priced?
    ensures 0 < window && c.genesis + window <= target <= c.Now()
    ensures PriceAt(o, c.pool, c.Now(), target, window)
         == Answer(o, c.ends, target - window - c.genesis, target - c.genesis)
  {
    hide PriceAt, QuoteOrFail, FlooredAverage;
    QuoteAgreement(o, c, target, window);
  }

  // ---- purity -------------------------------------------------------------------------

  lemma AverageOfPrefix(ends: seq<int>, ends': seq<int>, from: nat, to: nat)
    requires from < to <= |ends| && to <= |ends'| && ends[..to] == ends'[..to]
    ensures FlooredAverage(ends, from, to) == FlooredAverage(ends', from, to)
  {
    IntegralOfPrefix(ends[..to], ends, to);
    IntegralOfPrefix(ends[..to], ends', to);
    IntegralOfPrefix(ends[..to], ends, from);
    IntegralOfPrefix(ends[..to], ends', from);
  }

  /** Two pools whose seconds up to the target ended on the same ticks give the same answer, whatever
      else differs: swaps within a second, later swaps, ring sizes, or when each was read. */
  lemma AnswerDependsOnSealedHistoryOnly(o: Adapter, c: Chain, c': Chain, target: nat, window: nat)
    requires ValidAdapter(o) && Summarises(c) && Summarises(c') && c.genesis == c'.genesis <= target
    requires CanQuote(c.pool, c.Now(), target, window) && CanQuote(c'.pool, c'.Now(), target, window)
    requires c.ends[..target - c.genesis] == c'.ends[..target - c.genesis]
    ensures Sound(c.pool, c.Now()) && Sound(c'.pool, c'.Now())
    ensures PriceAt(o, c.pool, c.Now(), target, window) == PriceAt(o, c'.pool, c'.Now(), target, window)
  {
    hide Answer, PriceAt;
    var sealedTicks := c.ends[..target - c.genesis];
    AnswerOfTicks(o, c, target, window, sealedTicks);
    AnswerOfTicks(o, c', target, window, sealedTicks);
  }

  /** So a displacement undone within its second changes no price that both pools can still quote. */
  lemma DisplacementMovesNoPrice(o: Adapter, c: Chain, events: seq<Event>, more: seq<Event>, target: nat, window: nat)
    requires ValidAdapter(o) && Summarises(c) && forall i | 0 <= i < |events| :: !events[i].Elapse?
    requires Run(c, events).pool.tick == c.pool.tick
    ensures Summarises(Run(c, events))
    ensures var x, y := Run(Run(c, events), more), Run(c, more);
      && Sound(x.pool, x.Now()) && Sound(y.pool, y.Now()) && x.Now() == y.Now()
      && (CanQuote(x.pool, x.Now(), target, window) && CanQuote(y.pool, y.Now(), target, window) ==>
            PriceAt(o, x.pool, x.Now(), target, window) == PriceAt(o, y.pool, y.Now(), target, window))
  {
    hide PriceAt, Observe, Exact;
    DisplacementLeavesNoTrace(c, events, more, 0);
    var x, y := Run(Run(c, events), more), Run(c, more);
    if CanQuote(x.pool, x.Now(), target, window) && CanQuote(y.pool, y.Now(), target, window) {
      QuotableAnswer(o, x, target, window);
      AnswerDependsOnSealedHistoryOnly(o, x, y, target, window);
    }
  }

  lemma AnswerOfTicks(o: Adapter, c: Chain, target: nat, window: nat, ticks: seq<int>)
    requires ValidAdapter(o) && Summarises(c) && CanQuote(c.pool, c.Now(), target, window)
    requires c.genesis <= target && ticks == c.ends[..target - c.genesis]
    ensures Sound(c.pool, c.Now()) && 0 < window <= |ticks|
    ensures PriceAt(o, c.pool, c.Now(), target, window) == Answer(o, ticks, |ticks| - window, |ticks|)
  {
    hide Answer, PriceAt;
    QuotableAnswer(o, c, target, window);
    AnswerOfPrefix(o, c.ends, ticks, target - window - c.genesis, target - c.genesis);
  }

  lemma QuotableAnswer(o: Adapter, c: Chain, target: nat, window: nat)
    requires ValidAdapter(o) && Summarises(c) && CanQuote(c.pool, c.Now(), target, window)
    ensures Sound(c.pool, c.Now()) && 0 < window && c.genesis + window <= target <= c.Now()
    ensures PriceAt(o, c.pool, c.Now(), target, window)
         == Answer(o, c.ends, target - window - c.genesis, target - c.genesis)
  {
    hide PriceAt, QuoteOrFail, FlooredAverage;
    QuoteAgreement(o, c, target, window);
  }

  lemma AnswerOfPrefix(o: Adapter, ends: seq<int>, ticks: seq<int>, from: nat, to: nat)
    requires from < to <= |ends| && ticks == ends[..to]
    ensures Answer(o, ends, from, to) == Answer(o, ticks, from, to)
  {
    hide FlooredAverage, QuoteOrFail;
    AverageOfPrefix(ends, ticks, from, to);
  }

  /** Once an instant can be quoted, every later reading of it, after any run of swaps, growth and
      waiting, is the same, until the ring forgets the window's start or it is 2^32 seconds old. */
  lemma SealedAnswerNeverChanges(o: Adapter, c: Chain, events: seq<Event>, target: nat, window: nat)
    requires ValidAdapter(o) && Summarises(c) && CanQuote(c.pool, c.Now(), target, window)
    ensures var c' := Run(c, events);
      && Summarises(c') && Sound(c.pool, c.Now()) && Sound(c'.pool, c'.Now())
      && (CanQuote(c'.pool, c'.Now(), target, window)
          <==> EarliestTimestamp(c'.pool) <= target - window && c'.Now() - (target - window) <= 0xFFFF_FFFF)
      && (CanQuote(c'.pool, c'.Now(), target, window)
          ==> PriceAt(o, c'.pool, c'.Now(), target, window) == PriceAt(o, c.pool, c.Now(), target, window))
  {
    hide PriceAt;
    var c' := Run(c, events);
    RunKeepsSummary(c, events);
    SummaryIsSound(c);
    SummaryIsSound(c');
    QuoteAgreement(o, c, target, window);
    if CanQuote(c'.pool, c'.Now(), target, window) {
      AnswerDependsOnSealedHistoryOnly(o, c, c', target, window);
    }
  }

  /** The published price is always for an instant the pool has sealed. */
  lemma GetPriceIsSealed(o: Adapter, p: Pool, now: nat)
    requires Sound(p, now)
    ensures var (price, sealedAt) := GetPrice(o, p, now);
      && sealedAt <= now && sealedAt <= NewestTimestamp(p)
      && price == PriceAt(o, p, now, sealedAt, o.defaultTwapWindow)
      && price != Failed(TargetNotSealed) && price != Failed(TargetInFuture)
      && (forall t | t > sealedAt :: !CanQuote(p, now, t, o.defaultTwapWindow))
  {
  }

  /** Sealing decides only when an instant may be quoted, not its value: for a past instant the ring
      already extrapolates to what sealing it will record, whatever happens first. */
  lemma SealingFixesNothingNew(c: Chain, events: seq<Event>, target: nat)
    requires Summarises(c) && target <= c.Now()
    ensures var c' := Run(c, events);
      && Summarises(c') && |Live(c.pool)| > 0 && |Live(c'.pool)| > 0
      && (EarliestTimestamp(c'.pool) <= target ==>
            && CumulativeAt(Live(c.pool), c.pool.tick, target).Some?
            && CumulativeAt(Live(c'.pool), c'.pool.tick, target) == CumulativeAt(Live(c.pool), c.pool.tick, target))
  {
    hide CumulativeAt, Exact;
    var c' := Run(c, events);
    RunKeepsSummary(c, events);
    CumulativeIsIntegral(c, target);
    CumulativeIsIntegral(c', target);
    if EarliestTimestamp(c'.pool) <= target {
      IntegralOfPrefix(c.ends, c'.ends, target - c.genesis);
    }
  }

  // ---- pools that are not honest ------------------------------------------------------

  /** On any sound ring, honest or not: beside a positive probe the price is that of the floored mean of what
      the ring reports, and fails exactly when that mean leaves the tick domain or its price is not one. */
  lemma SoundAgreement(o: Adapter, p: Pool, now: nat, target: nat, window: nat) returns (delta: int)
    requires Sound(p, now) && CanQuote(p, now, target, window)
    ensures PriceAt(o, p, now, target, window)
         == match MeanTick(delta, window)
            case None => Failed(MeanTickOutOfRange)
            case Some(mean) => QuoteOrFail(o.sqrtRatio, mean, o.baseUnit, o.baseIsToken0)
    ensures var start, end := Observe(p, now, now - (target - window)), Observe(p, now, now - target);
      start.Some? && end.Some? && delta == end.value - start.value
    ensures PriceAt(o, p, now, target, window).Priced? ==> TickInRange(delta / window)
  {
    hide QuoteOrFail, Interpolate;
    EarliestIsFirstLive(p);
    delta := Observe(p, now, now - target).value - Observe(p, now, now - (target - window)).value;
    MeanTickFloors(delta, window);
  }

  /** A ring whose second observation claims a million ticks for every second since the first. */
  function Malformed(): Pool {
    Pool(seq(RING_SLOTS, i => if i == 0 then Observation(900, 0, true)
                              else if i == 1 then Observation(1100, 200_000_000, true) else Blank), 0, 1, 2, 2)
  }

  /** So a malformed accumulator beside a positive probe gives no price: the probe never reads the mean. */
  lemma MalformedPoolJams(o: Adapter)
    ensures Sound(Malformed(), 1100) && CanQuote(Malformed(), 1100, 1060, 60)
    ensures PriceAt(o, Malformed(), 1100, 1060, 60) == Failed(MeanTickOutOfRange)
    ensures forall c: Chain | c.pool == Malformed() && c.Now() == 1100 :: !Summarises(c)
  {
    var p := Malformed();
    var a, b := Observation(900, 0, true), Observation(1100, 200_000_000, true);
    assert Wrapped(p) && p.observations[2..2] == [];
    assert Live(p) == [a, b];
    assert Bracket([a, b], 1060) == 0 && Bracket([a, b], 1000) == 0 by {
      assert [a, b][..1] == [a];
    }
    assert TruncDiv(200_000_000, 200) == 1_000_000;
    assert Observe(p, 1100, 100) == Some(100_000_000) && Observe(p, 1100, 40) == Some(160_000_000);
    MeanTickIsFloor(60_000_000, 60, 1_000_000);
    forall c: Chain | c.pool == p && c.Now() == 1100
      ensures !Summarises(c)
    {
      if Summarises(c) {
        var mean := WindowReading(c, 1060, 60);
      }
    }
  }
}
