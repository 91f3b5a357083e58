/** Several pools that must agree before they answer with their median. */
module CompositePonsOracle {
  import opened Util
  import opened TickPriceMath
  import opened ObservationPool
  import opened PoolHistory
  import opened UniswapV3PonsOracle
  import opened Median

  const MAX_SOURCES: nat := 5
  const INT24_MAX: int := 8_388_607
  const INT24_MIN: int := -8_388_608

  datatype Source = Source(pool: Pool, baseIsToken0: bool)

  datatype Composite = Composite(
    sources: seq<Source>, baseUnit: nat, defaultTwapWindow: nat, maxDivergenceBps: nat, sqrtRatio: int -> nat)

  ghost predicate ValidComposite(o: Composite) {
    && 1 <= |o.sources| <= MAX_SOURCES
    && TickTable(o.sqrtRatio)
    && 0 < o.baseUnit < TWO_128
    && 0 < o.defaultTwapWindow <= MAX_TWAP_WINDOW
    && o.maxDivergenceBps > 0
  }

  ghost predicate SoundSources(o: Composite, now: nat) {
    forall i | 0 <= i < |o.sources| :: Sound(o.sources[i].pool, now)
  }

  /** What one source says: nothing, a tick, or a revert that is not caught. */
  datatype Reading = Unavailable | Reverts | Tick(tick: int)

  /** The source's mean tick, turned so that a rising tick is a rising base price. */
  function SourceTick(s: Source, now: nat, target: nat, window: nat): Reading
    requires Sound(s.pool, now) && 0 < window <= target <= now
  {
    if NewestTimestamp(s.pool) < target then Unavailable
    else if target - window < EarliestTimestamp(s.pool) then Unavailable
    else if now - (target - window) > MAX_UINT32 then Unavailable
    else
      match (Observe(s.pool, now, now - (target - window)), Observe(s.pool, now, now - target))
      case (Some(start), Some(end)) =>
        (match MeanTick(end - start, window)
         case None => Reverts
         case Some(raw) => Tick(if s.baseIsToken0 then raw else -raw))
      case _ => Unavailable
  }

  function Readings(o: Composite, now: nat, target: nat, window: nat): (readings: seq<Reading>)
    requires SoundSources(o, now) && 0 < window <= target <= now
    ensures |readings| == |o.sources|
    ensures forall i | 0 <= i < |o.sources| :: readings[i] == SourceTick(o.sources[i], now, target, window)
  {
    seq(|o.sources|, i requires 0 <= i < |o.sources| => SourceTick(o.sources[i], now, target, window))
  }

  /** The sources are read in order, up to the first that does not give a tick. */
  datatype Gathered = Ticks(ticks: seq<int>) | Stopped(why: Failure)

  function Gather(readings: seq<Reading>): Gathered {
    if readings == [] then Ticks([])
    else
      match Gather(readings[..|readings| - 1])
      case Stopped(why) => Stopped(why)
      case Ticks(ticks) =>
        match readings[|readings| - 1]
        case Unavailable => Stopped(SourceUnavailable)
        case Reverts => Stopped(MeanTickOutOfRange)
        case Tick(tick) => Ticks(ticks + [tick])
  }

  function Low(ticks: seq<int>): int {
    if ticks == [] then INT24_MAX
    else
      var low := Low(ticks[..|ticks| - 1]);
      if ticks[|ticks| - 1] < low then ticks[|ticks| - 1] else low
  }

  function High(ticks: seq<int>): int {
    if ticks == [] then INT24_MIN
    else
      var high := High(ticks[..|ticks| - 1]);
      if ticks[|ticks| - 1] > high then ticks[|ticks| - 1] else high
  }

  function SpreadBps(low: int, high: int): nat {
    if high <= low then 0 else high - low
  }

  function CheckRequest(now: nat, target: nat, window: nat): Option<Failure> {
    if window == 0 then Some(ZeroWindow)
    else if window > MAX_TWAP_WINDOW then Some(WindowTooLong)
    else if target > now then Some(TargetInFuture)
    else if target < window then Some(WindowStartUnderflow)
    else None
  }

  lemma {:induction false} GatherCounts(readings: seq<Reading>)
    ensures Gather(readings).Ticks? <==> forall i | 0 <= i < |readings| :: readings[i].Tick?
    ensures Gather(readings).Ticks? ==> |Gather(readings).ticks| == |readings|
    ensures Gather(readings).Ticks? ==> forall i | 0 <= i < |readings| :: readings[i] == Tick(Gather(readings).ticks[i])
  {
    if readings != [] {
      GatherCounts(readings[..|readings| - 1]);
    }
  }

  lemma {:induction false} StoppedStaysStopped(readings: seq<Reading>, n: nat)
    requires n <= |readings| && Gather(readings[..n]).Stopped?
    ensures Gather(readings) == Gather(readings[..n])
    decreases |readings|
  {
    if n < |readings| {
      var front := readings[..|readings| - 1];
      assert front[..n] == readings[..n];
      StoppedStaysStopped(front, n);
    } else {
      assert readings[..n] == readings;
    }
  }

  predicate Passes(gate: nat, readings: seq<Reading>) {
    match Gather(readings)
    case Stopped(_) => false
    case Ticks(ticks) => SpreadBps(Low(ticks), High(ticks)) <= gate
  }

  function Judge(o: Composite, readings: seq<Reading>): Price
    requires |readings| > 0
  {
    GatherCounts(readings);
    match Gather(readings)
    case Stopped(why) => Failed(why)
    case Ticks(ticks) =>
      if SpreadBps(Low(ticks), High(ticks)) > o.maxDivergenceBps then Failed(SourcesDiverged)
      else QuoteOrFail(o.sqrtRatio, MedianOf(ticks), o.baseUnit, true)
  }

  function PriceAtSpec(o: Composite, now: nat, target: nat, window: nat): Price
    requires SoundSources(o, now) && |o.sources| > 0
  {
    match CheckRequest(now, target, window)
    case Some(why) => Failed(why)
    case None => Judge(o, Readings(o, now, target, window))
  }

  /** The probe: the same readings and gate, but no quote. */
  predicate CanQuoteSpec(o: Composite, now: nat, target: nat, window: nat)
    requires SoundSources(o, now)
  {
    CheckRequest(now, target, window).None? && Passes(o.maxDivergenceBps, Readings(o, now, target, window))
  }

  // ---- the loops ----------------------------------------------------------------------

  lemma NoReadings()
    ensures Gather([]) == Ticks([]) && Low([]) == INT24_MAX && High([]) == INT24_MIN
  {
  }

  /** One more reading: the gathered ticks grow by it, or gathering stops there for good. */
  lemma GatherOne(readings: seq<Reading>, i: nat, ticks: seq<int>)
    requires i < |readings| && Gather(readings[..i]) == Ticks(ticks)
    ensures match readings[i]
            case Unavailable => Gather(readings) == Stopped(SourceUnavailable)
            case Reverts => Gather(readings) == Stopped(MeanTickOutOfRange)
            case Tick(tick) => Gather(readings[..i + 1]) == Ticks(ticks + [tick])
  {
    assert readings[..i + 1][..i] == readings[..i];
    if !readings[i].Tick? {
      StoppedStaysStopped(readings, i + 1);
    }
  }

  /** The running extremes after one more tick. */
  lemma ExtremesOne(ticks: seq<int>, tick: int)
    ensures Low(ticks + [tick]) == if tick < Low(ticks) then tick else Low(ticks)
    ensures High(ticks + [tick]) == if tick > High(ticks) then tick else High(ticks)
  {
    assert (ticks + [tick])[..|ticks|] == ticks;
  }

  method PriceAt(o: Composite, now: nat, target: nat, window: nat) returns (price: Price)
    requires SoundSources(o, now) && |o.sources| > 0
    ensures price == PriceAtSpec(o, now, target, window)
  {
    hide SourceTick, QuoteOrFail, MedianOf, Gather, Low, High;
    if window == 0 { return Failed(ZeroWindow); }
    if window > MAX_TWAP_WINDOW { return Failed(WindowTooLong); }
    if target > now { return Failed(TargetInFuture); }
    if target < window { return Failed(WindowStartUnderflow); }
    ghost var readings := Readings(o, now, target, window);
    NoReadings();
    var ticks := new int[|o.sources|];
    var low, high := INT24_MAX, INT24_MIN;
    var i := 0;
    while i < |o.sources|
      invariant 0 <= i <= |o.sources|
      invariant Gather(readings[..i]) == Ticks(ticks[..i])
      invariant low == Low(ticks[..i]) && high == High(ticks[..i])
    {
      GatherOne(readings, i, ticks[..i]);
      var reading := SourceTick(o.sources[i], now, target, window);
      if !reading.Tick? {
        return Failed(if reading.Unavailable? then SourceUnavailable else MeanTickOutOfRange);
      }
      ExtremesOne(ticks[..i], reading.tick);
      ticks[i] := reading.tick;
      assert ticks[..i + 1] == ticks[..i] + [reading.tick];
      if reading.tick < low { low := reading.tick; }
      if reading.tick > high { high := reading.tick; }
      i := i + 1;
    }
    assert ticks[..i] == ticks[..] && readings[..i] == readings;
    var spread := SpreadBps(low, high);
    if spread > o.maxDivergenceBps { return Failed(SourcesDiverged); }
    var median := Median.Median(ticks);
    price := QuoteOrFail(o.sqrtRatio, median, o.baseUnit, true);
  }

  /** The probe call reverts only when the first source that gives no tick has a mean outside the tick
      domain; otherwise it answers, and the answer is the specified one. */
  method CanQuote(o: Composite, now: nat, target: nat, window: nat) returns (ok: bool, reverted: bool)
    requires SoundSources(o, now)
    ensures ok == CanQuoteSpec(o, now, target, window)
    ensures reverted <==>
      && CheckRequest(now, target, window).None?
      && Gather(Readings(o, now, target, window)) == Stopped(MeanTickOutOfRange)
  {
    hide SourceTick, Gather, Low, High;
    if window == 0 || window > MAX_TWAP_WINDOW || target > now || target < window { return false, false; }
    ghost var readings, ticks: seq<int> := Readings(o, now, target, window), [];
    NoReadings();
    var low, high := INT24_MAX, INT24_MIN;
    var i := 0;
    while i < |o.sources|
      invariant 0 <= i <= |o.sources|
      invariant Gather(readings[..i]) == Ticks(ticks)
      invariant low == Low(ticks) && high == High(ticks)
    {
      GatherOne(readings, i, ticks);
      var reading := SourceTick(o.sources[i], now, target, window);
      if !reading.Tick? { return false, reading.Reverts?; }
      ExtremesOne(ticks, reading.tick);
      ticks := ticks + [reading.tick];
      if reading.tick < low { low := reading.tick; }
      if reading.tick > high { high := reading.tick; }
      i := i + 1;
    }
    assert readings[..i] == readings;
    return SpreadBps(low, high) <= o.maxDivergenceBps, false;
  }

  /** The newest instant that every source has sealed. */
  method NewestCommonObservation(o: Composite) returns (oldestNewest: nat)
    requires |o.sources| > 0 && forall i | 0 <= i < |o.sources| :: Shape(o.sources[i].pool)
    ensures forall i | 0 <= i < |o.sources| :: oldestNewest <= NewestTimestamp(o.sources[i].pool)
    ensures exists i | 0 <= i < |o.sources| :: oldestNewest == NewestTimestamp(o.sources[i].pool)
  {
    oldestNewest := NewestTimestamp(o.sources[0].pool);
    var i := 1;
    while i < |o.sources|
      invariant 1 <= i <= |o.sources|
      invariant forall j | 0 <= j < i :: oldestNewest <= NewestTimestamp(o.sources[j].pool)
      invariant exists j | 0 <= j < i :: oldestNewest == NewestTimestamp(o.sources[j].pool)
    {
      var ts := NewestTimestamp(o.sources[i].pool);
      if ts < oldestNewest { oldestNewest := ts; }
      i := i + 1;
    }
  }
}
