/** The pool over time: every reachable ring is an exact summary of the ticks each second ended with. */
module PoolHistory {
  import opened Util
  import opened TickPriceMath
  import opened ObservationPool

  /** A pool with the tick that each completed second since its creation ended with. */
  datatype Chain = Chain(pool: Pool, genesis: nat, ends: seq<int>) {
    function Now(): nat { genesis + |ends| }
  }

  datatype Event = Elapse(seconds: nat) | SwapTo(tick: int) | GrowTo(next: nat)

  function Created(now: nat, initialTick: int): Chain {
    Chain(Fresh(now, initialTick), now, [])
  }

  /** The sum of the first n end-of-second ticks. */
  function Integral(ends: seq<int>, n: nat): int
    requires n <= |ends|
  {
    if n == 0 then 0 else Integral(ends, n - 1) + ends[n - 1]
  }

  // ---- the ring summarises the history ------------------------------------------------

  /** The same tick ended every second from a to b. */
  ghost predicate Steady(ends: seq<int>, a: nat, b: nat, tick: int)
    requires b <= |ends|
  {
    forall i | a <= i < b :: ends[i] == tick
  }

  ghost predicate EntryExact(genesis: nat, ends: seq<int>, o: Observation) {
    && genesis <= o.blockTimestamp <= genesis + |ends|
    && o.tickCumulative == Integral(ends, o.blockTimestamp - genesis)
  }

  /** Between neighbouring observations the tick never moved across a second. */
  ghost predicate GapSteady(genesis: nat, ends: seq<int>, before: Observation, after: Observation) {
    && genesis <= before.blockTimestamp < after.blockTimestamp <= genesis + |ends|
    && Steady(ends, before.blockTimestamp - genesis, after.blockTimestamp - genesis,
              ends[before.blockTimestamp - genesis])
  }

  /** Nor has it since the newest one. */
  ghost predicate TailSteady(genesis: nat, ends: seq<int>, last: Observation, tick: int) {
    && genesis <= last.blockTimestamp
    && Steady(ends, last.blockTimestamp - genesis, |ends|, tick)
  }

  ghost predicate ExactRing(genesis: nat, ends: seq<int>, live: seq<Observation>) {
    && (forall k | 0 <= k < |live| :: EntryExact(genesis, ends, live[k]))
    && (forall k | 1 <= k < |live| :: GapSteady(genesis, ends, live[k - 1], live[k]))
  }

  ghost predicate Exact(c: Chain, live: seq<Observation>) {
    && |live| > 0
    && Ordered(live)
    && ExactRing(c.genesis, c.ends, live)
    && TailSteady(c.genesis, c.ends, live[|live| - 1], c.pool.tick)
  }

  ghost predicate TicksInRange(c: Chain) {
    TickInRange(c.pool.tick) && forall i | 0 <= i < |c.ends| :: TickInRange(c.ends[i])
  }

  ghost predicate Summarises(c: Chain) {
    && WellFormed(c.pool)
    && TicksInRange(c)
    && Exact(c, Live(c.pool))
  }

  lemma SummaryIsSound(c: Chain)
    requires Summarises(c)
    ensures Sound(c.pool, c.Now())
  {
    LiveEnds(c.pool);
  }

  // ---- steps --------------------------------------------------------------------------

  /** A swap outside the tick domain and a size beyond 16 bits cannot be requested. */
  function Step(c: Chain, e: Event): Chain
    requires Sound(c.pool, c.Now())
  {
    match e
    case Elapse(seconds) => c.(ends := c.ends + seq(seconds, _ => c.pool.tick))
    case SwapTo(tick) => if TickInRange(tick) then c.(pool := Swap(c.pool, c.Now(), tick)) else c
    case GrowTo(next) => if next <= RING_SLOTS then c.(pool := Grow(c.pool, next)) else c
  }

  lemma {:induction false} IntegralOfPrefix(ends: seq<int>, longer: seq<int>, n: nat)
    requires n <= |ends| <= |longer| && longer[..|ends|] == ends
    ensures Integral(longer, n) == Integral(ends, n)
  {
    if n > 0 {
      IntegralOfPrefix(ends, longer, n - 1);
      assert longer[..|ends|][n - 1] == longer[n - 1];
    }
  }

  lemma {:induction false} IntegralOfSteady(ends: seq<int>, a: nat, b: nat, tick: int)
    requires a <= b <= |ends| && Steady(ends, a, b, tick)
    ensures Integral(ends, b) == Integral(ends, a) + tick * (b - a)
  {
    if a < b {
      IntegralOfSteady(ends, a, b - 1, tick);
      assert tick * (b - a) == tick * (b - 1 - a) + tick;
    }
  }

  lemma ElapseKeepsRing(genesis: nat, ends: seq<int>, more: seq<int>, live: seq<Observation>)
    requires ExactRing(genesis, ends, live)
    ensures ExactRing(genesis, ends + more, live)
  {
    forall k | 0 <= k < |live|
      ensures EntryExact(genesis, ends + more, live[k])
    {
      assert EntryExact(genesis, ends, live[k]);
      IntegralOfPrefix(ends, ends + more, live[k].blockTimestamp - genesis);
    }
    forall k | 1 <= k < |live|
      ensures GapSteady(genesis, ends + more, live[k - 1], live[k])
    {
      assert GapSteady(genesis, ends, live[k - 1], live[k]);
    }
  }

  /** The observation a write adds is exact, because the tick has been steady since the last one. */
  lemma AppendKeepsRing(genesis: nat, ends: seq<int>, live: seq<Observation>, tick: int)
    requires |live| > 0 && Ordered(live) && ExactRing(genesis, ends, live)
    requires TailSteady(genesis, ends, live[|live| - 1], tick)
    requires live[|live| - 1].blockTimestamp < genesis + |ends|
    ensures var live' := live + [Transform(live[|live| - 1], genesis + |ends|, tick)];
      Ordered(live') && ExactRing(genesis, ends, live')
  {
    var last := live[|live| - 1];
    var added := Transform(last, genesis + |ends|, tick);
    assert EntryExact(genesis, ends, last);
    IntegralOfSteady(ends, last.blockTimestamp - genesis, |ends|, tick);
    assert EntryExact(genesis, ends, added);
    assert GapSteady(genesis, ends, last, added);
  }

  lemma SwapKeepsSummary(c: Chain, tick: int)
    requires Summarises(c) && Sound(c.pool, c.Now()) && TickInRange(tick)
    ensures Summarises(c.(pool := Swap(c.pool, c.Now(), tick)))
  {
    hide ExactRing, Ordered;
    var p, live := c.pool, Live(c.pool);
    LiveEnds(p);
    if tick == p.tick {
      Retick(p, tick);
    } else if Newest(p).blockTimestamp == c.Now() {
      Retick(p, tick);
    } else {
      WriteAppends(p, c.Now());
      Retick(Write(p, c.Now()), tick);
      WriteKeepsRing(c, live);
      assert Exact(c.(pool := Swap(p, c.Now(), tick)), Live(Write(p, c.Now())));
    }
  }

  /** The entries after a write, whether or not the oldest one was overwritten. */
  lemma WriteKeepsRing(c: Chain, live: seq<Observation>)
    requires Exact(c, live) && live[|live| - 1].blockTimestamp < c.Now()
    ensures var added := [Transform(live[|live| - 1], c.Now(), c.pool.tick)];
      && Ordered(live + added) && ExactRing(c.genesis, c.ends, live + added)
      && Ordered(live[1..] + added) && ExactRing(c.genesis, c.ends, live[1..] + added)
  {
    var added := [Transform(live[|live| - 1], c.Now(), c.pool.tick)];
    AppendKeepsRing(c.genesis, c.ends, live, c.pool.tick);
    assert (live + added)[1..] == live[1..] + added;
    DropKeepsRing(c.genesis, c.ends, live + added);
  }

  lemma DropKeepsRing(genesis: nat, ends: seq<int>, live: seq<Observation>)
    requires |live| > 0 && Ordered(live) && ExactRing(genesis, ends, live)
    ensures Ordered(live[1..]) && ExactRing(genesis, ends, live[1..])
  {
    assert forall k | 1 <= k < |live[1..]| :: live[1..][k - 1] == live[k];
  }

  /** A second swap within one second moves only the live tick. */
  lemma Retick(p: Pool, tick: int)
    requires WellFormed(p)
    ensures WellFormed(p.(tick := tick)) && Live(p.(tick := tick)) == Live(p)
  {
  }

  lemma StepKeepsSummary(c: Chain, e: Event)
    requires Summarises(c) && Sound(c.pool, c.Now())
    ensures Summarises(Step(c, e))
  {
    match e
    case Elapse(seconds) =>
      ElapseKeepsRing(c.genesis, c.ends, seq(seconds, _ => c.pool.tick), Live(c.pool));
    case SwapTo(tick) =>
      if TickInRange(tick) { SwapKeepsSummary(c, tick); }
    case GrowTo(next) =>
      if next <= RING_SLOTS {
        GrowKeepsLive(c.pool, next);
        assert Live(Step(c, e).pool) == Live(c.pool);
      }
  }

  lemma CreatedSummarises(now: nat, initialTick: int)
    requires TickInRange(initialTick)
    ensures Summarises(Created(now, initialTick))
  {
    var c := Created(now, initialTick);
    assert Live(c.pool) == [Observation(now, 0, true)];
  }

  // ---- runs ---------------------------------------------------------------------------

  ghost function Run(c: Chain, events: seq<Event>): Chain
    requires Summarises(c)
    decreases |events|
  {
    if events == [] then c
    else
      SummaryIsSound(c);
      StepKeepsSummary(c, events[0]);
      Run(Step(c, events[0]), events[1..])
  }

  /** In every run the ring stays an exact summary; history only grows, and the answerable span only
      moves forward. */
  lemma {:induction false} RunKeepsSummary(c: Chain, events: seq<Event>)
    requires Summarises(c)
    ensures var c' := Run(c, events);
      && Summarises(c') && c'.genesis == c.genesis && c.ends <= c'.ends
      && NewestTimestamp(c.pool) <= NewestTimestamp(c'.pool)
      && EarliestTimestamp(c.pool) <= EarliestTimestamp(c'.pool)
    decreases |events|
  {
    if events != [] {
      SummaryIsSound(c);
      var c1 := Step(c, events[0]);
      StepKeepsSummary(c, events[0]);
      StepMovesForward(c, events[0]);
      RunKeepsSummary(c1, events[1..]);
      assert c.ends <= c1.ends;
    }
  }

  lemma StepMovesForward(c: Chain, e: Event)
    requires Summarises(c) && Sound(c.pool, c.Now())
    ensures var c' := Step(c, e);
      && Shape(c'.pool) && c'.genesis == c.genesis && c.ends <= c'.ends
      && NewestTimestamp(c.pool) <= NewestTimestamp(c'.pool)
      && EarliestTimestamp(c.pool) <= EarliestTimestamp(c'.pool)
  {
    var c' := Step(c, e);
    StepKeepsSummary(c, e);
    EarliestIsFirstLive(c.pool);
    EarliestIsFirstLive(c'.pool);
    LiveEnds(c.pool);
    LiveEnds(c'.pool);
    match e {
      case Elapse(seconds) =>
      case GrowTo(next) => if next <= RING_SLOTS { GrowKeepsLive(c.pool, next); }
      case SwapTo(tick) =>
        if TickInRange(tick) && tick != c.pool.tick && Newest(c.pool).blockTimestamp < c.Now() {
          WriteAppends(c.pool, c.Now());
          Retick(Write(c.pool, c.Now()), tick);
        }
    }
  }

  /** Swaps and growth within a second leave the history alone. */
  lemma {:induction false} WithinOneSecond(c: Chain, events: seq<Event>)
    requires Summarises(c) && forall i | 0 <= i < |events| :: !events[i].Elapse?
    ensures Run(c, events).genesis == c.genesis && Run(c, events).ends == c.ends
    decreases |events|
  {
    if events != [] {
      SummaryIsSound(c);
      StepKeepsSummary(c, events[0]);
      WithinOneSecond(Step(c, events[0]), events[1..]);
    }
  }

  /** What later seconds end on depends on the live tick alone, never on the ring. */
  lemma {:induction false} SameTickSameFuture(c: Chain, d: Chain, more: seq<Event>)
    requires Summarises(c) && Summarises(d)
    requires c.genesis == d.genesis && c.ends == d.ends && c.pool.tick == d.pool.tick
    ensures var x, y := Run(c, more), Run(d, more);
      x.genesis == y.genesis && x.ends == y.ends && x.pool.tick == y.pool.tick
    decreases |more|
  {
    if more != [] {
      SummaryIsSound(c);
      SummaryIsSound(d);
      StepKeepsSummary(c, more[0]);
      StepKeepsSummary(d, more[0]);
      SameTickSameFuture(Step(c, more[0]), Step(d, more[0]), more[1..]);
    }
  }

  // ---- reading the ring is reading the history ----------------------------------------

  /** Dividing before multiplying loses nothing: between two observations the tick was one value. */
  lemma InterpolationIsExact(genesis: nat, ends: seq<int>, before: Observation, after: Observation, target: nat)
    requires EntryExact(genesis, ends, before) && EntryExact(genesis, ends, after)
    requires GapSteady(genesis, ends, before, after)
    requires before.blockTimestamp <= target <= after.blockTimestamp
    ensures Interpolate(before, after, target) == Integral(ends, target - genesis)
  {
    var a, b, t := before.blockTimestamp - genesis, after.blockTimestamp - genesis, target - genesis;
    IntegralOfSteady(ends, a, b, ends[a]);
    IntegralOfSteady(ends, a, t, ends[a]);
    TruncDivOfMultiple(ends[a], b - a);
  }

  lemma TruncDivOfMultiple(tick: int, n: nat)
    requires n > 0
    ensures TruncDiv(tick * n, n) == tick
  {
    if tick >= 0 {
      MulMono(0, tick, n);
      DivUnique(tick * n, n, tick);
    } else {
      MulMono(1, -tick, n);
      assert -(tick * n) == (-tick) * n;
      DivUnique((-tick) * n, n, -tick);
    }
  }

  /** The accumulator at every instant the ring still reaches, up to the present, is exactly the sum of
      the ticks that the seconds before it ended with. */
  lemma CumulativeIsIntegral(c: Chain, target: nat)
    requires Summarises(c) && target <= c.Now()
    ensures |Live(c.pool)| > 0 && c.genesis <= EarliestTimestamp(c.pool)
    ensures CumulativeAt(Live(c.pool), c.pool.tick, target)
         == if target < EarliestTimestamp(c.pool) then None else Some(Integral(c.ends, target - c.genesis))
  {
    hide Interpolate;
    var live := Live(c.pool);
    EarliestIsFirstLive(c.pool);
    assert EntryExact(c.genesis, c.ends, live[0]);
    if target >= live[0].blockTimestamp {
      var k := Bracket(live, target);
      assert EntryExact(c.genesis, c.ends, live[k]);
      if k + 1 == |live| {
        IntegralOfSteady(c.ends, live[k].blockTimestamp - c.genesis, target - c.genesis, c.pool.tick);
      } else {
        assert GapSteady(c.genesis, c.ends, live[k + 1 - 1], live[k + 1]);
        InterpolationIsExact(c.genesis, c.ends, live[k], live[k + 1], target);
      }
    }
  }

  /** What `observe` answers: the integral of the history, or "too old". */
  lemma ObserveIsIntegral(c: Chain, secondsAgo: nat)
    requires Summarises(c) && secondsAgo <= c.Now()
    ensures Sound(c.pool, c.Now()) && c.genesis <= EarliestTimestamp(c.pool)
    ensures var target := c.Now() - secondsAgo;
      Observe(c.pool, c.Now(), secondsAgo)
      == if target < EarliestTimestamp(c.pool) then None else Some(Integral(c.ends, target - c.genesis))
  {
    hide CumulativeAt, Exact;
    SummaryIsSound(c);
    CumulativeIsIntegral(c, c.Now() - secondsAgo);
  }

  /** A displacement undone before its second is over leaves no trace in any answer: after any later
      events the disturbed pool and the undisturbed one have lived through the same seconds, and at every
      instant both rings still reach they read the same. */
  lemma DisplacementLeavesNoTrace(c: Chain, events: seq<Event>, more: seq<Event>, secondsAgo: nat)
    requires Summarises(c) && forall i | 0 <= i < |events| :: !events[i].Elapse?
    requires Run(c, events).pool.tick == c.pool.tick
    ensures Summarises(Run(c, events))
    ensures var x, y := Run(Run(c, events), more), Run(c, more);
      && Summarises(x) && Summarises(y) && Sound(x.pool, x.Now()) && Sound(y.pool, y.Now())
      && x.genesis == y.genesis && x.ends == y.ends && x.pool.tick == y.pool.tick
      && (secondsAgo <= y.Now() ==>
            var disturbed, plain := Observe(x.pool, x.Now(), secondsAgo), Observe(y.pool, y.Now(), secondsAgo);
            disturbed.Some? && plain.Some? ==> disturbed == plain)
  {
    hide Observe, Exact, WellFormed;
    RunKeepsSummary(c, events);
    RunKeepsSummary(Run(c, events), more);
    RunKeepsSummary(c, more);
    WithinOneSecond(c, events);
    SameTickSameFuture(Run(c, events), c, more);
    var x, y := Run(Run(c, events), more), Run(c, more);
    SummaryIsSound(x);
    SummaryIsSound(y);
    if secondsAgo <= y.Now() {
      ObserveIsIntegral(x, secondsAgo);
      ObserveIsIntegral(y, secondsAgo);
    }
  }

  /** Sums of ticks in range stay in range on average. */
  lemma {:induction false} IntegralBounds(ends: seq<int>, a: nat, b: nat)
    requires a <= b <= |ends| && forall i | 0 <= i < |ends| :: TickInRange(ends[i])
    ensures MIN_TICK * (b - a) <= Integral(ends, b) - Integral(ends, a) <= MAX_TICK * (b - a)
  {
    if a < b {
      IntegralBounds(ends, a, b - 1);
    }
  }

  /** For 2^32 seconds of history the accumulator fits the 56-bit word it is stored in. */
  lemma AccumulatorFitsItsWord(c: Chain, n: nat)
    requires Summarises(c) && n <= |c.ends| && |c.ends| < TWO_32
    ensures -0x80_0000_0000_0000 <= Integral(c.ends, n) < 0x80_0000_0000_0000
  {
    IntegralBounds(c.ends, 0, n);
  }
}
