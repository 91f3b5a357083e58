/** The pool with its ring in an array: swaps and growth in place, and `observe` by binary search. */
module MockUniswapV3Pool {
  import opened Util
  import opened TickPriceMath
  import opened ObservationPool

  /** Comparison of 32-bit timestamps that have passed zero at most once. */
  function Lte(time: nat, a: nat, b: nat): bool {
    if a <= time && b <= time then a <= b
    else (if a > time then a else a + TWO_32) <= (if b > time then b else b + TWO_32)
  }

  // ---- the search range ---------------------------------------------------------------

  /** Where the live entries begin in the unrolled ring that the search walks. */
  function Start(p: Pool): nat
    requires Shape(p)
  {
    if Wrapped(p) then After(p.index, p.cardinality) else p.cardinality
  }

  /** Unrolled position i is empty before the live entries and entry i - Start from there on. */
  lemma Unrolled(p: Pool, i: nat)
    requires WellFormed(p) && After(p.index, p.cardinality) <= i < After(p.index, p.cardinality) + p.cardinality
    ensures i % p.cardinality < RING_SLOTS
    ensures var o := p.observations[i % p.cardinality];
      if i < Start(p) then !o.initialized else i - Start(p) < |Live(p)| && o == Live(p)[i - Start(p)] && o.initialized
  {
    LiveEnds(p);
    if i < p.cardinality {
      ModuloWithin(i, 0, p.cardinality);
    } else {
      ModuloWithin(i - p.cardinality, 1, p.cardinality);
    }
  }

  lemma StartToNewest(p: Pool)
    requires WellFormed(p)
    ensures Start(p) + |Live(p)| == After(p.index, p.cardinality) + p.cardinality
  {
    LiveEnds(p);
  }

  lemma BracketIs(live: seq<Observation>, target: nat, k: nat)
    requires Ordered(live) && k < |live| && live[0].blockTimestamp <= target
    requires live[k].blockTimestamp <= target
    requires k + 1 == |live| || target < live[k + 1].blockTimestamp
    ensures Bracket(live, target) == k
  {
    assert Bracket(live, target) >= k;
    assert Bracket(live, target) <= k;
  }

  lemma CumulativeFromNewest(live: seq<Observation>, tick: int, target: nat)
    requires |live| > 0 && Ordered(live) && live[|live| - 1].blockTimestamp <= target
    ensures var last := live[|live| - 1];
      CumulativeAt(live, tick, target) == Some(last.tickCumulative + tick * (target - last.blockTimestamp))
  {
    BracketIs(live, target, |live| - 1);
  }

  predicate Surrounds(before: Observation, after: Observation, target: nat) {
    before.blockTimestamp == target || before.blockTimestamp < target <= after.blockTimestamp
  }

  /** The value read off a surrounding pair, whichever end the target falls on. */
  function ReadPair(before: Observation, after: Observation, target: nat): int
    requires Surrounds(before, after, target)
  {
    if target == before.blockTimestamp then before.tickCumulative
    else if target == after.blockTimestamp then after.tickCumulative
    else Interpolate(before, after, target)
  }

  lemma NewestReadsCumulative(live: seq<Observation>, tick: int, target: nat)
    requires |live| > 0 && Ordered(live) && live[|live| - 1].blockTimestamp <= target
    ensures var last := live[|live| - 1];
      var after := if last.blockTimestamp == target then Blank else Transform(last, target, tick);
      Surrounds(last, after, target) && CumulativeAt(live, tick, target) == Some(ReadPair(last, after, target))
  {
    CumulativeFromNewest(live, tick, target);
  }

  lemma AccumulatorNow(live: seq<Observation>, tick: int, now: nat)
    requires |live| > 0 && Ordered(live) && live[|live| - 1].blockTimestamp <= now
    ensures var last := live[|live| - 1];
      CumulativeAt(live, tick, now)
      == Some((if last.blockTimestamp == now then last else Transform(last, now, tick)).tickCumulative)
  {
    CumulativeFromNewest(live, tick, now);
  }

  lemma OldestSlot(p: Pool)
    requires WellFormed(p)
    ensures (p.index + 1) % p.cardinality < RING_SLOTS && |Live(p)| > 0
    ensures var o := p.observations[(p.index + 1) % p.cardinality];
      (if o.initialized then o else p.observations[0]).blockTimestamp == Live(p)[0].blockTimestamp
  {
    AfterIsModulo(p.index, p.cardinality);
    EarliestIsFirstLive(p);
  }

  lemma PairReadsCumulative(live: seq<Observation>, tick: int, target: nat, k: nat)
    requires Ordered(live) && k + 1 < |live|
    requires live[k].blockTimestamp <= target <= live[k + 1].blockTimestamp
    ensures Surrounds(live[k], live[k + 1], target)
    ensures CumulativeAt(live, tick, target) == Some(ReadPair(live[k], live[k + 1], target))
  {
    if target < live[k + 1].blockTimestamp {
      BracketIs(live, target, k);
    } else {
      BracketIs(live, target, k + 1);
    }
  }

  /** What reading unrolled position i gives: an empty slot before the live entries, then the entries in
      order; the position after the newest wraps around to something irrelevant. */
  ghost predicate Holds(p: Pool, i: nat, o: Observation)
    requires Shape(p)
  {
    if i < Start(p) then !o.initialized
    else i - Start(p) < |Live(p)| ==> o == Live(p)[i - Start(p)] && o.initialized
  }

  /** What one probe of the search learns: an empty or younger-than-wanted slot rules out its side,
      and otherwise the slot and its neighbour are adjacent live entries. */
  lemma Probe(live: seq<Observation>, time: nat, target: nat, at: nat, o: Observation, next: Observation)
    requires at < |live| && Ordered(live) && live[|live| - 1].blockTimestamp <= time
    requires live[0].blockTimestamp <= target < live[|live| - 1].blockTimestamp
    requires o == live[at] && (at + 1 < |live| ==> next == live[at + 1])
    ensures var answer := Bracket(live, target);
      if !Lte(time, o.blockTimestamp, target) then answer < at
      else
        && at <= answer && at + 1 < |live| && o.blockTimestamp <= target
        && (if Lte(time, target, next.blockTimestamp) then target <= next.blockTimestamp else at < answer)
  {
  }

  lemma SlotInRing(p: Pool, i: nat)
    requires Shape(p)
    ensures i % p.cardinality < RING_SLOTS
  {
  }

  class UniswapV3Pool {
    const observations: array<Observation>
    var tick: int
    var observationIndex: nat
    var observationCardinality: nat
    var observationCardinalityNext: nat

    ghost function View(): Pool
      reads this, observations
    {
      Pool(observations[..], tick, observationIndex, observationCardinality, observationCardinalityNext)
    }

    ghost predicate Valid(now: nat)
      reads this, observations
    {
      Sound(View(), now)
    }

    constructor (now: nat, initialTick: int)
      ensures Valid(now) && View() == Fresh(now, initialTick)
      ensures fresh(observations)
    {
      observations := new Observation[RING_SLOTS](i => if i == 0 then Observation(now, 0, true) else Blank);
      tick, observationIndex := initialTick, 0;
      observationCardinality, observationCardinalityNext := 1, 1;
      new;
      assert View() == Fresh(now, initialTick);
      assert Live(View()) == [Observation(now, 0, true)];
    }

    method IncreaseObservationCardinalityNext(ghost now: nat, next: nat)
      requires Valid(now) && next <= RING_SLOTS
      modifies this`observationCardinalityNext, observations
      ensures Valid(now) && View() == Grow(old(View()), next)
    {
      ghost var p := View();
      GrowKeepsLive(p, next);
      if next > observationCardinalityNext {
        var i := observationCardinalityNext;
        while i < next
          invariant observationCardinalityNext <= i <= next
          invariant forall j | 0 <= j < RING_SLOTS ::
            observations[j] == if p.cardinalityNext <= j < i
                               then p.observations[j].(blockTimestamp := 1) else p.observations[j]
        {
          observations[i] := observations[i].(blockTimestamp := 1);
          i := i + 1;
        }
        observationCardinalityNext := next;
        assert View().observations == Grow(p, next).observations;
      }
    }

    method WriteObservation(now: nat)
      requires Valid(now)
      modifies this`observationIndex, this`observationCardinality, observations
      ensures View() == Write(old(View()), now)
    {
      var last := observations[observationIndex];
      if last.blockTimestamp == now { return; }
      var cardinality := observationCardinality;
      if observationCardinalityNext > observationCardinality && observationIndex == observationCardinality - 1 {
        cardinality := observationCardinalityNext;
      }
      AfterIsModulo(observationIndex, cardinality);
      var index := (observationIndex + 1) % cardinality;
      observations[index] := Transform(last, now, tick);
      observationIndex, observationCardinality := index, cardinality;
    }

    method SwapToTick(now: nat, newTick: int)
      requires Valid(now)
      modifies this`tick, this`observationIndex, this`observationCardinality, observations
      ensures View() == Swap(old(View()), now, newTick)
    {
      if newTick != tick {
        WriteObservation(now);
      }
      tick := newTick;
    }

    /** The unrolled position of the slot after the newest. */
    method Oldest() returns (l: nat)
      requires WellFormed(View())
      ensures l == After(observationIndex, observationCardinality)
    {
      AfterIsModulo(observationIndex, observationCardinality);
      l := (observationIndex + 1) % observationCardinality;
    }

    method ReadSlot(i: nat) returns (o: Observation)
      requires WellFormed(View())
      requires After(observationIndex, observationCardinality) <= i
      requires i <= After(observationIndex, observationCardinality) + observationCardinality
      ensures Holds(View(), i, o)
    {
      ghost var p := View();
      LiveEnds(p);
      StartToNewest(p);
      SlotInRing(p, i);
      o := observations[i % observationCardinality];
      if i < After(p.index, p.cardinality) + p.cardinality {
        Unrolled(p, i);
      }
    }

    /** The neighbours of a target strictly older than the newest observation. */
    method BinarySearch(time: nat, target: nat) returns (beforeOrAt: Observation, atOrAfter: Observation, ghost k: nat)
      requires Valid(time) && Live(View()) != []
      requires Live(View())[0].blockTimestamp <= target < NewestTimestamp(View())
      ensures k + 1 < |Live(View())| && beforeOrAt == Live(View())[k] && atOrAfter == Live(View())[k + 1]
      ensures beforeOrAt.blockTimestamp <= target <= atOrAfter.blockTimestamp
    {
      ghost var p, live, start := View(), Live(View()), Start(View());
      LiveEnds(p);
      StartToNewest(p);
      var l := Oldest();
      var r := l + observationCardinality - 1;
      while true
        invariant After(p.index, p.cardinality) <= l <= start + Bracket(live, target) <= r
        invariant r < After(p.index, p.cardinality) + p.cardinality
        decreases r - l
      {
        var i := (l + r) / 2;
        beforeOrAt := ReadSlot(i);
        if !beforeOrAt.initialized {
          l := i + 1;
          continue;
        }
        atOrAfter := ReadSlot(i + 1);
        var targetAtOrAfter := Lte(time, beforeOrAt.blockTimestamp, target);
        k := i - start;
        Probe(live, time, target, k, beforeOrAt, atOrAfter);
        if targetAtOrAfter && Lte(time, target, atOrAfter.blockTimestamp) { return; }
        if !targetAtOrAfter { r := i - 1; } else { l := i + 1; }
      }
    }

    /** A pair that the accumulator at `target` can be read from, unless the ring is too short. */
    method SurroundingObservations(time: nat, target: nat) returns (pair: Option<(Observation, Observation)>)
      requires Valid(time) && Live(View()) != [] && target <= time
      ensures pair.None? <==> CumulativeAt(Live(View()), tick, target).None?
      ensures pair.Some? ==> Surrounds(pair.value.0, pair.value.1, target)
      ensures pair.Some? ==>
        CumulativeAt(Live(View()), tick, target) == Some(ReadPair(pair.value.0, pair.value.1, target))
    {
      ghost var live := Live(View());
      LiveEnds(View());
      var newest := observations[observationIndex];
      if Lte(time, newest.blockTimestamp, target) {
        NewestReadsCumulative(live, tick, target);
        if newest.blockTimestamp == target { return Some((newest, Blank)); }
        return Some((newest, Transform(newest, target, tick)));
      }
      OldestSlot(View());
      var oldest := observations[(observationIndex + 1) % observationCardinality];
      if !oldest.initialized { oldest := observations[0]; }
      if !Lte(time, oldest.blockTimestamp, target) { return None; }
      var before, after, k := BinarySearch(time, target);
      PairReadsCumulative(live, tick, target, k);
      return Some((before, after));
    }

    /** The accumulator `secondsAgo` before now, or nothing when the ring is too short. */
    method ObserveSingle(time: nat, secondsAgo: nat) returns (cumulative: Option<int>)
      requires Valid(time) && secondsAgo <= time
      ensures cumulative == ObservationPool.Observe(View(), time, secondsAgo)
    {
      hide Transform, CumulativeAt, Interpolate;
      LiveEnds(View());
      if secondsAgo == 0 {
        var last := observations[observationIndex];
        AccumulatorNow(Live(View()), tick, time);
        if last.blockTimestamp != time { last := Transform(last, time, tick); }
        return Some(last.tickCumulative);
      }
      var target := time - secondsAgo;
      var pair := SurroundingObservations(time, target);
      if pair.None? { return None; }
      var before, after := pair.value.0, pair.value.1;
      if target == before.blockTimestamp { return Some(before.tickCumulative); }
      if target == after.blockTimestamp { return Some(after.tickCumulative); }
      return Some(Interpolate(before, after, target));
    }

    /** All requested instants, or nothing as soon as one of them is too old. */
    method Observe(time: nat, secondsAgos: seq<nat>) returns (cumulatives: Option<seq<int>>)
      requires Valid(time) && forall i | 0 <= i < |secondsAgos| :: secondsAgos[i] <= time
      ensures cumulatives.None? <==> exists i | 0 <= i < |secondsAgos| ::
        ObservationPool.Observe(View(), time, secondsAgos[i]).None?
      ensures cumulatives.Some? ==> |cumulatives.value| == |secondsAgos|
      ensures cumulatives.Some? ==> forall i | 0 <= i < |secondsAgos| ::
        ObservationPool.Observe(View(), time, secondsAgos[i]) == Some(cumulatives.value[i])
    {
      var values: seq<int> := [];
      var i := 0;
      while i < |secondsAgos|
        invariant i == |values| <= |secondsAgos|
        invariant forall j | 0 <= j < i :: ObservationPool.Observe(View(), time, secondsAgos[j]) == Some(values[j])
      {
        var one := ObserveSingle(time, secondsAgos[i]);
        if one.None? { return None; }
        values := values + [one.value];
        i := i + 1;
      }
      return Some(values);
    }
  }
}
