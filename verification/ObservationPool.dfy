/** A Uniswap v3 pool's tick and its observation ring, as a value, with the history it summarises.
    The ring follows section 5.1 of the Uniswap v3 Core whitepaper. */
module ObservationPool {
  import opened Util
  import opened TickPriceMath

  const RING_SLOTS: nat := 65_535
  const TWO_32: nat := 0x1_0000_0000

  datatype Observation = Observation(blockTimestamp: nat, tickCumulative: int, initialized: bool)

  const Blank := Observation(0, 0, false)

  datatype Pool = Pool(
    observations: seq<Observation>,
    tick: int,
    index: nat,
    cardinality: nat,
    cardinalityNext: nat)

  // ---- operations ---------------------------------------------------------------------

  /** A new observation: the tick that held since the last one, integrated up to now. */
  function Transform(last: Observation, now: nat, tick: int): Observation
    requires last.blockTimestamp <= now
  {
    Observation(now, last.tickCumulative + tick * (now - last.blockTimestamp), true)
  }

  predicate Shape(p: Pool) {
    && |p.observations| == RING_SLOTS
    && p.index < p.cardinality <= p.cardinalityNext <= RING_SLOTS
  }

  function Newest(p: Pool): Observation
    requires Shape(p)
  {
    p.observations[p.index]
  }

  /** The slot after one, around the ring. */
  function After(index: nat, cardinality: nat): (next: nat)
    requires index < cardinality
    ensures next < cardinality
  {
    if index + 1 == cardinality then 0 else index + 1
  }

  lemma AfterIsModulo(index: nat, cardinality: nat)
    requires index < cardinality
    ensures After(index, cardinality) == (index + 1) % cardinality
  {
    if index + 1 < cardinality {
      ModuloWithin(index + 1, 0, cardinality);
    } else {
      ModuloWithin(0, 1, cardinality);
    }
  }

  lemma ModuloWithin(m: nat, laps: nat, cardinality: nat)
    requires m < cardinality
    ensures (laps * cardinality + m) % cardinality == m
  {
    var n := laps * cardinality + m;
    assert n == cardinality * (n / cardinality) + n % cardinality;
    DivUnique(n, cardinality, laps);
  }

  function GrownCardinality(p: Pool): nat {
    if p.cardinalityNext > p.cardinality && p.index + 1 == p.cardinality then p.cardinalityNext else p.cardinality
  }

  /** At most one observation per second, recording the tick from before the swap. */
  function Write(p: Pool, now: nat): Pool
    requires Shape(p) && Newest(p).blockTimestamp <= now
  {
    if Newest(p).blockTimestamp == now then p
    else
      var cardinality := GrownCardinality(p);
      var index := After(p.index, cardinality);
      p.(observations := p.observations[index := Transform(Newest(p), now, p.tick)],
         index := index, cardinality := cardinality)
  }

  function Swap(p: Pool, now: nat, newTick: int): Pool
    requires Shape(p) && Newest(p).blockTimestamp <= now
  {
    (if newTick != p.tick then Write(p, now) else p).(tick := newTick)
  }

  /** Slots reserved for later carry a timestamp of one and stay uninitialised. */
  function Grow(p: Pool, next: nat): Pool
    requires Shape(p) && next <= RING_SLOTS
  {
    if next <= p.cardinalityNext then p
    else
      p.(observations := seq(RING_SLOTS, i requires 0 <= i < RING_SLOTS =>
           if p.cardinalityNext <= i < next then p.observations[i].(blockTimestamp := 1) else p.observations[i]),
         cardinalityNext := next)
  }

  function Fresh(now: nat, initialTick: int): (p: Pool)
    ensures Shape(p)
  {
    Pool(seq(RING_SLOTS, i => if i == 0 then Observation(now, 0, true) else Blank), initialTick, 0, 1, 1)
  }

  // ---- the live entries, oldest first -------------------------------------------------

  /** The slot after the newest is uninitialised until the ring has gone round once. */
  predicate Wrapped(p: Pool)
    requires Shape(p)
  {
    p.observations[After(p.index, p.cardinality)].initialized
  }

  function Live(p: Pool): seq<Observation>
    requires Shape(p)
  {
    (if Wrapped(p) then p.observations[p.index + 1..p.cardinality] else []) + p.observations[..p.index + 1]
  }

  /** Which slots are initialised: all up to the newest, then all or none up to the cardinality, and
      none beyond it. */
  ghost predicate WellFormed(p: Pool) {
    && Shape(p)
    && (forall i | 0 <= i <= p.index :: p.observations[i].initialized)
    && (forall i | p.index < i < p.cardinality :: p.observations[i].initialized == Wrapped(p))
    && (forall i | p.cardinality <= i < RING_SLOTS :: !p.observations[i].initialized)
  }

  lemma LiveEnds(p: Pool)
    requires WellFormed(p)
    ensures |Live(p)| > 0 && Live(p)[|Live(p)| - 1] == Newest(p)
    ensures forall k | 0 <= k < |Live(p)| :: Live(p)[k].initialized
    ensures |Live(p)| == if Wrapped(p) then p.cardinality else p.index + 1
  {
  }

  /** A write appends to the live entries; once the ring is full it also drops the oldest. */
  lemma WriteAppends(p: Pool, now: nat)
    requires WellFormed(p) && Newest(p).blockTimestamp < now
    ensures WellFormed(Write(p, now))
    ensures var added := [Transform(Newest(p), now, p.tick)];
      Live(Write(p, now)) == if Wrapped(p) && GrownCardinality(p) == p.cardinality then Live(p)[1..] + added
                             else Live(p) + added
  {
    var q := Write(p, now);
    if p.index + 1 == p.cardinality {
      assert After(p.index, p.cardinality) == 0;
      if p.cardinalityNext > p.cardinality {
        WriteGrows(p, q, now);
      } else {
        WriteWraps(p, q, now);
      }
    } else {
      assert After(p.index, p.cardinality) == p.index + 1;
      WriteInside(p, q, now);
    }
  }

  lemma WriteGrows(p: Pool, q: Pool, now: nat)
    requires WellFormed(p) && Newest(p).blockTimestamp < now && q == Write(p, now)
    requires p.index + 1 == p.cardinality < p.cardinalityNext
    ensures WellFormed(q) && Live(q) == Live(p) + [Transform(Newest(p), now, p.tick)]
  {
    assert q.index == p.cardinality && q.cardinality == p.cardinalityNext;
    assert Live(p) == p.observations[..p.cardinality];
    assert Live(q) == q.observations[..q.index + 1];
  }

  lemma WriteWraps(p: Pool, q: Pool, now: nat)
    requires WellFormed(p) && Newest(p).blockTimestamp < now && q == Write(p, now)
    requires p.index + 1 == p.cardinality == p.cardinalityNext
    ensures WellFormed(q) && Wrapped(p) && Live(q) == Live(p)[1..] + [Transform(Newest(p), now, p.tick)]
  {
    assert q.index == 0 && q.cardinality == p.cardinality;
    assert Live(p) == p.observations[..p.cardinality];
    if p.cardinality == 1 {
      assert Live(q) == q.observations[..1];
    } else {
      assert Live(q) == q.observations[1..p.cardinality] + q.observations[..1];
    }
  }

  lemma WriteInside(p: Pool, q: Pool, now: nat)
    requires WellFormed(p) && Newest(p).blockTimestamp < now && q == Write(p, now)
    requires p.index + 1 < p.cardinality
    ensures WellFormed(q)
    ensures var added := [Transform(Newest(p), now, p.tick)];
      Live(q) == if Wrapped(p) then Live(p)[1..] + added else Live(p) + added
  {
    assert q.index == p.index + 1 && q.cardinality == p.cardinality;
    assert q.observations[..q.index + 1] == p.observations[..p.index + 1] + [Transform(Newest(p), now, p.tick)];
    assert q.observations[q.index + 1..q.cardinality] == p.observations[p.index + 2..p.cardinality];
  }

  /** Growth, up to 65,535 slots, only raises the number of slots to go round next time. */
  lemma GrowKeepsLive(p: Pool, next: nat)
    requires WellFormed(p) && next <= 65_535
    ensures WellFormed(Grow(p, next)) && Live(Grow(p, next)) == Live(p) && Newest(Grow(p, next)) == Newest(p)
    ensures Grow(p, next).cardinalityNext == if next > p.cardinalityNext then next else p.cardinalityNext
    ensures Grow(p, next).cardinality == p.cardinality && Grow(p, next).tick == p.tick
  {
    var q := Grow(p, next);
    assert forall i | 0 <= i < p.cardinality :: q.observations[i] == p.observations[i];
    assert q.observations[..p.index + 1] == p.observations[..p.index + 1];
    assert q.observations[p.index + 1..p.cardinality] == p.observations[p.index + 1..p.cardinality];
  }

  // ---- reading ------------------------------------------------------------------------

  /** The last entry at or before `target`, given that the first one is. */
  function Bracket(live: seq<Observation>, target: nat): (k: nat)
    requires |live| > 0 && live[0].blockTimestamp <= target
    ensures k < |live| && live[k].blockTimestamp <= target
    ensures forall i | k < i < |live| :: live[i].blockTimestamp > target
  {
    if live[|live| - 1].blockTimestamp <= target then |live| - 1 else Bracket(live[..|live| - 1], target)
  }

  /** Between two observations the accumulator is interpolated, dividing before multiplying. */
  function Interpolate(before: Observation, after: Observation, target: nat): int
    requires before.blockTimestamp < after.blockTimestamp && before.blockTimestamp <= target
  {
    before.tickCumulative
    + TruncDiv(after.tickCumulative - before.tickCumulative, after.blockTimestamp - before.blockTimestamp)
      * (target - before.blockTimestamp)
  }

  ghost predicate Ordered(live: seq<Observation>) {
    forall i, j | 0 <= i < j < |live| :: live[i].blockTimestamp < live[j].blockTimestamp
  }

  /** The accumulator at an instant, or nothing when the ring no longer reaches back to it. */
  function CumulativeAt(live: seq<Observation>, tick: int, target: nat): Option<int>
    requires |live| > 0 && Ordered(live)
  {
    if target < live[0].blockTimestamp then None
    else
      var k := Bracket(live, target);
      if k + 1 == |live| then Some(live[k].tickCumulative + tick * (target - live[k].blockTimestamp))
      else Some(Interpolate(live[k], live[k + 1], target))
  }

  /** Timestamps never pass the clock. */
  ghost predicate Sound(p: Pool, now: nat) {
    && WellFormed(p)
    && Ordered(Live(p))
    && Newest(p).blockTimestamp <= now
  }

  function Observe(p: Pool, now: nat, secondsAgo: nat): Option<int>
    requires Sound(p, now) && secondsAgo <= now
  {
    LiveEnds(p);
    CumulativeAt(Live(p), p.tick, now - secondsAgo)
  }

  // ---- what a reader of the ring derives ----------------------------------------------

  function NewestTimestamp(p: Pool): nat
    requires Shape(p)
  {
    Newest(p).blockTimestamp
  }

  /** The oldest entry: the slot after the newest, or slot 0 while that one is still unused. */
  function EarliestTimestamp(p: Pool): nat
    requires Shape(p)
  {
    var oldest := p.observations[After(p.index, p.cardinality)];
    if oldest.initialized then oldest.blockTimestamp else p.observations[0].blockTimestamp
  }

  lemma EarliestIsFirstLive(p: Pool)
    requires WellFormed(p)
    ensures |Live(p)| > 0 && EarliestTimestamp(p) == Live(p)[0].blockTimestamp
  {
    LiveEnds(p);
  }

  lemma InitializedIsLive(p: Pool, i: nat) returns (k: nat)
    requires WellFormed(p) && i < RING_SLOTS && p.observations[i].initialized
    ensures k < |Live(p)| && Live(p)[k] == p.observations[i]
  {
    var older := if Wrapped(p) then p.cardinality - p.index - 1 else 0;
    k := if i <= p.index then older + i else i - p.index - 1;
  }

  /** Before the ring wraps, after it wraps and through growth: the reported earliest instant is the
      minimum over every initialised slot, and some slot holds it. */
  lemma EarliestIsOldestLive(p: Pool)
    requires WellFormed(p) && Ordered(Live(p))
    ensures exists i :: 0 <= i < RING_SLOTS && p.observations[i].initialized
                        && p.observations[i].blockTimestamp == EarliestTimestamp(p)
    ensures forall i | 0 <= i < RING_SLOTS && p.observations[i].initialized ::
      EarliestTimestamp(p) <= p.observations[i].blockTimestamp <= NewestTimestamp(p)
  {
    EarliestIsFirstLive(p);
    LiveEnds(p);
    var oldest := After(p.index, p.cardinality);
    assert p.observations[if p.observations[oldest].initialized then oldest else 0].initialized;
    forall i | 0 <= i < RING_SLOTS && p.observations[i].initialized
      ensures EarliestTimestamp(p) <= p.observations[i].blockTimestamp <= NewestTimestamp(p)
    {
      var k := InitializedIsLive(p, i);
    }
  }
}
