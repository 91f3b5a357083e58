/** The burner's price floor over a real pool. */
module BurnerFloor {
  import opened Util
  import opened TickPriceMath
  import opened ObservationPool
  import opened PoolHistory
  import opened UniswapV3PonsOracle
  import BurnerSpec

  /** On a reachable pool that remembers the window, the floor is taken on the floored average of the
      last window's end-of-second ticks. */
  lemma FloorReadsThePool(sqrtRatio: int -> nat, t: BurnerSpec.Target, c: Chain, amountIn: nat)
    requires TickTable(sqrtRatio) && t.maxSlippageBps <= MAX_BPS && 0 < t.twapWindow <= c.Now()
    requires Summarises(c) && EarliestTimestamp(c.pool) <= c.Now() - t.twapWindow
    ensures Sound(c.pool, c.Now()) && t.twapWindow <= |c.ends|
    ensures var start, end := Observe(c.pool, c.Now(), t.twapWindow), Observe(c.pool, c.Now(), 0);
      var quote := QuoteAtTick(sqrtRatio, FlooredAverage(c.ends, |c.ends| - t.twapWindow, |c.ends|),
                               amountIn % TWO_128, t.wethIsToken0);
      && start.Some? && end.Some? && quote.Some?
      && (BurnerSpec.TwapFloor(sqrtRatio, t, Some((start.value, end.value)), amountIn).Some? ==>
            BurnerSpec.TwapFloor(sqrtRatio, t, Some((start.value, end.value)), amountIn)
            == Some(BurnerSpec.Share(quote.value, MAX_BPS - t.maxSlippageBps)))
  {
    var mean := WindowReading(c, c.Now(), t.twapWindow);
    QuoteNeverOverflows(sqrtRatio, mean, amountIn % TWO_128, t.wethIsToken0);
  }
}
