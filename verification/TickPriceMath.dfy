/** Tick-to-price conversion in 256-bit fixed point, and the floored mean tick. */
module TickPriceMath {
  import opened Util

  const TWO_64: nat := 0x1_0000_0000_0000_0000
  const TWO_128: nat := 0x1_0000_0000_0000_0000_0000_0000_0000_0000
  const TWO_160: nat := 0x1_0000_0000_0000_0000_0000_0000_0000_0000_0000_0000
  const TWO_192: nat := 0x1_0000_0000_0000_0000_0000_0000_0000_0000_0000_0000_0000_0000
  const TWO_256: nat := 0x1_0000_0000_0000_0000_0000_0000_0000_0000_0000_0000_0000_0000_0000_0000_0000_0000

  const MIN_TICK: int := -887_272
  const MAX_TICK: int := 887_272
  const MIN_SQRT_RATIO: nat := 4_295_128_739

  predicate TickInRange(tick: int) { MIN_TICK <= tick <= MAX_TICK }

  predicate RatioInRange(r: nat) { MIN_SQRT_RATIO <= r < TWO_160 }

  /** What is taken from the tick table: it is non-decreasing and keeps to its published range. */
  ghost predicate TickTable(sqrtRatio: int -> nat) {
    && (forall t | TickInRange(t) :: RatioInRange(sqrtRatio(t)))
    && (forall t, u | TickInRange(t) && TickInRange(u) && t <= u :: sqrtRatio(t) <= sqrtRatio(u))
  }

  /** floor(a * b / d) on 256-bit words; a zero divisor or a wide result reverts. */
  function MulDiv(a: nat, b: nat, d: nat): Option<nat> {
    if d == 0 || a * b / d >= TWO_256 then None else Some(a * b / d)
  }

  /** Two branches keep the intermediate ratio inside a word; a checked product that does not fit reverts. */
  function QuoteAtRatio(r: nat, baseAmount: nat, baseIsToken0: bool): Option<nat> {
    if r < TWO_128 then
      if r * r >= TWO_256 then None
      else if baseIsToken0 then MulDiv(r * r, baseAmount, TWO_192)
      else MulDiv(TWO_192, baseAmount, r * r)
    else
      match MulDiv(r, r, TWO_64)
      case None => None
      case Some(ratioX128) =>
        if baseIsToken0 then MulDiv(ratioX128, baseAmount, TWO_128)
        else MulDiv(TWO_128, baseAmount, ratioX128)
  }

  function QuoteAtTick(sqrtRatio: int -> nat, tick: int, baseAmount: nat, baseIsToken0: bool): Option<nat> {
    if !TickInRange(tick) then None else QuoteAtRatio(sqrtRatio(tick), baseAmount, baseIsToken0)
  }

  // ---- what the two branches compute --------------------------------------------------

  /** The price with no intermediate rounding: only the final quotient is floored. */
  function ExactQuote(r: nat, baseAmount: nat, baseIsToken0: bool): nat
    requires r > 0
  {
    Positive(r);
    if baseIsToken0 then (r * r) * baseAmount / TWO_192 else TWO_192 * baseAmount / (r * r)
  }

  lemma Positive(r: nat)
    requires r > 0
    ensures r * r > 0
  {
  }

  lemma SquareMono(r: nat, r': nat)
    requires r <= r'
    ensures r * r <= r' * r'
  {
    MulMono(r, r', r);
    MulMono(r, r', r');
  }

  /** Squares of ratios below the seam fit a word and clear the floor of the domain. */
  lemma LowSquare(r: nat)
    requires MIN_SQRT_RATIO <= r < TWO_128
    ensures TWO_64 <= r * r < TWO_256
  {
    SquareMono(MIN_SQRT_RATIO, r);
    SquareMono(r, TWO_128 - 1);
  }

  lemma HighSquare(r: nat)
    requires TWO_128 <= r < TWO_160
    ensures TWO_192 * TWO_64 <= r * r < TWO_256 * TWO_64
  {
    SquareMono(TWO_128, r);
    SquareMono(r, TWO_160 - 1);
  }

  lemma MulDivIs(a: nat, b: nat, d: nat, q: nat)
    requires d > 0 && q < TWO_256 && q * d <= a * b < (q + 1) * d
    ensures MulDiv(a, b, d) == Some(q) && a * b / d == q
  {
    DivUnique(a * b, d, q);
  }

  /** The halved-precision ratio above the seam. */
  lemma HighRatio(r: nat) returns (q: nat)
    requires TWO_128 <= r < TWO_160
    ensures MulDiv(r, r, TWO_64) == Some(q)
    ensures TWO_192 <= q && q * TWO_64 <= r * r < (q + 1) * TWO_64
  {
    var sq := r * r;
    HighSquare(r);
    q := Quotient(sq, TWO_64);
    CancelFactor(q, TWO_256, TWO_64);
    QuotientsOrdered(TWO_192 * TWO_64, sq, TWO_192, q, TWO_64);
    MulDivIs(r, r, TWO_64, q);
  }

  /** A product of a word-sized ratio and a 128-bit amount, divided by at least 2^128, fits a word. */
  lemma Fits(a: nat, b: nat, d: nat, bound: nat)
    requires 0 < d && 0 < a && b < TWO_128 && bound <= TWO_256
    requires a * TWO_128 <= bound * d
    ensures MulDiv(a, b, d) == Some(a * b / d) && a * b / d < bound
  {
    var q := Quotient(a * b, d);
    StrictlyLess(b, TWO_128, a);
    CancelFactor(q, bound, d);
  }

  lemma StrictlyLess(b: nat, c: nat, a: nat)
    requires b < c && a > 0
    ensures a * b < a * c
  {
    assert a * c - a * b == a * (c - b);
  }

  /** Below the seam the quote is exact and fits. */
  lemma LowBranch(r: nat, baseAmount: nat, baseIsToken0: bool)
    requires MIN_SQRT_RATIO <= r < TWO_128 && baseAmount < TWO_128
    ensures QuoteAtRatio(r, baseAmount, baseIsToken0) == Some(ExactQuote(r, baseAmount, baseIsToken0))
  {
    LowSquare(r);
    if baseIsToken0 {
      Fits(r * r, baseAmount, TWO_192, TWO_192);
    } else {
      MulMono(TWO_64, r * r, TWO_256);
      Fits(TWO_192, baseAmount, r * r, TWO_256);
    }
  }

  lemma HighBranch(r: nat, baseAmount: nat, baseIsToken0: bool) returns (q: nat)
    requires TWO_128 <= r < TWO_160 && baseAmount < TWO_128
    ensures MulDiv(r, r, TWO_64) == Some(q)
    ensures TWO_192 <= q && q * TWO_64 <= r * r < (q + 1) * TWO_64
    ensures QuoteAtRatio(r, baseAmount, baseIsToken0)
         == Some(if baseIsToken0 then q * baseAmount / TWO_128 else TWO_128 * baseAmount / q)
  {
    q := HighRatio(r);
    if baseIsToken0 {
      Fits(q, baseAmount, TWO_128, TWO_256);
    } else {
      MulMono(TWO_192, q, TWO_64);
      Fits(TWO_128, baseAmount, q, TWO_64);
    }
  }

  /** No valid tick and no 128-bit amount overflows a word, in either branch. */
  lemma QuoteNeverOverflows(sqrtRatio: int -> nat, tick: int, baseAmount: nat, baseIsToken0: bool)
    requires TickTable(sqrtRatio) && baseAmount < TWO_128
    ensures QuoteAtTick(sqrtRatio, tick, baseAmount, baseIsToken0).Some? <==> -887_272 <= tick <= 887_272
  {
    if TickInRange(tick) {
      if sqrtRatio(tick) < TWO_128 {
        LowBranch(sqrtRatio(tick), baseAmount, baseIsToken0);
      } else {
        var q := HighBranch(sqrtRatio(tick), baseAmount, baseIsToken0);
      }
    }
  }

  // ---- precision ----------------------------------------------------------------------

  /** Dropping 64 bits of the ratio costs at most one unit when the base is token0. */
  lemma HighPrecision0(r: nat, q: nat, b: nat)
    requires b < TWO_128 && q * TWO_64 <= r * r < (q + 1) * TWO_64
    ensures q * b / TWO_128 <= (r * r) * b / TWO_192 <= q * b / TWO_128 + 1
  {
    var low := Quotient(q * b, TWO_128);
    var n := (r * r) * b;
    MulMono(q * TWO_64, r * r, b);
    assert (q * TWO_64) * b == (q * b) * TWO_64;
    MulMono(r * r, (q + 1) * TWO_64, b);
    assert ((q + 1) * TWO_64) * b == (q * b) * TWO_64 + b * TWO_64;
    assert low * TWO_192 <= n < (low + 2) * TWO_192;
    var exact := Quotient(n, TWO_192);
    QuotientsOrdered(low * TWO_192, n, low, exact, TWO_192);
    QuotientsOrdered(n, n, exact, low + 1, TWO_192);
  }

  lemma ExactTimesRatio(sq: nat, q: nat, b: nat, exact: nat)
    requires q * TWO_64 <= sq && exact * sq <= TWO_192 * b
    ensures exact * q <= TWO_128 * b
  {
    MulMono(q * TWO_64, sq, exact);
    assert (exact * q) * TWO_64 == (q * TWO_64) * exact;
  }

  lemma NextExactTimesRatio(sq: nat, q: nat, b: nat, exact: nat)
    requires sq < (q + 1) * TWO_64 && TWO_192 * b < (exact + 1) * sq
    ensures TWO_128 * b < (exact + 1) * (q + 1)
  {
    MulMono(sq, (q + 1) * TWO_64, exact + 1);
    assert ((q + 1) * TWO_64) * (exact + 1) == ((exact + 1) * (q + 1)) * TWO_64;
  }

  /** And at most one unit, the other way, when the base is token1. */
  lemma HighPrecision1(r: nat, q: nat, b: nat)
    requires b < TWO_128 && TWO_192 <= q && q * TWO_64 <= r * r < (q + 1) * TWO_64
    ensures r * r > 0
    ensures TWO_192 * b / (r * r) <= TWO_128 * b / q <= TWO_192 * b / (r * r) + 1
  {
    var sq := r * r;
    var exact := Quotient(TWO_192 * b, sq);
    var got := Quotient(TWO_128 * b, q);
    ExactTimesRatio(sq, q, b, exact);
    QuotientsOrdered(exact * q, TWO_128 * b, exact, got, q);
    NextExactTimesRatio(sq, q, b, exact);
    SmallQuotient(TWO_128 * b, exact, q);
    NextButOne(TWO_128 * b, exact, got, q);
  }

  lemma NextButOne(n: nat, e: nat, got: nat, q: nat)
    requires e < TWO_64 && TWO_192 <= q && n < (e + 1) * (q + 1) && got * q <= n
    ensures got <= e + 1
  {
    assert (e + 1) * (q + 1) == e * q + e + q + 1;
    assert (e + 2) * q == e * q + 2 * q;
    CancelFactor(got, e + 2, q);
  }

  lemma SmallQuotient(n: nat, e: nat, q: nat)
    requires n < TWO_256 && TWO_192 <= q && e * q <= n
    ensures e < TWO_64
  {
    MulMono(TWO_192, q, e);
    if e >= TWO_64 {
      MulMono(TWO_64, e, TWO_192);
    }
  }

  /** Below the seam the quote is the exact floored quotient; above it, it is off by at most one unit:
      never above the exact one for a token0 base, never below it for a token1 base. */
  lemma QuoteWithinOneUnit(sqrtRatio: int -> nat, tick: int, baseAmount: nat, baseIsToken0: bool) returns (quote: nat)
    requires TickTable(sqrtRatio) && TickInRange(tick) && baseAmount < TWO_128
    ensures QuoteAtTick(sqrtRatio, tick, baseAmount, baseIsToken0) == Some(quote)
    ensures var exact := ExactQuote(sqrtRatio(tick), baseAmount, baseIsToken0);
      if sqrtRatio(tick) < TWO_128 then quote == exact
      else if baseIsToken0 then quote <= exact <= quote + 1
      else exact <= quote <= exact + 1
  {
    var r := sqrtRatio(tick);
    if r < TWO_128 {
      LowBranch(r, baseAmount, baseIsToken0);
    } else {
      var q := HighBranch(r, baseAmount, baseIsToken0);
      if baseIsToken0 {
        HighPrecision0(r, q, baseAmount);
      } else {
        HighPrecision1(r, q, baseAmount);
      }
    }
    quote := QuoteAtRatio(r, baseAmount, baseIsToken0).value;
  }

  // ---- monotonicity across the seam ---------------------------------------------------

  lemma LowMonotone(r: nat, r': nat, b: nat, baseIsToken0: bool)
    requires 0 < r <= r'
    ensures baseIsToken0 ==> ExactQuote(r, b, true) <= ExactQuote(r', b, true)
    ensures !baseIsToken0 ==> ExactQuote(r', b, false) <= ExactQuote(r, b, false)
  {
    SquareMono(r, r');
    Positive(r);
    if baseIsToken0 {
      MulMono(r * r, r' * r', b);
      DivMono((r * r) * b, (r' * r') * b, TWO_192);
    } else {
      DivAntitone(TWO_192 * b, r * r, r' * r');
    }
  }

  /** At the seam itself both branches agree on which side of 2^64 units per unit they are. */
  lemma SeamOrdered(r: nat, q: nat, b: nat, baseIsToken0: bool)
    requires MIN_SQRT_RATIO <= r < TWO_128 && TWO_192 <= q
    ensures baseIsToken0 ==> ExactQuote(r, b, true) <= q * b / TWO_128
    ensures !baseIsToken0 ==> TWO_128 * b / q <= ExactQuote(r, b, false)
  {
    LowSquare(r);
    if baseIsToken0 {
      MulMono(r * r, TWO_256, b);
      var low := Quotient((r * r) * b, TWO_192);
      CancelFactor(low, b * TWO_64 + 1, TWO_192);
      MulMono(TWO_192, q, b);
      var high := Quotient(q * b, TWO_128);
      QuotientsOrdered((b * TWO_64) * TWO_128, q * b, b * TWO_64, high, TWO_128);
    } else {
      DivAntitone(TWO_128 * b, TWO_192, q);
      DivAntitone(TWO_192 * b, r * r, TWO_256);
      var x := Quotient(TWO_128 * b, TWO_192);
      DivUnique(TWO_192 * b, TWO_256, x);
    }
  }

  lemma HighMonotone(q: nat, q': nat, b: nat, baseIsToken0: bool)
    requires 0 < q <= q'
    ensures baseIsToken0 ==> q * b / TWO_128 <= q' * b / TWO_128
    ensures !baseIsToken0 ==> TWO_128 * b / q' <= TWO_128 * b / q
  {
    if baseIsToken0 {
      MulMono(q, q', b);
      DivMono(q * b, q' * b, TWO_128);
    } else {
      DivAntitone(TWO_128 * b, q, q');
    }
  }

  lemma RatioMonotone(r: nat, r': nat, b: nat, baseIsToken0: bool) returns (x: nat, x': nat)
    requires RatioInRange(r) && RatioInRange(r') && r <= r' && b < TWO_128
    ensures QuoteAtRatio(r, b, baseIsToken0) == Some(x) && QuoteAtRatio(r', b, baseIsToken0) == Some(x')
    ensures if baseIsToken0 then x <= x' else x' <= x
  {
    if r' < TWO_128 {
      LowBranch(r, b, baseIsToken0);
      LowBranch(r', b, baseIsToken0);
      LowMonotone(r, r', b, baseIsToken0);
    } else if r < TWO_128 {
      LowBranch(r, b, baseIsToken0);
      var q := HighBranch(r', b, baseIsToken0);
      SeamOrdered(r, q, b, baseIsToken0);
    } else {
      var q := HighBranch(r, b, baseIsToken0);
      var q' := HighBranch(r', b, baseIsToken0);
      SquareMono(r, r');
      QuotientsOrdered(r * r, r' * r', q, q', TWO_64);
      HighMonotone(q, q', b, baseIsToken0);
    }
    x := QuoteAtRatio(r, b, baseIsToken0).value;
    x' := QuoteAtRatio(r', b, baseIsToken0).value;
  }

  /** Over the whole tick domain, seam included: the quote rises with the tick when the base is token0
      and falls with it when the base is token1. */
  lemma QuoteMonotoneInTick(sqrtRatio: int -> nat, tick: int, tick': int, baseAmount: nat, baseIsToken0: bool)
    requires TickTable(sqrtRatio) && TickInRange(tick) && TickInRange(tick') && tick <= tick'
    requires baseAmount < TWO_128
    ensures var x, x' := QuoteAtTick(sqrtRatio, tick, baseAmount, baseIsToken0),
                         QuoteAtTick(sqrtRatio, tick', baseAmount, baseIsToken0);
      && x.Some? && x'.Some?
      && (if baseIsToken0 then x.value <= x'.value else x'.value <= x.value)
  {
    var x, x' := RatioMonotone(sqrtRatio(tick), sqrtRatio(tick'), baseAmount, baseIsToken0);
  }

  // ---- amounts beyond 128 bits --------------------------------------------------------

  lemma MulDivGrows(a: nat, m: nat, k: nat, d: nat)
    requires 0 < d <= a * TWO_128 && k > 0
    ensures a * m / d < a * (m + k * TWO_128) / d
  {
    var low := Quotient(a * m, d);
    var high := Quotient(a * (m + k * TWO_128), d);
    MulMono(1, k, a * TWO_128);
    assert a * (m + k * TWO_128) == a * m + k * (a * TWO_128);
    assert (low + 1) * d == low * d + d;
    QuotientsOrdered((low + 1) * d, a * (m + k * TWO_128), low + 1, high, d);
  }

  /** An amount and its remainder below 2^128 are quoted alike only when they are the same. */
  lemma RatioTellsAmounts(r: nat, m: nat, k: nat, baseIsToken0: bool)
    requires RatioInRange(r) && m < TWO_128 && k > 0
    ensures QuoteAtRatio(r, m, baseIsToken0).Some?
    ensures QuoteAtRatio(r, m + k * TWO_128, baseIsToken0) != QuoteAtRatio(r, m, baseIsToken0)
  {
    if r < TWO_128 {
      LowBranch(r, m, baseIsToken0);
      LowSquare(r);
      if baseIsToken0 {
        MulDivGrows(r * r, m, k, TWO_192);
      } else {
        MulDivGrows(TWO_192, m, k, r * r);
      }
    } else {
      var q := HighBranch(r, m, baseIsToken0);
      if baseIsToken0 {
        MulDivGrows(q, m, k, TWO_128);
      } else {
        HighSquare(r);
        CancelFactor(q, TWO_256, TWO_64);
        MulDivGrows(TWO_128, m, k, q);
      }
    }
  }

  /** Exactly when narrowing an amount to 128 bits leaves its quote alone, at every tick. */
  lemma NarrowingExactly(sqrtRatio: int -> nat, tick: int, amount: nat, baseIsToken0: bool)
    requires TickTable(sqrtRatio) && TickInRange(tick)
    ensures var narrowed := QuoteAtTick(sqrtRatio, tick, amount % TWO_128, baseIsToken0);
      narrowed == QuoteAtTick(sqrtRatio, tick, amount, baseIsToken0) <==> amount < TWO_128
  {
    var k := Quotient(amount, TWO_128);
    assert amount % TWO_128 == amount - k * TWO_128;
    if amount >= TWO_128 {
      RatioTellsAmounts(sqrtRatio(tick), amount % TWO_128, k, baseIsToken0);
    }
  }

  // ---- the mean tick ------------------------------------------------------------------

  /** The remainder of the division that truncates toward zero. */
  function TruncMod(a: int, b: int): int
    requires b > 0
  {
    a - TruncDiv(a, b) * b
  }

  /** The truncated quotient, stepped down when a negative delta leaves a remainder; a mean outside
      the tick domain reverts. */
  function MeanTick(delta: int, window: nat): Option<int>
    requires window > 0
  {
    var truncated := TruncDiv(delta, window);
    var mean := if delta < 0 && TruncMod(delta, window) != 0 then truncated - 1 else truncated;
    if TickInRange(mean) then Some(mean) else None
  }

  /** The mean is rounded toward negative infinity whatever the sign, and is refused exactly when that
      floor is outside the tick domain. */
  lemma MeanTickIsFloor(delta: int, window: nat, mean: int)
    requires window > 0 && mean * window <= delta < (mean + 1) * window
    ensures MeanTick(delta, window) == if TickInRange(mean) then Some(mean) else None
  {
    if delta >= 0 {
      FloorOfNatural(delta, window, mean);
      DivUnique(delta, window, mean);
    } else {
      var up := Quotient(-delta, window);
      assert TruncMod(delta, window) == delta + up * window;
      var floor := if up * window == -delta then -up else -up - 1;
      assert floor * window <= delta < (floor + 1) * window;
      FloorOrdered(delta, window, mean, floor);
      FloorOrdered(delta, window, floor, mean);
    }
  }

  /** The same with the floor written out. */
  lemma MeanTickFloors(delta: int, window: nat)
    requires window > 0
    ensures MeanTick(delta, window)
         == if -887_272 <= delta / window <= 887_272 then Some(delta / window) else None
  {
    hide MeanTick;
    var mean := delta / window;
    assert delta == window * (delta / window) + delta % window;
    assert mean * window <= delta < mean * window + window;
    assert (mean + 1) * window == mean * window + window;
    MeanTickIsFloor(delta, window, mean);
  }

  lemma FloorOfNatural(delta: nat, window: nat, m: int)
    requires window > 0 && delta < (m + 1) * window
    ensures m >= 0
  {
    if m < 0 {
      MulMono(0, -(m + 1), window);
      assert false;
    }
  }

  lemma FloorOrdered(delta: int, window: nat, m: int, m': int)
    requires window > 0 && m * window <= delta < (m' + 1) * window
    ensures m <= m'
  {
    var gap := m' + 1 - m;
    assert gap * window == (m' + 1) * window - m * window;
    if gap <= 0 {
      MulMono(0, -gap, window);
      assert false;
    }
  }
}
