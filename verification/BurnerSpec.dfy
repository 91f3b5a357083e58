/** The buyback burner as a value: allocation of received ETH, the spending limiter, and buybacks. */
module BurnerSpec {
  import opened Util
  import opened TickPriceMath

  const MIN_TWAP_WINDOW: nat := 60
  const MAX_TWAP_WINDOW: nat := 86_400
  const MAX_SLIPPAGE_BPS: nat := 1_000
  const MAX_UINT256: nat := TWO_256 - 1

  type Address = nat

  datatype Target = Target(
    token: Address, pool: Address, wethIsToken0: bool, shareBps: nat, maxSlippageBps: nat, twapWindow: nat)

  /** One completed buyback. */
  datatype Spend = Spend(time: nat, index: nat, amount: nat, burned: nat)

  /** Storage, the ETH balance, and for reasoning: ETH forced in, ETH ever received per target, and
      every buyback so far. */
  datatype State = State(
    targets: seq<Target>,
    earmarked: seq<nat>,
    totalSpent: seq<nat>,
    totalBurned: seq<nat>,
    maxSpendPerWindow: nat,
    rateWindow: nat,
    windowStart: nat,
    spentInWindow: nat,
    balance: nat,
    forced: nat,
    received: seq<nat>,
    spends: seq<Spend>)

  datatype Error =
    | BadShares | TargetNotConfigured | NothingAllocated | WindowOutOfRange | SlippageTooLoose | RateLimited
    | BelowFloor | PoolTokenMismatch | ZeroAddress | Unauthorized | ReentrantCall | OracleReverted | SwapReverted
    | Panic

  datatype Result = Ok(state: State) | Revert(error: Error)

  predicate Shape(s: State) {
    |s.targets| == |s.earmarked| == |s.totalSpent| == |s.totalBurned| == |s.received| == 2
  }

  // ---- configuration ------------------------------------------------------------------

  /** The pool's two tokens, as it reports them. */
  datatype PoolTokens = PoolTokens(token0: Address, token1: Address)

  datatype Checked = Accepted(target: Target) | Rejected(error: Error)

  function CheckTarget(t: Target, weth: Address, tokens: PoolTokens): Checked {
    if t.twapWindow < MIN_TWAP_WINDOW || t.twapWindow > MAX_TWAP_WINDOW then Rejected(WindowOutOfRange)
    else if t.maxSlippageBps > MAX_SLIPPAGE_BPS then Rejected(SlippageTooLoose)
    else if t.pool == 0 then Accepted(t)
    else if !((tokens.token0 == weth && tokens.token1 == t.token)
              || (tokens.token1 == weth && tokens.token0 == t.token)) then
      Rejected(PoolTokenMismatch)
    else Accepted(t.(wethIsToken0 := tokens.token0 == weth))
  }

  function Construct(weth: Address, admin: Address, pons: Target, project: Target,
                     ponsTokens: PoolTokens, projectTokens: PoolTokens): Result {
    if weth == 0 || admin == 0 then Revert(ZeroAddress)
    else if pons.shareBps + project.shareBps != MAX_BPS then Revert(BadShares)
    else
      match (CheckTarget(pons, weth, ponsTokens), CheckTarget(project, weth, projectTokens))
      case (Rejected(e), _) => Revert(e)
      case (_, Rejected(e)) => Revert(e)
      case (Accepted(a), Accepted(b)) =>
        Ok(State([a, b], [0, 0], [0, 0], [0, 0], MAX_UINT256, 3_600, 0, 0, 0, 0, [0, 0], []))
  }

  /** Shares are kept; everything else about a target may be replaced. */
  function OnSetTarget(s: State, authorized: bool, weth: Address, index: nat, token: Address, pool: Address,
                       maxSlippageBps: nat, twapWindow: nat, tokens: PoolTokens): Result
    requires Shape(s)
  {
    if !authorized then Revert(Unauthorized)
    else if index >= 2 then Revert(Panic)
    else
      var t := s.targets[index].(token := token, pool := pool, maxSlippageBps := maxSlippageBps,
                                 twapWindow := twapWindow);
      match CheckTarget(t, weth, tokens)
      case Rejected(e) => Revert(e)
      case Accepted(checked) => Ok(s.(targets := s.targets[index := checked]))
  }

  function OnSetRateLimit(s: State, authorized: bool, maxSpend: nat, window: nat): Result {
    if !authorized then Revert(Unauthorized) else Ok(s.(maxSpendPerWindow := maxSpend, rateWindow := window))
  }

  // ---- receiving ----------------------------------------------------------------------

  /** A basis-point share, floored: it never exceeds the whole. */
  function Share(amount: nat, bps: nat): (share: nat)
    requires bps <= MAX_BPS
    ensures share <= amount
  {
    ShareWithinAmount(amount, bps);
    amount * bps / MAX_BPS
  }

  lemma ShareWithinAmount(amount: nat, bps: nat)
    requires bps <= MAX_BPS
    ensures amount * bps / MAX_BPS <= amount
  {
    MulMono(bps, MAX_BPS, amount);
    var q := Quotient(amount * bps, MAX_BPS);
    QuotientsOrdered(amount * bps, amount * MAX_BPS, q, amount, MAX_BPS);
  }

  /** The first target gets its floored share and the second the remainder. */
  function OnReceive(s: State, amount: nat): State
    requires Shape(s) && s.targets[0].shareBps <= MAX_BPS
  {
    var toPons := Share(amount, s.targets[0].shareBps);
    var toProject := amount - toPons;
    s.(earmarked := [s.earmarked[0] + toPons, s.earmarked[1] + toProject],
       received := [s.received[0] + toPons, s.received[1] + toProject],
       balance := s.balance + amount)
  }

  // ---- spending -----------------------------------------------------------------------

  /** A tumbling window: it restarts at the first spend after it has run out. A cap lowered below what
      was already spent makes the subtraction underflow. */
  function ConsumeRateLimit(s: State, now: nat, amount: nat): Result {
    var expired := now >= s.windowStart + s.rateWindow;
    var start := if expired then now else s.windowStart;
    var spent := if expired then 0 else s.spentInWindow;
    if spent > s.maxSpendPerWindow then Revert(Panic)
    else if amount > s.maxSpendPerWindow - spent then Revert(RateLimited)
    else Ok(s.(windowStart := start, spentInWindow := spent + amount))
  }

  /** The pool's time-weighted quote for the amount, narrowed to 128 bits, less the tolerance. */
  function TwapFloor(sqrtRatio: int -> nat, t: Target, cumulatives: Option<(int, int)>, amountIn: nat): Option<nat>
    requires t.maxSlippageBps <= MAX_BPS && t.twapWindow > 0
  {
    match cumulatives
    case None => None
    case Some((start, end)) =>
      match MeanTick(end - start, t.twapWindow)
      case None => None
      case Some(mean) =>
        match QuoteAtTick(sqrtRatio, mean, amountIn % TWO_128, t.wethIsToken0)
        case None => None
        case Some(quote) =>
          if quote * (MAX_BPS - t.maxSlippageBps) >= TWO_256 then None
          else Some(Share(quote, MAX_BPS - t.maxSlippageBps))
  }

  /** What may happen to this contract while the swap runs; a nested buyback is refused by the guard. */
  datatype Inner =
    | Receive(amount: nat)
    | Force(amount: nat)
    | RateLimit(authorized: bool, maxSpend: nat, window: nat)
    | Retarget(authorized: bool, index: nat, token: Address, pool: Address, maxSlippageBps: nat, twapWindow: nat,
               tokens: PoolTokens)

  ghost predicate Configured(s: State) {
    && Shape(s)
    && s.targets[0].shareBps + s.targets[1].shareBps == MAX_BPS
    && forall i | 0 <= i < 2 ::
         s.targets[i].maxSlippageBps <= MAX_SLIPPAGE_BPS && s.targets[i].twapWindow >= MIN_TWAP_WINDOW
  }

  function Nested(s: State, weth: Address, e: Inner): (r: State)
    requires Configured(s)
    ensures Configured(r)
  {
    match e
    case Receive(amount) => OnReceive(s, amount)
    case Force(amount) => s.(balance := s.balance + amount, forced := s.forced + amount)
    case RateLimit(authorized, maxSpend, window) =>
      (match OnSetRateLimit(s, authorized, maxSpend, window) case Ok(s') => s' case Revert(_) => s)
    case Retarget(authorized, index, token, pool, slippage, window, tokens) =>
      (match OnSetTarget(s, authorized, weth, index, token, pool, slippage, window, tokens)
       case Ok(s') => s' case Revert(_) => s)
  }

  function NestedAll(s: State, weth: Address, inner: seq<Inner>): (r: State)
    requires Configured(s)
    ensures Configured(r)
    decreases |inner|
  {
    if inner == [] then s else NestedAll(Nested(s, weth, inner[0]), weth, inner[1..])
  }

  /** The world a buyback meets: the clock, the pool's accumulators, and a swap that may revert, may
      call back, and changes the token balance by some amount. */
  datatype Swap = Swap(now: nat, cumulatives: Option<(int, int)>, succeeds: bool, inner: seq<Inner>, bought: int)

  function AmountToSpend(s: State, index: nat, amountIn: nat): nat
    requires Shape(s) && index < 2
  {
    if amountIn == 0 then s.earmarked[index] else amountIn
  }

  function MaxOf(a: nat, b: nat): nat { if a > b then a else b }

  /** The books while the swap is running: the amount is off the allocation and out of the balance. */
  function Withdraw(s: State, index: nat, amount: nat): State
    requires Shape(s) && index < 2 && amount <= s.earmarked[index] && amount <= s.balance
  {
    s.(earmarked := s.earmarked[index := s.earmarked[index] - amount], balance := s.balance - amount)
  }

  function Book(s: State, now: nat, index: nat, amount: nat, burned: nat): State
    requires Shape(s) && index < 2
  {
    s.(totalSpent := s.totalSpent[index := s.totalSpent[index] + amount],
       totalBurned := s.totalBurned[index := s.totalBurned[index] + burned],
       spends := s.spends + [Spend(now, index, amount, burned)])
  }

  /** From the withdrawal on: the swap with whatever it calls back, the floor, and the books. */
  function Finish(s: State, weth: Address, w: Swap, index: nat, amount: nat, required: nat): Result
    requires Configured(s) && index < 2 && amount <= s.earmarked[index] && amount <= s.balance
  {
    if !w.succeeds then Revert(SwapReverted)
    else
      var after := NestedAll(Withdraw(s, index, amount), weth, w.inner);
      if w.bought < 0 then Revert(Panic)
      else if w.bought < required then Revert(BelowFloor)
      else Ok(Book(after, w.now, index, amount, w.bought))
  }

  function OnBuyAndBurn(s: State, weth: Address, sqrtRatio: int -> nat, w: Swap, index: nat, amountIn: nat,
                        minAmountOut: nat): Result
    requires Configured(s)
  {
    if index >= 2 then Revert(Panic)
    else
      var t := s.targets[index];
      if t.token == 0 || t.pool == 0 then Revert(TargetNotConfigured)
      else
        var amount := AmountToSpend(s, index, amountIn);
        if amount == 0 || amount > s.earmarked[index] then Revert(NothingAllocated)
        else
          match ConsumeRateLimit(s, w.now, amount)
          case Revert(e) => Revert(e)
          case Ok(limited) =>
            match TwapFloor(sqrtRatio, t, w.cumulatives, amount)
            case None => Revert(OracleReverted)
            case Some(floor) =>
              if amount > limited.balance then Revert(SwapReverted)
              else Finish(limited, weth, w, index, amount, MaxOf(minAmountOut, floor))
  }
}
