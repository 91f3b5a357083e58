/** The burner contract: storage updated step by step, each call proved to be its transition, and the
    books balanced at the point where control leaves for the swap. */
module PonsBuybackBurner {
  import opened Util
  import opened TickPriceMath
  import opened BurnerSpec
  import opened BurnerInvariant

  /** A call that returns normally reaches the specified state; one that reverts leaves no trace. */
  ghost predicate Follows(spec: Result, before: State, after: State, error: Option<Error>) {
    match spec
    case Ok(s) => error == None && after == s
    case Revert(e) => error == Some(e) && after == before
  }

  class Burner {
    const weth: Address
    const sqrtRatio: int -> nat
    var targets: seq<Target>
    var earmarked: seq<nat>
    var totalSpent: seq<nat>
    var totalBurned: seq<nat>
    var maxSpendPerWindow: nat
    var rateWindow: nat
    var windowStart: nat
    var spentInWindow: nat
    var entered: bool
    var balance: nat
    // kept for reasoning only
    var forced: nat
    var received: seq<nat>
    var spends: seq<Spend>

    function Abs(): State
      reads this
    {
      State(targets, earmarked, totalSpent, totalBurned, maxSpendPerWindow, rateWindow, windowStart, spentInWindow,
            balance, forced, received, spends)
    }

    ghost predicate Valid()
      reads this
    {
      Inv(Abs())
    }

    constructor (weth: Address, sqrtRatio: int -> nat, admin: Address, pons: Target, project: Target,
                 ponsTokens: PoolTokens, projectTokens: PoolTokens)
      requires Construct(weth, admin, pons, project, ponsTokens, projectTokens).Ok?
      ensures Valid() && !entered && Abs() == Construct(weth, admin, pons, project, ponsTokens, projectTokens).state
    {
      this.weth, this.sqrtRatio := weth, sqrtRatio;
      targets := [CheckTarget(pons, weth, ponsTokens).target, CheckTarget(project, weth, projectTokens).target];
      earmarked, totalSpent, totalBurned, received, spends := [0, 0], [0, 0], [0, 0], [0, 0], [];
      maxSpendPerWindow, rateWindow, windowStart, spentInWindow := MAX_UINT256, 3_600, 0, 0;
      entered, balance, forced := false, 0, 0;
      new;
      ConstructInv(weth, admin, pons, project, ponsTokens, projectTokens);
    }

    method Receive(amount: nat)
      requires Configured(Abs())
      modifies this
      ensures Abs() == OnReceive(old(Abs()), amount) && entered == old(entered)
    {
      balance := balance + amount;
      var toPons := Share(amount, targets[0].shareBps);
      var toProject := amount - toPons;
      earmarked := [earmarked[0] + toPons, earmarked[1] + toProject];
      received := [received[0] + toPons, received[1] + toProject];
    }

    method ForceEther(amount: nat)
      requires Configured(Abs())
      modifies this
      ensures Abs() == Nested(old(Abs()), weth, Inner.Force(amount)) && entered == old(entered)
    {
      balance := balance + amount;
      forced := forced + amount;
    }

    method SetRateLimit(authorized: bool, maxSpend: nat, window: nat) returns (error: Option<Error>)
      modifies this
      ensures Follows(OnSetRateLimit(old(Abs()), authorized, maxSpend, window), old(Abs()), Abs(), error)
      ensures entered == old(entered)
    {
      if !authorized { return Some(Unauthorized); }
      maxSpendPerWindow := maxSpend;
      rateWindow := window;
      return None;
    }

    method SetTarget(authorized: bool, index: nat, token: Address, pool: Address, maxSlippageBps: nat, twapWindow: nat,
                     tokens: PoolTokens)
      returns (error: Option<Error>)
      requires Configured(Abs())
      modifies this
      ensures Follows(OnSetTarget(old(Abs()), authorized, weth, index, token, pool, maxSlippageBps, twapWindow, tokens),
                      old(Abs()), Abs(), error)
      ensures entered == old(entered)
    {
      if !authorized { return Some(Unauthorized); }
      if index >= 2 { return Some(Panic); }
      var t := targets[index].(token := token, pool := pool, maxSlippageBps := maxSlippageBps,
                               twapWindow := twapWindow);
      if t.twapWindow < MIN_TWAP_WINDOW || t.twapWindow > MAX_TWAP_WINDOW { return Some(WindowOutOfRange); }
      if t.maxSlippageBps > MAX_SLIPPAGE_BPS { return Some(SlippageTooLoose); }
      if t.pool != 0 {
        var ok := (tokens.token0 == weth && tokens.token1 == t.token)
                  || (tokens.token1 == weth && tokens.token0 == t.token);
        if !ok { return Some(PoolTokenMismatch); }
        t := t.(wethIsToken0 := tokens.token0 == weth);
      }
      targets := targets[index := t];
      return None;
    }

    method ConsumeRateLimit(now: nat, amount: nat) returns (error: Option<Error>)
      modifies this`windowStart, this`spentInWindow
      ensures match BurnerSpec.ConsumeRateLimit(old(Abs()), now, amount)
              case Ok(s) => error == None && Abs() == s
              case Revert(e) => error == Some(e)
    {
      if now >= windowStart + rateWindow {
        windowStart := now;
        spentInWindow := 0;
      }
      if spentInWindow > maxSpendPerWindow { return Some(Panic); }
      var remaining := maxSpendPerWindow - spentInWindow;
      if amount > remaining { return Some(RateLimited); }
      spentInWindow := spentInWindow + amount;
      return None;
    }

    /** Calls that may arrive while the swap runs; the guard turns a nested buyback away. */
    method CallBack(w: Swap, index: nat, amount: nat)
      requires Configured(Abs()) && Conserved(Abs(), index, amount) && entered
      modifies this
      ensures Abs() == NestedAll(old(Abs()), weth, w.inner) && entered
    {
      ghost var s0 := Abs();
      var i := 0;
      assert w.inner[0..] == w.inner;
      while i < |w.inner|
        invariant i <= |w.inner| && entered && Configured(Abs())
        invariant Conserved(Abs(), index, amount)
        invariant NestedAll(s0, weth, w.inner) == NestedAll(Abs(), weth, w.inner[i..])
      {
        assert w.inner[i..][0] == w.inner[i] && w.inner[i..][1..] == w.inner[i + 1..];
        NestedConserves(Abs(), weth, w.inner[i], index, amount);
        OneCallBack(w.inner[i]);
        i := i + 1;
      }
    }

    method OneCallBack(e: Inner)
      requires Configured(Abs())
      modifies this
      ensures Abs() == Nested(old(Abs()), weth, e) && entered == old(entered)
    {
      var error;
      match e {
        case Receive(amount) => Receive(amount);
        case Force(amount) => ForceEther(amount);
        case RateLimit(authorized, maxSpend, window) => error := SetRateLimit(authorized, maxSpend, window);
        case Retarget(authorized, index, token, pool, slippage, window, tokens) =>
          error := SetTarget(authorized, index, token, pool, slippage, window, tokens);
      }
    }

    /** Everything checked before control leaves: the amount, the limit and the floor. */
    method Prepare(w: Swap, index: nat, amountIn: nat, minAmountOut: nat)
      returns (error: Option<Error>, amount: nat, required: nat)
      requires Valid() && index < 2
      modifies this`windowStart, this`spentInWindow
      ensures error.Some? ==>
        OnBuyAndBurn(old(Abs()), weth, sqrtRatio, w, index, amountIn, minAmountOut) == Revert(error.value)
      ensures error.None? ==>
        && amount == AmountToSpend(old(Abs()), index, amountIn)
        && amount <= earmarked[index] && amount <= balance
        && BurnerSpec.ConsumeRateLimit(old(Abs()), w.now, amount) == Ok(Abs())
      ensures error.None? ==>
        OnBuyAndBurn(old(Abs()), weth, sqrtRatio, w, index, amountIn, minAmountOut)
        == Finish(Abs(), weth, w, index, amount, required)
    {
      amount, required := 0, 0;
      var t := targets[index];
      if t.token == 0 || t.pool == 0 { return Some(TargetNotConfigured), 0, 0; }
      var available := earmarked[index];
      amount := if amountIn == 0 then available else amountIn;
      if amount == 0 || amount > available { return Some(NothingAllocated), 0, 0; }
      ghost var s := Abs();
      error := ConsumeRateLimit(w.now, amount);
      if error.Some? { return error, 0, 0; }
      WithdrawPutsInFlight(s, w.now, index, amount);
      var floor := TwapFloor(sqrtRatio, t, w.cumulatives, amount);
      if floor.None? { return Some(OracleReverted), 0, 0; }
      required := if minAmountOut > floor.value then minAmountOut else floor.value;
    }

    /** The guarded body; a revert anywhere is undone by the caller. */
    method Buy(w: Swap, index: nat, amountIn: nat, minAmountOut: nat) returns (error: Option<Error>, burned: nat)
      requires Valid() && entered
      modifies this
      ensures match OnBuyAndBurn(old(Abs()), weth, sqrtRatio, w, index, amountIn, minAmountOut)
              case Ok(s) => error == None && Abs() == s && burned == w.bought
              case Revert(e) => error == Some(e)
      ensures entered
    {
      if index >= 2 { return Some(Panic), 0; }
      ghost var s := Abs();
      var amount, required;
      error, amount, required := Prepare(w, index, amountIn, minAmountOut);
      if error.Some? { return error, 0; }
      WithdrawPutsInFlight(s, w.now, index, amount);
      error, burned := SwapAndBook(w, index, amount, required);
    }

    /** Off the allocation, then out of the balance as the wrapped deposit. */
    method WithdrawEth(index: nat, amount: nat)
      requires Shape(Abs()) && index < 2 && amount <= earmarked[index] && amount <= balance
      modifies this`earmarked, this`balance
      ensures Abs() == Withdraw(old(Abs()), index, amount)
    {
      earmarked := earmarked[index := earmarked[index] - amount];
      balance := balance - amount;
    }

    method Record(now: nat, index: nat, amount: nat, burned: nat)
      requires Shape(Abs()) && index < 2
      modifies this`totalSpent, this`totalBurned, this`spends
      ensures Abs() == Book(old(Abs()), now, index, amount, burned)
    {
      totalSpent := totalSpent[index := totalSpent[index] + amount];
      totalBurned := totalBurned[index := totalBurned[index] + burned];
      spends := spends + [Spend(now, index, amount, burned)];
    }

    /** Out of the allocation, through the swap, and onto the totals. */
    method SwapAndBook(w: Swap, index: nat, amount: nat, required: nat) returns (error: Option<Error>, burned: nat)
      requires Configured(Abs()) && entered && index < 2 && amount <= earmarked[index] && amount <= balance
      requires Conserved(Withdraw(Abs(), index, amount), index, amount)
      modifies this
      ensures match Finish(old(Abs()), weth, w, index, amount, required)
              case Ok(s) => error == None && Abs() == s && burned == w.bought
              case Revert(e) => error == Some(e)
      ensures entered
    {
      WithdrawEth(index, amount);
      if !w.succeeds { return Some(SwapReverted), 0; }
      CallBack(w, index, amount);
      if w.bought < 0 { return Some(Panic), 0; }
      burned := w.bought;
      if burned < required { return Some(BelowFloor), burned; }
      Record(w.now, index, amount, burned);
      return None, burned;
    }

    /** Undoing everything a reverted call did. */
    method Rollback(saved: State)
      modifies this
      ensures Abs() == saved && entered == old(entered)
    {
      targets, earmarked := saved.targets, saved.earmarked;
      totalSpent, totalBurned := saved.totalSpent, saved.totalBurned;
      maxSpendPerWindow, rateWindow := saved.maxSpendPerWindow, saved.rateWindow;
      windowStart, spentInWindow := saved.windowStart, saved.spentInWindow;
      balance, forced, received, spends := saved.balance, saved.forced, saved.received, saved.spends;
    }

    method BuyAndBurn(w: Swap, index: nat, amountIn: nat, minAmountOut: nat) returns (error: Option<Error>, burned: nat)
      requires Valid()
      modifies this
      ensures Valid() && entered == old(entered)
      ensures old(entered) ==> error == Some(ReentrantCall) && Abs() == old(Abs())
      ensures !old(entered) ==>
        Follows(OnBuyAndBurn(old(Abs()), weth, sqrtRatio, w, index, amountIn, minAmountOut), old(Abs()), Abs(), error)
      ensures error.None? ==> burned == w.bought
    {
      if entered { return Some(ReentrantCall), 0; }
      ghost var call := Call.BuyAndBurn(w, index, amountIn, minAmountOut);
      StepKeepsInv(Abs(), Setting(weth, sqrtRatio), call);
      var saved := Abs();
      entered := true;
      error, burned := Buy(w, index, amountIn, minAmountOut);
      entered := false;
      if error.Some? { Rollback(saved); }
    }
  }
}
