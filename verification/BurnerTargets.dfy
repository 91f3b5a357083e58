/** The burner's targets: which are accepted, what is stored of them, and that over every run the direction a
    floor is priced in is the one the target's own pool reports. */
module BurnerTargets {
  import opened Util
  import opened TickPriceMath
  import opened BurnerSpec
  import opened BurnerInvariant

  /** A minute to a day, at most a tenth of slippage, and a pool, if any, of wrapped ether and the token. */
  predicate Acceptable(weth: Address, t: Target, tokens: PoolTokens) {
    && 60 <= t.twapWindow <= 86_400 && t.maxSlippageBps <= 1_000
    && (t.pool == 0 || tokens == PoolTokens(weth, t.token) || tokens == PoolTokens(t.token, weth))
  }

  /** The target as given, but for a direction taken from the pool's first token. */
  function Stored(weth: Address, t: Target, tokens: PoolTokens): Target {
    if t.pool == 0 then t
    else Target(t.token, t.pool, tokens.token0 == weth, t.shareBps, t.maxSlippageBps, t.twapWindow)
  }

  /** Deployment is accepted exactly for two acceptable targets whose shares add up to the whole; no limit on
      spending is then in force, and nothing is allocated. */
  lemma ConstructExactly(weth: Address, admin: Address, pons: Target, project: Target,
                         ponsTokens: PoolTokens, projectTokens: PoolTokens)
    ensures var r := Construct(weth, admin, pons, project, ponsTokens, projectTokens);
      && (r.Ok? <==>
            && weth != 0 && admin != 0 && pons.shareBps + project.shareBps == 10_000
            && Acceptable(weth, pons, ponsTokens) && Acceptable(weth, project, projectTokens))
      && (r.Ok? ==>
            && r.state.targets == [Stored(weth, pons, ponsTokens), Stored(weth, project, projectTokens)]
            && r.state.maxSpendPerWindow
               == 0xFFFF_FFFF_FFFF_FFFF_FFFF_FFFF_FFFF_FFFF_FFFF_FFFF_FFFF_FFFF_FFFF_FFFF_FFFF_FFFF
            && r.state.rateWindow == 3_600 && r.state.windowStart == r.state.spentInWindow == 0
            && r.state.earmarked == r.state.totalSpent == r.state.totalBurned == r.state.received == [0, 0]
            && r.state.balance == r.state.forced == 0 && r.state.spends == [])
  {
  }

  /** Replacing a target is accepted exactly for a role holder, one of the two targets and an acceptable
      replacement; its share stays, the rest is what was given, and nothing else changes. */
  lemma SetTargetExactly(s: State, authorized: bool, weth: Address, index: nat, token: Address, pool: Address,
                         slippage: nat, window: nat, tokens: PoolTokens)
    requires Shape(s)
    ensures var r := OnSetTarget(s, authorized, weth, index, token, pool, slippage, window, tokens);
      && (r.Ok? <==>
            && authorized && index < 2
            && Acceptable(weth, s.targets[index].(token := token, pool := pool, maxSlippageBps := slippage,
                                                  twapWindow := window), tokens))
      && (r.Ok? ==>
            && r.state == s.(targets := r.state.targets)
            && |r.state.targets| == 2 && r.state.targets[1 - index] == s.targets[1 - index]
            && var t := r.state.targets[index];
               && t.token == token && t.pool == pool && t.maxSlippageBps == slippage && t.twapWindow == window
               && t.shareBps == s.targets[index].shareBps
               && t.wethIsToken0 == if pool == 0 then s.targets[index].wethIsToken0 else tokens.token0 == weth)
  {
  }

  lemma SetRateLimitExactly(s: State, authorized: bool, maxSpend: nat, window: nat)
    ensures var r := OnSetRateLimit(s, authorized, maxSpend, window);
      && (r.Ok? <==> authorized)
      && (r.Ok? ==> r.state == s.(maxSpendPerWindow := maxSpend, rateWindow := window))
  {
  }

  /** What each call but a buyback does, on its own or during a swap: a refused one leaves no trace. */
  lemma NestedExactly(s: State, weth: Address, e: Inner)
    requires Configured(s)
    ensures e.Receive? ==>
      var toPons := e.amount * s.targets[0].shareBps / 10_000;
      && toPons <= e.amount
      && Nested(s, weth, e) == s.(
        earmarked := [s.earmarked[0] + toPons, s.earmarked[1] + (e.amount - toPons)],
        received := [s.received[0] + toPons, s.received[1] + (e.amount - toPons)],
        balance := s.balance + e.amount)
    ensures e.Force? ==>
      Nested(s, weth, e) == s.(balance := s.balance + e.amount, forced := s.forced + e.amount)
    ensures e.RateLimit? ==>
      Nested(s, weth, e) == if e.authorized then s.(maxSpendPerWindow := e.maxSpend, rateWindow := e.window) else s
    ensures e.Retarget? ==>
      Nested(s, weth, e) ==
        if e.authorized && e.index < 2 then
          var t := s.targets[e.index].(token := e.token, pool := e.pool, maxSlippageBps := e.maxSlippageBps,
                                       twapWindow := e.twapWindow);
          if Acceptable(weth, t, e.tokens) then s.(targets := s.targets[e.index := Stored(weth, t, e.tokens)]) else s
        else s
  {
    if e.Receive? {
      ShareWithinAmount(e.amount, s.targets[0].shareBps);
    }
  }

  // ---- over runs ----------------------------------------------------------------------

  /** Each pool has two tokens for good, and a target is set with what its pool reports. */
  ghost predicate Reports(pools: Address -> PoolTokens, e: Inner) {
    e.Retarget? ==> e.tokens == pools(e.pool)
  }

  ghost predicate CallReports(pools: Address -> PoolTokens, call: Call) {
    match call
    case Plain(e) => Reports(pools, e)
    case BuyAndBurn(swap, _, _, _) => forall i | 0 <= i < |swap.inner| :: Reports(pools, swap.inner[i])
  }

  /** A target's pool holds wrapped ether and the target's token, and the stored direction is the pool's. */
  ghost predicate Oriented(weth: Address, pools: Address -> PoolTokens, t: Target) {
    t.pool != 0 ==>
      && (t.wethIsToken0 <==> pools(t.pool).token0 == weth)
      && (if t.wethIsToken0 then pools(t.pool).token1 == t.token
          else pools(t.pool).token0 == t.token && pools(t.pool).token1 == weth)
  }

  /** Both targets are oriented, and keep the shares they had. */
  ghost predicate Targeted(weth: Address, pools: Address -> PoolTokens, shares: seq<nat>, s: State) {
    && Shape(s) && |shares| == 2
    && forall i | 0 <= i < 2 :: Oriented(weth, pools, s.targets[i]) && s.targets[i].shareBps == shares[i]
  }

  lemma NestedTargets(s: State, weth: Address, e: Inner, pools: Address -> PoolTokens, shares: seq<nat>)
    requires Configured(s) && Targeted(weth, pools, shares, s) && Reports(pools, e)
    ensures Targeted(weth, pools, shares, Nested(s, weth, e))
  {
    if e.Retarget? {
      SetTargetExactly(s, e.authorized, weth, e.index, e.token, e.pool, e.maxSlippageBps, e.twapWindow, e.tokens);
      assert e.index < 2 ==> Oriented(weth, pools, s.targets[e.index]) && Oriented(weth, pools, s.targets[1 - e.index]);
    }
  }

  lemma {:induction false} NestedAllTargets(s: State, weth: Address, inner: seq<Inner>, pools: Address -> PoolTokens,
                                            shares: seq<nat>)
    requires Configured(s) && Targeted(weth, pools, shares, s)
    requires forall i | 0 <= i < |inner| :: Reports(pools, inner[i])
    ensures Targeted(weth, pools, shares, NestedAll(s, weth, inner))
    decreases |inner|
  {
    hide Nested, Targeted;
    if inner != [] {
      NestedTargets(s, weth, inner[0], pools, shares);
      NestedAllTargets(Nested(s, weth, inner[0]), weth, inner[1..], pools, shares);
    }
  }

  lemma StepKeepsTargets(s: State, k: Setting, call: Call, pools: Address -> PoolTokens, shares: seq<nat>)
    requires Inv(s) && Targeted(k.weth, pools, shares, s) && CallReports(pools, call)
    ensures Targeted(k.weth, pools, shares, Step(s, k, call))
  {
    match call {
      case Plain(e) => NestedTargets(s, k.weth, e, pools, shares);
      case BuyAndBurn(w, index, amountIn, minAmountOut) =>
        if Apply(s, k, call).Ok? {
          var amount, after := BuyUnfolds(s, k, w, index, amountIn, minAmountOut);
          var limited := ConsumeRateLimit(s, w.now, amount).state;
          NestedAllTargets(Withdraw(limited, index, amount), k.weth, w.inner, pools, shares);
        }
    }
  }

  lemma {:induction false} RunKeepsTargets(s: State, k: Setting, calls: seq<Call>, pools: Address -> PoolTokens,
                                           shares: seq<nat>)
    requires Inv(s) && Targeted(k.weth, pools, shares, s)
    requires forall i | 0 <= i < |calls| :: CallReports(pools, calls[i])
    ensures Inv(Run(s, k, calls)) && Targeted(k.weth, pools, shares, Run(s, k, calls))
    decreases |calls|
  {
    hide Targeted, Step;
    if calls != [] {
      StepKeepsInv(s, k, calls[0]);
      StepKeepsTargets(s, k, calls[0], pools, shares);
      RunKeepsTargets(Step(s, k, calls[0]), k, calls[1..], pools, shares);
    }
  }

  lemma DeployedTargets(admin: Address, pons: Target, project: Target, k: Setting, pools: Address -> PoolTokens,
                        s: State)
    requires Construct(k.weth, admin, pons, project, pools(pons.pool), pools(project.pool)) == Ok(s)
    ensures Inv(s) && Targeted(k.weth, pools, [pons.shareBps, project.shareBps], s)
  {
    hide Inv, Construct, CheckTarget;
    ConstructInv(k.weth, admin, pons, project, pools(pons.pool), pools(project.pool));
    ConstructExactly(k.weth, admin, pons, project, pools(pons.pool), pools(project.pool));
  }

  /** From deployment on, whatever is called, during swaps too: a target's direction is its pool's, and the
      shares never change. */
  lemma TargetsFollowTheirPools(admin: Address, pons: Target, project: Target, k: Setting, calls: seq<Call>,
                                pools: Address -> PoolTokens)
    requires Construct(k.weth, admin, pons, project, pools(pons.pool), pools(project.pool)).Ok?
    requires forall i | 0 <= i < |calls| :: CallReports(pools, calls[i])
    ensures Inv(Construct(k.weth, admin, pons, project, pools(pons.pool), pools(project.pool)).state)
    ensures var s := Construct(k.weth, admin, pons, project, pools(pons.pool), pools(project.pool)).state;
      Inv(Run(s, k, calls)) && Targeted(k.weth, pools, [pons.shareBps, project.shareBps], Run(s, k, calls))
  {
    hide Inv, Construct, Targeted, Run, CallReports;
    var s := Construct(k.weth, admin, pons, project, pools(pons.pool), pools(project.pool)).state;
    DeployedTargets(admin, pons, project, k, pools, s);
    RunKeepsTargets(s, k, calls, pools, [pons.shareBps, project.shareBps]);
  }

  /** A buyback completed at any point of any run from deployment burned at least the caller's floor and nine
      tenths of the quote for its amount, in the direction the target's pool reports. */
  lemma BoughtAboveThePoolsQuote(admin: Address, pons: Target, project: Target, k: Setting, calls: seq<Call>,
                                 pools: Address -> PoolTokens, x: State, w: Swap, index: nat, amountIn: nat,
                                 minAmountOut: nat)
    requires Construct(k.weth, admin, pons, project, pools(pons.pool), pools(project.pool)).Ok?
    requires Inv(Construct(k.weth, admin, pons, project, pools(pons.pool), pools(project.pool)).state)
    requires forall i | 0 <= i < |calls| :: CallReports(pools, calls[i])
    requires x == Run(Construct(k.weth, admin, pons, project, pools(pons.pool), pools(project.pool)).state, k, calls)
    requires OnBuyAndBurn(x, k.weth, k.sqrtRatio, w, index, amountIn, minAmountOut).Ok?
    ensures index < 2 && x.targets[index].twapWindow > 0 && w.cumulatives.Some? && w.bought >= minAmountOut
    ensures var t := x.targets[index];
      var mean := MeanTick(w.cumulatives.value.1 - w.cumulatives.value.0, t.twapWindow);
      && (pools(t.pool) == PoolTokens(k.weth, t.token) || pools(t.pool) == PoolTokens(t.token, k.weth))
      && mean.Some?
      && var quote := QuoteAtTick(k.sqrtRatio, mean.value, AmountToSpend(x, index, amountIn) % TWO_128,
                                  pools(t.pool).token0 == k.weth);
         quote.Some? && 10 * (w.bought + 1) > 9 * quote.value
  {
    hide QuoteAtTick, MeanTick, OnBuyAndBurn;
    TargetsFollowTheirPools(admin, pons, project, k, calls, pools);
    BoughtAboveFloor(x, k, w, index, amountIn, minAmountOut);
    BuybackAcceptedExactly(x, k, w, index, amountIn, minAmountOut);
    assert Oriented(k.weth, pools, x.targets[index]);
  }
}
