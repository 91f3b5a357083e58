/** The burner over whole runs: no ETH is lost track of, and the spending limit holds in every window. */
module BurnerInvariant {
  import opened Util
  import opened TickPriceMath
  import opened BurnerSpec
  import Sdk

  datatype Call =
    | Plain(e: Inner)
    | BuyAndBurn(swap: Swap, index: nat, amountIn: nat, minAmountOut: nat)

  /** What never changes: the wrapped-ether token and the tick table. */
  datatype Setting = Setting(weth: Address, sqrtRatio: int -> nat)

  function Apply(s: State, k: Setting, call: Call): Result
    requires Configured(s)
  {
    match call
    case Plain(e) => Ok(Nested(s, k.weth, e))
    case BuyAndBurn(swap, index, amountIn, minAmountOut) =>
      OnBuyAndBurn(s, k.weth, k.sqrtRatio, swap, index, amountIn, minAmountOut)
  }

  function Step(s: State, k: Setting, call: Call): (r: State)
    requires Configured(s)
    ensures Configured(r)
  {
    match Apply(s, k, call) case Ok(s') => s' case Revert(_) => s
  }

  function Run(s: State, k: Setting, calls: seq<Call>): (r: State)
    requires Configured(s)
    ensures Configured(r)
    decreases |calls|
  {
    if calls == [] then s else Run(Step(s, k, calls[0]), k, calls[1..])
  }

  // ---- conservation -------------------------------------------------------------------

  /** Per target, everything ever received is allocated, spent or in flight, and the balance is both
      allocations plus ETH that was forced in. */
  ghost predicate Conserved(s: State, index: nat, inFlight: nat) {
    && Shape(s)
    && (forall i | 0 <= i < 2 ::
          s.received[i] == s.earmarked[i] + s.totalSpent[i] + (if i == index then inFlight else 0))
    && s.balance == s.earmarked[0] + s.earmarked[1] + s.forced
  }

  function SumOn(spends: seq<Spend>, index: nat): (spentAndBurned: (nat, nat)) {
    if spends == [] then (0, 0)
    else
      var (spent, burned) := SumOn(spends[..|spends| - 1], index);
      var last := spends[|spends| - 1];
      if last.index == index then (spent + last.amount, burned + last.burned) else (spent, burned)
  }

  /** The reported totals are sums over the buybacks that happened. */
  ghost predicate Reported(s: State) {
    Shape(s) && forall i | 0 <= i < 2 :: (s.totalSpent[i], s.totalBurned[i]) == SumOn(s.spends, i)
  }

  ghost predicate Inv(s: State) {
    Configured(s) && Conserved(s, 0, 0) && Reported(s)
  }

  lemma ConstructInv(weth: Address, admin: Address, pons: Target, project: Target, a: PoolTokens, b: PoolTokens)
    requires Construct(weth, admin, pons, project, a, b).Ok?
    ensures Inv(Construct(weth, admin, pons, project, a, b).state)
  {
  }

  lemma NestedConserves(s: State, weth: Address, e: Inner, index: nat, inFlight: nat)
    requires Configured(s) && Conserved(s, index, inFlight)
    ensures var r := Nested(s, weth, e);
      && Conserved(r, index, inFlight) && r.totalSpent == s.totalSpent && r.totalBurned == s.totalBurned
      && r.spends == s.spends && r.windowStart == s.windowStart && r.spentInWindow == s.spentInWindow
  {
  }

  lemma {:induction false} NestedAllConserves(s: State, weth: Address, inner: seq<Inner>, index: nat, inFlight: nat)
    requires Configured(s) && Conserved(s, index, inFlight)
    ensures var r := NestedAll(s, weth, inner);
      && Conserved(r, index, inFlight) && r.totalSpent == s.totalSpent && r.totalBurned == s.totalBurned
      && r.spends == s.spends && r.windowStart == s.windowStart && r.spentInWindow == s.spentInWindow
    decreases |inner|
  {
    if inner != [] {
      NestedConserves(s, weth, inner[0], index, inFlight);
      NestedAllConserves(Nested(s, weth, inner[0]), weth, inner[1..], index, inFlight);
    }
  }

  lemma WithdrawPutsInFlight(s: State, now: nat, index: nat, amount: nat)
    requires Inv(s) && index < 2 && amount <= s.earmarked[index] && ConsumeRateLimit(s, now, amount).Ok?
    ensures amount <= s.balance
    ensures var limited := ConsumeRateLimit(s, now, amount).state;
      Configured(Withdraw(limited, index, amount)) && Conserved(Withdraw(limited, index, amount), index, amount)
  {
  }

  /** At every point of the swap, whatever it calls back, the books balance with the amount in flight. */
  lemma ConservedThroughoutSwap(s: State, weth: Address, now: nat, index: nat, amount: nat, inner: seq<Inner>, k: nat)
    requires Inv(s) && index < 2 && amount <= s.earmarked[index] && ConsumeRateLimit(s, now, amount).Ok?
    requires k <= |inner|
    ensures amount <= s.balance
    ensures var limited := ConsumeRateLimit(s, now, amount).state;
      && Configured(Withdraw(limited, index, amount))
      && Conserved(NestedAll(Withdraw(limited, index, amount), weth, inner[..k]), index, amount)
  {
    WithdrawPutsInFlight(s, now, index, amount);
    NestedAllConserves(Withdraw(ConsumeRateLimit(s, now, amount).state, index, amount), weth, inner[..k], index,
                       amount);
  }

  lemma BookLands(s: State, s0: State, now: nat, index: nat, amount: nat, burned: nat)
    requires Configured(s) && index < 2 && Conserved(s, index, amount) && Reported(s0)
    requires s.totalSpent == s0.totalSpent && s.totalBurned == s0.totalBurned && s.spends == s0.spends
    ensures Inv(Book(s, now, index, amount, burned))
  {
    var r := Book(s, now, index, amount, burned);
    assert r.spends[..|r.spends| - 1] == s.spends;
  }

  /** What a completed buyback did to the books. */
  lemma BuyUnfolds(s: State, k: Setting, w: Swap, index: nat, amountIn: nat, minAmountOut: nat)
    returns (amount: nat, after: State)
    requires Inv(s) && OnBuyAndBurn(s, k.weth, k.sqrtRatio, w, index, amountIn, minAmountOut).Ok?
    ensures index < 2 && 0 < amount <= s.earmarked[index] && amount == AmountToSpend(s, index, amountIn)
    ensures ConsumeRateLimit(s, w.now, amount).Ok? && amount <= s.balance
    ensures var limited := ConsumeRateLimit(s, w.now, amount).state;
      && Configured(Withdraw(limited, index, amount))
      && after == NestedAll(Withdraw(limited, index, amount), k.weth, w.inner)
      && after.spends == s.spends
      && after.windowStart == limited.windowStart && after.spentInWindow == limited.spentInWindow
      && after.totalSpent == s.totalSpent && after.totalBurned == s.totalBurned
    ensures Conserved(after, index, amount) && w.bought >= minAmountOut
    ensures OnBuyAndBurn(s, k.weth, k.sqrtRatio, w, index, amountIn, minAmountOut)
      == Ok(Book(after, w.now, index, amount, w.bought))
  {
    amount := AmountToSpend(s, index, amountIn);
    WithdrawPutsInFlight(s, w.now, index, amount);
    var withdrawn := Withdraw(ConsumeRateLimit(s, w.now, amount).state, index, amount);
    NestedAllConserves(withdrawn, k.weth, w.inner, index, amount);
    after := NestedAll(withdrawn, k.weth, w.inner);
  }

  lemma StepKeepsInv(s: State, k: Setting, call: Call)
    requires Inv(s)
    ensures Inv(Step(s, k, call))
  {
    match call {
      case Plain(e) => NestedConserves(s, k.weth, e, 0, 0);
      case BuyAndBurn(w, index, amountIn, minAmountOut) =>
        if Apply(s, k, call).Ok? {
          var amount, after := BuyUnfolds(s, k, w, index, amountIn, minAmountOut);
          BookLands(after, s, w.now, index, amount, w.bought);
        }
    }
  }

  /** Conservation over every run of receipts, forced ETH, reconfiguration and buybacks. */
  lemma {:induction false} RunKeepsInv(s: State, k: Setting, calls: seq<Call>)
    requires Inv(s)
    ensures Inv(Run(s, k, calls))
    decreases |calls|
  {
    if calls != [] {
      StepKeepsInv(s, k, calls[0]);
      RunKeepsInv(Step(s, k, calls[0]), k, calls[1..]);
    }
  }

  /** A buyback within its allocation, the limit and the floor never fails for want of ETH. */
  lemma BuybackIsAlwaysFunded(s: State, k: Setting, w: Swap, index: nat, amountIn: nat, minAmountOut: nat)
    requires Inv(s) && w.succeeds
    ensures OnBuyAndBurn(s, k.weth, k.sqrtRatio, w, index, amountIn, minAmountOut) != Revert(SwapReverted)
  {
    if index < 2 {
      var amount := AmountToSpend(s, index, amountIn);
      if amount <= s.earmarked[index] && ConsumeRateLimit(s, w.now, amount).Ok? {
        WithdrawPutsInFlight(s, w.now, index, amount);
      }
    }
  }

  // ---- the spending limit -------------------------------------------------------------

  /** Spending in the half-open interval [a, b). */
  function SpentIn(log: seq<Spend>, a: int, b: int): nat {
    if log == [] then 0
    else
      var last := log[|log| - 1];
      SpentIn(log[..|log| - 1], a, b) + (if a <= last.time < b then last.amount else 0)
  }

  lemma SpentInOneMore(log: seq<Spend>, e: Spend, a: int, b: int)
    ensures SpentIn(log + [e], a, b) == SpentIn(log, a, b) + (if a <= e.time < b then e.amount else 0)
  {
    assert (log + [e])[..|log|] == log;
  }

  lemma {:induction false} SpentInSplits(log: seq<Spend>, a: int, b: int, c: int)
    requires a <= b <= c
    ensures SpentIn(log, a, c) == SpentIn(log, a, b) + SpentIn(log, b, c)
  {
    if log != [] {
      SpentInSplits(log[..|log| - 1], a, b, c);
    }
  }

  lemma SpentInWider(log: seq<Spend>, a: int, b: int, a': int, b': int)
    requires a' <= a <= b <= b'
    ensures SpentIn(log, a, b) <= SpentIn(log, a', b')
  {
    SpentInSplits(log, a', a, b');
    SpentInSplits(log, a, b, b');
  }

  lemma {:induction false} NothingSpentFrom(log: seq<Spend>, a: int, b: int)
    requires forall i | 0 <= i < |log| :: log[i].time < a
    ensures SpentIn(log, a, b) == 0
  {
    if log != [] {
      NothingSpentFrom(log[..|log| - 1], a, b);
    }
  }

  /** Spending over the half-open window that begins at a. */
  function SpentOver(log: seq<Spend>, a: int, window: nat): nat {
    SpentIn(log, a, a + window)
  }

  ghost predicate EveryWindowWithin(log: seq<Spend>, window: nat, bound: nat) {
    forall a: int :: SpentOver(log, a, window) <= bound
  }

  /** What the limiter keeps about the buybacks since the limits were last set. */
  ghost predicate Paced(log: seq<Spend>, start: nat, spent: nat, cap: nat, window: nat, now: nat) {
    && start <= now && window > 0
    && (forall i | 0 <= i < |log| :: log[i].time < start + window && log[i].time <= now)
    && SpentIn(log, start, start + window) <= cap
    && SpentIn(log, start, start + window) <= spent
    && SpentIn(log, start - window + 1, start) <= cap
    && EveryWindowWithin(log, window, 2 * cap)
  }

  lemma PacedWhenWindowRestarts(log: seq<Spend>, start: nat, spent: nat, cap: nat, window: nat, now: nat, e: Spend)
    requires Paced(log, start, spent, cap, window, now) && now <= e.time && e.amount <= cap
    requires e.time >= start + window
    ensures Paced(log + [e], e.time, e.amount, cap, window, e.time)
  {
    var t := e.time;
    NothingSpentFrom(log, t, t + window);
    SpentInOneMore(log, e, t, t + window);
    SpentInOneMore(log, e, t - window + 1, t);
    SpentInSplitsAt(log, start, t, window);
    EveryWindow(log, e, t, cap, window);
  }

  lemma SpentInSplitsAt(log: seq<Spend>, start: nat, t: nat, window: nat)
    requires t >= start + window && window > 0
    requires forall i | 0 <= i < |log| :: log[i].time < start + window
    ensures SpentIn(log, t - window + 1, t) <= SpentIn(log, start, start + window)
  {
    NothingSpentFrom(log, start + window, t);
    SpentInSplits(log, start, start + window, t);
    SpentInWider(log, t - window + 1, t, start, t);
  }

  lemma EveryWindow(log: seq<Spend>, e: Spend, start: nat, cap: nat, window: nat)
    requires start <= e.time < start + window
    requires forall i | 0 <= i < |log| :: log[i].time < start + window
    requires SpentIn(log + [e], start, start + window) <= cap
    requires SpentIn(log + [e], start - window + 1, start) <= cap
    requires EveryWindowWithin(log, window, 2 * cap)
    ensures EveryWindowWithin(log + [e], window, 2 * cap)
  {
    forall a: int
      ensures SpentOver(log + [e], a, window) <= 2 * cap
    {
      assert SpentOver(log, a, window) <= 2 * cap;
      OneWindow(log, e, start, cap, window, a);
    }
  }

  /** An interval of one window's length meets at most two tumbling windows. */
  lemma OneWindow(log: seq<Spend>, e: Spend, start: nat, cap: nat, window: nat, a: int)
    requires start <= e.time < start + window
    requires forall i | 0 <= i < |log| :: log[i].time < start + window
    requires SpentIn(log + [e], start, start + window) <= cap
    requires SpentIn(log + [e], start - window + 1, start) <= cap
    requires SpentIn(log, a, a + window) <= 2 * cap
    ensures SpentIn(log + [e], a, a + window) <= 2 * cap
  {
    var log' := log + [e];
    SpentInOneMore(log, e, a, a + window);
    if a <= e.time < a + window {
      if a <= start {
        SpentInSplits(log', a, start, a + window);
        SpentInWider(log', a, start, start - window + 1, start);
        SpentInWider(log', start, a + window, start, start + window);
      } else {
        NothingSpentFrom(log', start + window, a + window);
        SpentInSplits(log', a, start + window, a + window);
        SpentInWider(log', a, start + window, start, start + window);
      }
    }
  }

  lemma PacedWithinWindow(log: seq<Spend>, start: nat, spent: nat, cap: nat, window: nat, now: nat, e: Spend)
    requires Paced(log, start, spent, cap, window, now) && now <= e.time && spent + e.amount <= cap
    requires e.time < start + window
    ensures Paced(log + [e], start, spent + e.amount, cap, window, e.time)
  {
    SpentInOneMore(log, e, start, start + window);
    SpentInOneMore(log, e, start - window + 1, start);
    EveryWindow(log, e, start, cap, window);
  }

  // ---- the limit over runs ------------------------------------------------------------

  predicate LeavesLimit(e: Inner) { !(e.RateLimit? && e.authorized) }

  predicate LeavesLimits(call: Call) {
    match call
    case Plain(e) => LeavesLimit(e)
    case BuyAndBurn(swap, _, _, _) => forall i | 0 <= i < |swap.inner| :: LeavesLimit(swap.inner[i])
  }

  function TimeOf(call: Call, now: nat): nat {
    match call case Plain(_) => now case BuyAndBurn(swap, _, _, _) => swap.now
  }

  ghost predicate Chronological(now: nat, calls: seq<Call>)
    decreases |calls|
  {
    calls == [] || (now <= TimeOf(calls[0], now) && Chronological(TimeOf(calls[0], now), calls[1..]))
  }

  lemma {:induction false} NestedLeavesLimits(s: State, weth: Address, inner: seq<Inner>)
    requires Configured(s) && forall i | 0 <= i < |inner| :: LeavesLimit(inner[i])
    ensures NestedAll(s, weth, inner).maxSpendPerWindow == s.maxSpendPerWindow
    ensures NestedAll(s, weth, inner).rateWindow == s.rateWindow
    decreases |inner|
  {
    if inner != [] {
      assert LeavesLimit(inner[0]);
      NestedLeavesLimits(Nested(s, weth, inner[0]), weth, inner[1..]);
    }
  }

  ghost predicate PacedSince(s: State, since: nat, now: nat) {
    && since <= |s.spends|
    && Paced(s.spends[since..], s.windowStart, s.spentInWindow, s.maxSpendPerWindow, s.rateWindow, now)
  }

  lemma ConsumeKeepsPace(s: State, since: nat, now: nat, e: Spend, r: State)
    requires PacedSince(s, since, now) && now <= e.time && ConsumeRateLimit(s, e.time, e.amount).Ok?
    requires r.spends == s.spends + [e]
    requires var limited := ConsumeRateLimit(s, e.time, e.amount).state;
      && r.windowStart == limited.windowStart && r.spentInWindow == limited.spentInWindow
      && r.maxSpendPerWindow == s.maxSpendPerWindow && r.rateWindow == s.rateWindow
    ensures PacedSince(r, since, e.time)
  {
    var log := s.spends[since..];
    assert r.spends[since..] == log + [e];
    if e.time >= s.windowStart + s.rateWindow {
      PacedWhenWindowRestarts(log, s.windowStart, s.spentInWindow, s.maxSpendPerWindow, s.rateWindow, now, e);
    } else {
      PacedWithinWindow(log, s.windowStart, s.spentInWindow, s.maxSpendPerWindow, s.rateWindow, now, e);
    }
  }

  lemma StepKeepsPace(s: State, k: Setting, call: Call, since: nat, now: nat)
    requires Inv(s) && PacedSince(s, since, now) && LeavesLimits(call) && now <= TimeOf(call, now)
    ensures PacedSince(Step(s, k, call), since, TimeOf(call, now))
    ensures Step(s, k, call).maxSpendPerWindow == s.maxSpendPerWindow && Step(s, k, call).rateWindow == s.rateWindow
  {
    match call {
      case Plain(e) => NestedConserves(s, k.weth, e, 0, 0);
      case BuyAndBurn(w, index, amountIn, minAmountOut) =>
        if Apply(s, k, call).Ok? {
          var amount, after := BuyUnfolds(s, k, w, index, amountIn, minAmountOut);
          NestedLeavesLimits(Withdraw(ConsumeRateLimit(s, w.now, amount).state, index, amount), k.weth, w.inner);
          ConsumeKeepsPace(s, since, now, Spend(w.now, index, amount, w.bought), Step(s, k, call));
        }
    }
  }

  lemma {:induction false} RunKeepsPace(s: State, k: Setting, calls: seq<Call>, since: nat, now: nat)
    returns (now': nat)
    requires Inv(s) && PacedSince(s, since, now) && Chronological(now, calls)
    requires forall i | 0 <= i < |calls| :: LeavesLimits(calls[i])
    ensures PacedSince(Run(s, k, calls), since, now')
    ensures Run(s, k, calls).maxSpendPerWindow == s.maxSpendPerWindow && Run(s, k, calls).rateWindow == s.rateWindow
    decreases |calls|
  {
    if calls != [] {
      assert LeavesLimits(calls[0]);
      StepKeepsInv(s, k, calls[0]);
      StepKeepsPace(s, k, calls[0], since, now);
      now' := RunKeepsPace(Step(s, k, calls[0]), k, calls[1..], since, TimeOf(calls[0], now));
    } else {
      now' := now;
    }
  }

  /** With unchanged limits, every half-open interval as long as the rate window contains total spending
      of at most twice the cap, across both targets, whatever was spent before the run. */
  lemma SpendingIsPaced(s: State, k: Setting, calls: seq<Call>, now: nat, a: int)
    requires Inv(s) && s.windowStart <= now && Chronological(now, calls) && s.rateWindow > 0
    requires forall i | 0 <= i < |calls| :: LeavesLimits(calls[i])
    ensures |s.spends| <= |Run(s, k, calls).spends|
    ensures SpentOver(Run(s, k, calls).spends[|s.spends|..], a, s.rateWindow) <= 2 * s.maxSpendPerWindow
  {
    assert s.spends[|s.spends|..] == [];
    var now' := RunKeepsPace(s, k, calls, |s.spends|, now);
  }

  /** A target that can be bought from: configured, allocated, and priced for the amount. */
  ghost predicate Buyable(s: State, k: Setting, cumulatives: Option<(int, int)>, amount: nat) {
    && Inv(s) && s.targets[0].token != 0 && s.targets[0].pool != 0
    && 0 < amount <= s.earmarked[0]
    && TwapFloor(k.sqrtRatio, s.targets[0], cumulatives, amount).Some?
  }

  /** A buyback for the first target that swaps quietly at exactly its floor. */
  function BuyAtFloor(s: State, k: Setting, time: nat, cumulatives: Option<(int, int)>, amount: nat): Call
    requires Configured(s) && TwapFloor(k.sqrtRatio, s.targets[0], cumulatives, amount).Some?
  {
    var floor := TwapFloor(k.sqrtRatio, s.targets[0], cumulatives, amount).value;
    BuyAndBurn(Swap(time, cumulatives, true, [], floor), 0, amount, 0)
  }

  lemma BuyOnce(s: State, k: Setting, time: nat, cumulatives: Option<(int, int)>, amount: nat)
    returns (call: Call, r: State, e: Spend)
    requires Buyable(s, k, cumulatives, amount) && ConsumeRateLimit(s, time, amount).Ok?
    ensures call == BuyAtFloor(s, k, time, cumulatives, amount) && Apply(s, k, call) == Ok(r) && Inv(r)
    ensures r.spends == s.spends + [e] && e.time == time && e.amount == amount
    ensures r.targets == s.targets && r.earmarked[0] == s.earmarked[0] - amount
    ensures r.maxSpendPerWindow == s.maxSpendPerWindow && r.rateWindow == s.rateWindow
    ensures var limited := ConsumeRateLimit(s, time, amount).state;
      r.windowStart == limited.windowStart && r.spentInWindow == limited.spentInWindow
  {
    hide TwapFloor;
    call := BuyAtFloor(s, k, time, cumulatives, amount);
    WithdrawPutsInFlight(s, time, 0, amount);
    assert NestedAll(Withdraw(ConsumeRateLimit(s, time, amount).state, 0, amount), k.weth, [])
        == Withdraw(ConsumeRateLimit(s, time, amount).state, 0, amount);
    r := Apply(s, k, call).state;
    e := r.spends[|s.spends|];
    StepKeepsInv(s, k, call);
  }

  /** The bound is within one wei of tight: from any state with twice the cap allocated, three buybacks
      go through, of one wei, the rest of the cap in the window's last second and a full cap in the
      second after, and all but the first wei is spent within one window's length. */
  lemma BoundIsTight(s: State, k: Setting, t: nat, cumulatives: Option<(int, int)>) returns (calls: seq<Call>)
    requires s.maxSpendPerWindow >= 2 && s.rateWindow >= 2 && t >= s.windowStart + s.rateWindow
    requires Buyable(s, k, cumulatives, 1) && Buyable(s, k, cumulatives, s.maxSpendPerWindow - 1)
    requires Buyable(s, k, cumulatives, s.maxSpendPerWindow) && s.earmarked[0] >= 2 * s.maxSpendPerWindow
    ensures Chronological(t, calls) && forall i | 0 <= i < |calls| :: LeavesLimits(calls[i])
    ensures |s.spends| <= |Run(s, k, calls).spends|
    ensures SpentOver(Run(s, k, calls).spends[|s.spends|..], t + 1, s.rateWindow) == 2 * s.maxSpendPerWindow - 1
  {
    hide TwapFloor, Apply, SpentIn, Conserved, Reported;
    var cap, last := s.maxSpendPerWindow, t + s.rateWindow - 1;
    var one, s1, a := BuyOnce(s, k, t, cumulatives, 1);
    var two, s2, b := BuyOnce(s1, k, last, cumulatives, cap - 1);
    var three, s3, c := BuyOnce(s2, k, last + 1, cumulatives, cap);
    calls := [one, two, three];
    RunThree(s, k, one, two, three);
    assert s3 == Run(s, k, calls);
    assert s3.spends[|s.spends|..] == [a, b, c];
    SpentOfThree(a, b, c, t + 1, t + 1 + s.rateWindow);
    ThreeInOrder(one, two, three, t);
  }

  lemma ThreeInOrder(one: Call, two: Call, three: Call, now: nat)
    requires one.BuyAndBurn? && two.BuyAndBurn? && three.BuyAndBurn?
    requires now <= one.swap.now <= two.swap.now <= three.swap.now
    ensures Chronological(now, [one, two, three])
  {
    assert [one, two, three][1..] == [two, three] && [two, three][1..] == [three] && [three][1..] == [];
    assert Chronological(two.swap.now, [three]);
    assert Chronological(one.swap.now, [two, three]);
  }

  lemma RunThree(s: State, k: Setting, one: Call, two: Call, three: Call)
    requires Configured(s)
    ensures Run(s, k, [one, two, three]) == Step(Step(Step(s, k, one), k, two), k, three)
  {
    assert [one, two, three][1..] == [two, three] && [two, three][1..] == [three] && [three][1..] == [];
    assert Run(Step(Step(s, k, one), k, two), k, [three]) == Run(Step(Step(Step(s, k, one), k, two), k, three), k, []);
  }

  lemma SpentOfThree(a: Spend, b: Spend, c: Spend, from: int, to: int)
    requires a.time < from <= b.time < to && from <= c.time < to
    ensures SpentIn([a, b, c], from, to) == b.amount + c.amount
  {
    var none: seq<Spend> := [];
    assert [a] == none + [a] && [a, b] == [a] + [b] && [a, b, c] == [a, b] + [c];
    SpentInOneMore(none, a, from, to);
    SpentInOneMore([a], b, from, to);
    SpentInOneMore([a, b], c, from, to);
  }

  // ---- the split and the floor --------------------------------------------------------

  /** The client library's split is the contract's, and between them the two targets get every wei. */
  lemma SplitMatchesSdk(s: State, amount: nat)
    requires Configured(s)
    ensures var r := OnReceive(s, amount);
      && (r.received[0] - s.received[0], r.received[1] - s.received[1])
         == Sdk.SplitBurnAllocation(amount, s.targets[0].shareBps)
      && r.received[0] + r.received[1] == s.received[0] + s.received[1] + amount
      && (r.earmarked[0] - s.earmarked[0]) * MAX_BPS <= amount * s.targets[0].shareBps
                                                     < (r.earmarked[0] - s.earmarked[0] + 1) * MAX_BPS
  {
    DivBounds(amount * s.targets[0].shareBps, MAX_BPS);
  }

  /** A completed buyback burned at least the caller's floor and at least nine tenths of the pool's own
      time-weighted quote for the amount. */
  lemma BoughtAboveFloor(s: State, k: Setting, w: Swap, index: nat, amountIn: nat, minAmountOut: nat)
    requires Inv(s) && OnBuyAndBurn(s, k.weth, k.sqrtRatio, w, index, amountIn, minAmountOut).Ok?
    ensures index < 2 && s.targets[index].twapWindow > 0
    ensures var r := OnBuyAndBurn(s, k.weth, k.sqrtRatio, w, index, amountIn, minAmountOut).state;
      && r.totalBurned[index] == s.totalBurned[index] + w.bought && w.bought >= minAmountOut
      && w.cumulatives.Some?
      && var mean := MeanTick(w.cumulatives.value.1 - w.cumulatives.value.0, s.targets[index].twapWindow);
         && mean.Some?
         && var quote := QuoteAtTick(k.sqrtRatio, mean.value, AmountToSpend(s, index, amountIn) % TWO_128,
                                     s.targets[index].wethIsToken0);
            quote.Some? && 10 * (w.bought + 1) > 9 * quote.value
  {
    var amount, after := BuyUnfolds(s, k, w, index, amountIn, minAmountOut);
    var t := s.targets[index];
    var quote := QuoteAtTick(k.sqrtRatio, MeanTick(w.cumulatives.value.1 - w.cumulatives.value.0, t.twapWindow).value,
                             amount % TWO_128, t.wethIsToken0).value;
    ToleranceIsBounded(quote, t.maxSlippageBps);
  }

  lemma ToleranceIsBounded(quote: nat, slippageBps: nat)
    requires slippageBps <= MAX_SLIPPAGE_BPS
    ensures 10 * (Share(quote, MAX_BPS - slippageBps) + 1) > 9 * quote
  {
    var kept := MAX_BPS - slippageBps;
    var q := Quotient(quote * kept, MAX_BPS);
    MulMono(9_000, kept, quote);
  }

  /** Spending still open in the window that a spend now would fall in. */
  predicate WithinLimit(s: State, now: nat, amount: nat) {
    (if now >= s.windowStart + s.rateWindow then 0 else s.spentInWindow) + amount <= s.maxSpendPerWindow
  }

  /** The pool's floored mean tick is in the domain, it prices the amount mod 2^128, and that quote less the
      tolerance fits a word and is at most what was bought. */
  predicate PricedWithin(k: Setting, t: Target, cumulatives: Option<(int, int)>, amount: nat, bought: nat)
    requires t.maxSlippageBps <= MAX_BPS && t.twapWindow > 0
  {
    && cumulatives.Some?
    && var mean := (cumulatives.value.1 - cumulatives.value.0) / t.twapWindow;
       && -887_272 <= mean <= 887_272
       && var quote := QuoteAtTick(k.sqrtRatio, mean, amount % TWO_128, t.wethIsToken0);
          && quote.Some? && quote.value * (MAX_BPS - t.maxSlippageBps) < TWO_256
          && quote.value * (MAX_BPS - t.maxSlippageBps) < (bought + 1) * MAX_BPS
  }

  lemma LimitExactly(s: State, now: nat, amount: nat)
    ensures ConsumeRateLimit(s, now, amount).Ok? <==> WithinLimit(s, now, amount)
    ensures ConsumeRateLimit(s, now, amount).Ok? ==>
      ConsumeRateLimit(s, now, amount).state
      == if now >= s.windowStart + s.rateWindow then s.(windowStart := now, spentInWindow := amount)
         else s.(spentInWindow := s.spentInWindow + amount)
  {
  }

  lemma ShareBelow(amount: nat, bps: nat, bought: nat)
    requires bps <= MAX_BPS
    ensures Share(amount, bps) <= bought <==> amount * bps < (bought + 1) * MAX_BPS
  {
    DivBelow(amount * bps, MAX_BPS, bought + 1);
  }

  lemma FloorExactly(k: Setting, t: Target, cumulatives: Option<(int, int)>, amount: nat, bought: nat)
    requires t.maxSlippageBps <= MAX_BPS && t.twapWindow > 0
    ensures PricedWithin(k, t, cumulatives, amount, bought) <==>
      var floor := TwapFloor(k.sqrtRatio, t, cumulatives, amount);
      floor.Some? && bought >= floor.value
  {
    hide QuoteAtTick, MeanTick, TickInRange;
    if cumulatives.Some? {
      var delta := cumulatives.value.1 - cumulatives.value.0;
      MeanTickFloors(delta, t.twapWindow);
      var quote := QuoteAtTick(k.sqrtRatio, delta / t.twapWindow, amount % TWO_128, t.wethIsToken0);
      if quote.Some? {
        ShareBelow(quote.value, MAX_BPS - t.maxSlippageBps, bought);
      }
    }
  }

  /** A buyback goes through exactly when its target is configured, the amount is allocated and within what
      the spending window leaves, and the swap returns at least the caller's floor and the pool's. */
  lemma BuybackAcceptedExactly(s: State, k: Setting, w: Swap, index: nat, amountIn: nat, minAmountOut: nat)
    requires Inv(s)
    ensures OnBuyAndBurn(s, k.weth, k.sqrtRatio, w, index, amountIn, minAmountOut).Ok? <==>
      && index < 2 && s.targets[index].token != 0 && s.targets[index].pool != 0
      && w.succeeds && w.bought >= minAmountOut
      && var amount := AmountToSpend(s, index, amountIn);
         && 0 < amount <= s.earmarked[index] && WithinLimit(s, w.now, amount)
         && PricedWithin(k, s.targets[index], w.cumulatives, amount, w.bought)
  {
    hide TwapFloor, PricedWithin;
    if index < 2 {
      var amount := AmountToSpend(s, index, amountIn);
      LimitExactly(s, w.now, amount);
      if w.bought >= 0 {
        FloorExactly(k, s.targets[index], w.cumulatives, amount, w.bought);
      }
      if 0 < amount <= s.earmarked[index] && ConsumeRateLimit(s, w.now, amount).Ok? {
        WithdrawPutsInFlight(s, w.now, index, amount);
      }
    }
  }

  /** What a buyback that nothing calls back into does: the amount leaves the allocation and the balance for
      the spending total and the window, and what the swap returned is added to the burned total. */
  lemma BuybackBooksExactly(s: State, k: Setting, w: Swap, index: nat, amountIn: nat, minAmountOut: nat)
    requires Inv(s) && w.inner == [] && OnBuyAndBurn(s, k.weth, k.sqrtRatio, w, index, amountIn, minAmountOut).Ok?
    ensures index < 2
    ensures var r := OnBuyAndBurn(s, k.weth, k.sqrtRatio, w, index, amountIn, minAmountOut).state;
      var amount := if amountIn == 0 then s.earmarked[index] else amountIn;
      var expired := w.now >= s.windowStart + s.rateWindow;
      && 0 < amount <= s.earmarked[index] && amount <= s.balance && w.bought >= 0
      && r == s.(earmarked := s.earmarked[index := s.earmarked[index] - amount],
                 balance := s.balance - amount,
                 totalSpent := s.totalSpent[index := s.totalSpent[index] + amount],
                 totalBurned := s.totalBurned[index := s.totalBurned[index] + w.bought],
                 windowStart := if expired then w.now else s.windowStart,
                 spentInWindow := if expired then amount else s.spentInWindow + amount,
                 spends := s.spends + [Spend(w.now, index, amount, w.bought)])
  {
    hide TwapFloor, Conserved, Reported;
    var amount, after := BuyUnfolds(s, k, w, index, amountIn, minAmountOut);
    LimitExactly(s, w.now, amount);
  }

  /** A buyback of any multiple of 2^128 wei is accepted whatever it returns. */
  lemma MultipleHasNoFloor(s: State, k: Setting, w: Swap, index: nat, amountIn: nat)
    requires Inv(s) && TickTable(k.sqrtRatio) && index < 2
    requires s.targets[index].token != 0 && s.targets[index].pool != 0 && w.succeeds && w.bought >= 0
    requires w.cumulatives.Some?
    requires MeanTick(w.cumulatives.value.1 - w.cumulatives.value.0, s.targets[index].twapWindow).Some?
    requires var amount := AmountToSpend(s, index, amountIn);
      && 0 < amount <= s.earmarked[index] && amount % TWO_128 == 0 && ConsumeRateLimit(s, w.now, amount).Ok?
    ensures OnBuyAndBurn(s, k.weth, k.sqrtRatio, w, index, amountIn, 0).Ok?
  {
    hide OnBuyAndBurn, TwapFloor;
    BuybackAcceptedExactly(s, k, w, index, amountIn, 0);
    var t, amount := s.targets[index], AmountToSpend(s, index, amountIn);
    LimitExactly(s, w.now, amount);
    var delta := w.cumulatives.value.1 - w.cumulatives.value.0;
    var mean := delta / t.twapWindow;
    MeanTickFloors(delta, t.twapWindow);
    var quote := QuoteWithinOneUnit(k.sqrtRatio, mean, 0, t.wethIsToken0);
    NothingQuotesNothing(k.sqrtRatio(mean), t.wethIsToken0);
  }

  lemma NothingQuotesNothing(r: nat, baseIsToken0: bool)
    requires RatioInRange(r)
    ensures QuoteAtRatio(r, 0, baseIsToken0) == Some(0)
  {
    if r < TWO_128 {
      LowBranch(r, 0, baseIsToken0);
    } else {
      var q := HighBranch(r, 0, baseIsToken0);
    }
  }
}
