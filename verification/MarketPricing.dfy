/** Results do not depend on who calls, when, or through which entry point. */
module MarketPricing {
  import opened Util
  import opened MarketTypes
  import opened MarketSpec
  import opened Ledger
  import opened MarketInvariant
  import opened MarketHistory
  import Sdk

  // ---- executeRound is the individual calls -------------------------------------------

  /** The calls executeRound stands for: lock then settle each scanned epoch. */
  function ScanCalls(sender: Address, w: World, epoch: nat, last: nat): seq<Tx>
    decreases last + 1 - epoch
  {
    if epoch > last then []
    else
      [Tx(sender, {}, w, LockRound(epoch)), Tx(sender, {}, w, SettleRound(epoch))]
      + ScanCalls(sender, w, epoch + 1, last)
  }

  lemma RunTwo(s: State, a: Tx, b: Tx, rest: seq<Tx>)
    ensures Run(s, [a, b] + rest) == Run(Step(Step(s, a), b), rest)
  {
    assert ([a, b] + rest)[1..] == [b] + rest && ([b] + rest)[1..] == rest;
  }

  lemma ScanTurnIsTwoCalls(s: State, sender: Address, w: World, epoch: nat)
    ensures ScanTurn(s, w, epoch)
         == Step(Step(s, Tx(sender, {}, w, LockRound(epoch))), Tx(sender, {}, w, SettleRound(epoch)))
  {
  }

  lemma {:induction false} ScanIsCalls(s: State, sender: Address, w: World, epoch: nat, last: nat)
    requires Inv(s, w.now) && Scan(s, w, epoch, last).Ok?
    ensures Run(s, ScanCalls(sender, w, epoch, last)) == Scan(s, w, epoch, last).state
    decreases last + 1 - epoch
  {
    if epoch <= last {
      hide ScanTurn, Step, InvWithDebt;
      var lock, settle := Tx(sender, {}, w, LockRound(epoch)), Tx(sender, {}, w, SettleRound(epoch));
      ScanUnrolls(s, w, epoch, last);
      ScanTurnKeepsInv(s, w, epoch);
      ScanTurnIsTwoCalls(s, sender, w, epoch);
      ScanIsCalls(ScanTurn(s, w, epoch), sender, w, epoch + 1, last);
      RunTwo(s, lock, settle, ScanCalls(sender, w, epoch + 1, last));
    }
  }

  /** Whenever executeRound succeeds it lands exactly where anybody's own lock, settle and start calls
      would, calls that revert being skipped: it grants no ability of its own. */
  lemma ExecuteIsTheIndividualCalls(s: State, sender: Address, w: World)
    requires Inv(s, w.now) && OnExecute(s, w).Ok?
    ensures OnExecute(s, w).state
         == Run(s, ScanCalls(sender, w, OldestUnresolved(s), s.currentEpoch) + [Tx(sender, {}, w, StartNextRound)])
  {
    hide ScanCalls, Scan, OpenNext, InvWithDebt, SomeTurnBreaks, CreateBreaks;
    var first := OldestUnresolved(s);
    var calls, start := ScanCalls(sender, w, first, s.currentEpoch), Tx(sender, {}, w, StartNextRound);
    ScanIsCalls(s, sender, w, first, s.currentEpoch);
    ScanKeepsInv(s, w, first, s.currentEpoch);
    ScanKeepsPause(s, w, first, s.currentEpoch);
    RunConcat(s, calls, [start]);
    var s1 := Run(s, calls);
    assert [start][1..] == [];
    assert Run(s1, [start]) == Run(Step(s1, start), []);
  }

  lemma {:induction false} ScanKeepsPause(s: State, w: World, epoch: nat, last: nat)
    requires Scan(s, w, epoch, last).Ok?
    ensures Scan(s, w, epoch, last).state.paused == s.paused
    decreases last + 1 - epoch
  {
    if epoch <= last {
      ScanUnrolls(s, w, epoch, last);
      ScanKeepsPause(ScanTurn(s, w, epoch), w, epoch + 1, last);
    }
  }

  // ---- prices are functions of the schedule -------------------------------------------

  /** The reading an oracle gives for an instant and window, whenever it gives one. */
  type Reading = (Address, nat, nat) -> (nat, int)

  ghost predicate Honest(w: World, reading: Reading) {
    forall o, i, k :: Answers(w.quote(o, i, k), reading(o, i, k))
  }

  predicate Answers(q: Quote, reading: (nat, int)) {
    q.Quoted? ==> q.price == 0 || (q.price, q.tick) == reading
  }

  ghost predicate PricedAt(r: Round, t: Terms, reading: Reading) {
    && (r.status.Locked? || r.status.Settled? ==>
          (r.lockPrice, t.lockTick) == reading(t.oracle, r.lockTimestamp, t.twapWindow))
    && (r.status.Settled? ==>
          (r.closePrice, t.closeTick) == reading(t.oracle, r.closeTimestamp, t.twapWindow))
  }

  /** Every recorded price is the oracle's reading at the round's own scheduled instant. */
  ghost predicate Priced(s: State, reading: Reading) {
    forall e :: e in s.rounds ==> PricedAt(s.RoundOf(e), s.TermsOf(e), reading)
  }

  lemma QuoteIsReading(w: World, t: Terms, instant: nat, reading: Reading)
    requires Honest(w, reading) && QuoteOf(w, t, instant).Some?
    ensures QuoteOf(w, t, instant).value == reading(t.oracle, instant, t.twapWindow)
  {
    assert Answers(w.quote(t.oracle, instant, t.twapWindow), reading(t.oracle, instant, t.twapWindow));
  }

  lemma LockKeepsPriced(s: State, w: World, epoch: nat, reading: Reading)
    requires Priced(s, reading) && Honest(w, reading) && OnLock(s, w, epoch).Ok?
    ensures Priced(OnLock(s, w, epoch).state, reading)
  {
    QuoteIsReading(w, s.TermsOf(epoch), s.RoundOf(epoch).lockTimestamp, reading);
    var s' := OnLock(s, w, epoch).state;
    forall e | e in s'.rounds
      ensures PricedAt(s'.RoundOf(e), s'.TermsOf(e), reading)
    {
      if e != epoch {
        assert PricedAt(s.RoundOf(e), s.TermsOf(e), reading);
      }
    }
  }

  lemma SettleKeepsPriced(s: State, w: World, epoch: nat, reading: Reading)
    requires Priced(s, reading) && Honest(w, reading)
    requires s.RoundOf(epoch).status.Locked? && TrySettle(s, w, epoch).Ok?
    ensures Priced(TrySettle(s, w, epoch).state, reading)
  {
    QuoteIsReading(w, s.TermsOf(epoch), s.RoundOf(epoch).closeTimestamp, reading);
    assert PricedAt(s.RoundOf(epoch), s.TermsOf(epoch), reading);
    var s' := TrySettle(s, w, epoch).state;
    forall e | e in s'.rounds
      ensures PricedAt(s'.RoundOf(e), s'.TermsOf(e), reading)
    {
      if e != epoch {
        assert PricedAt(s.RoundOf(e), s.TermsOf(e), reading);
      }
    }
  }

  /** Calls that lock and settle nothing keep every recorded price. */
  lemma UnpricedKeepsPriced(s: State, s': State, reading: Reading)
    requires Priced(s, reading)
    requires forall e :: e in s'.rounds ==>
      || (e in s.rounds && s'.RoundOf(e).lockTimestamp == s.RoundOf(e).lockTimestamp
          && s'.RoundOf(e).closeTimestamp == s.RoundOf(e).closeTimestamp
          && s'.RoundOf(e).status == s.RoundOf(e).status
          && s'.RoundOf(e).lockPrice == s.RoundOf(e).lockPrice
          && s'.RoundOf(e).closePrice == s.RoundOf(e).closePrice
          && s'.TermsOf(e) == s.TermsOf(e))
      || s'.RoundOf(e).status.Open? || s'.RoundOf(e).status.Cancelled?
    ensures Priced(s', reading)
  {
    forall e | e in s'.rounds
      ensures PricedAt(s'.RoundOf(e), s'.TermsOf(e), reading)
    {
      if e in s.rounds {
        assert PricedAt(s.RoundOf(e), s.TermsOf(e), reading);
      }
    }
  }

  lemma {:induction false} ScanKeepsPriced(s: State, w: World, epoch: nat, last: nat, reading: Reading)
    requires Priced(s, reading) && Honest(w, reading) && Scan(s, w, epoch, last).Ok?
    ensures Priced(Scan(s, w, epoch, last).state, reading)
    decreases last + 1 - epoch
  {
    if epoch <= last {
      var r := s.RoundOf(epoch);
      var s1 := s;
      if r.status.Open? && w.now >= r.lockTimestamp && TryLock(s, w, epoch).Some? {
        s1 := TryLock(s, w, epoch).value;
        LockKeepsPriced(s, w, epoch, reading);
      }
      var s2 := s1;
      if s1.RoundOf(epoch).status.Locked? && w.now >= s1.RoundOf(epoch).closeTimestamp
         && TrySettle(s1, w, epoch).Ok? {
        s2 := TrySettle(s1, w, epoch).state;
        SettleKeepsPriced(s1, w, epoch, reading);
      }
      ScanKeepsPriced(s2, w, epoch + 1, last, reading);
    }
  }

  lemma ExecuteKeepsPriced(s: State, w: World, reading: Reading)
    requires Inv(s, w.now) && Priced(s, reading) && Honest(w, reading) && OnExecute(s, w).Ok?
    ensures Priced(OnExecute(s, w).state, reading)
  {
    var first := OldestUnresolved(s);
    ScanKeepsPriced(s, w, first, s.currentEpoch, reading);
    ScanKeepsInv(s, w, first, s.currentEpoch);
    UnpricedKeepsPriced(Scan(s, w, first, s.currentEpoch).state, OnExecute(s, w).state, reading);
  }

  lemma EnterKeepsPriced(s: State, w: World, sender: Address, epoch: nat, p: Position, amount: nat, reading: Reading)
    requires Priced(s, reading) && OnEnter(s, w, sender, epoch, p, amount).Ok?
    ensures Priced(OnEnter(s, w, sender, epoch, p, amount).state, reading)
  {
    UnpricedKeepsPriced(s, OnEnter(s, w, sender, epoch, p, amount).state, reading);
  }

  lemma CreateKeepsPriced(s: State, w: World, epoch: nat, start: nat, lock: nat, close: nat, reading: Reading)
    requires Priced(s, reading)
    ensures Priced(CreateRound(s, w, epoch, start, lock, close).(currentEpoch := epoch), reading)
  {
    UnpricedKeepsPriced(s, CreateRound(s, w, epoch, start, lock, close).(currentEpoch := epoch), reading);
  }

  lemma VoidKeepsPriced(s: State, epoch: nat, reading: Reading)
    requires Priced(s, reading)
    ensures Priced(Void(s, epoch), reading)
  {
    UnpricedKeepsPriced(s, Void(s, epoch), reading);
  }

  /** Entries, openings and cancellations price nothing. */
  lemma OpenAndVoidKeepPriced(s: State, tx: Tx, reading: Reading)
    requires Priced(s, reading) && TouchesRounds(tx.call) && Apply(s, tx).Ok?
    requires !tx.call.ExecuteRound? && !tx.call.LockRound? && !tx.call.SettleRound?
    ensures Priced(Step(s, tx), reading)
  {
    hide Priced, CreateRound, Void, OnEnter, Configure, OnExecute, OnLock, OnSettle;
    var w := tx.world;
    match tx.call {
      case Enter(epoch, position, amount) => EnterKeepsPriced(s, w, tx.sender, epoch, position, amount, reading);
      case GenesisStartRound => CreateKeepsPriced(s, w, 1, w.now, w.now + s.interval, w.now + 2 * s.interval, reading);
      case StartNextRound =>
        var head := s.RoundOf(s.currentEpoch);
        CreateKeepsPriced(s, w, s.currentEpoch + 1, head.lockTimestamp, head.closeTimestamp,
                          head.closeTimestamp + s.interval, reading);
      case CancelRound(epoch) => VoidKeepsPriced(s, epoch, reading);
      case EmergencyCancelRound(epoch) => VoidKeepsPriced(s, epoch, reading);
    }
  }

  lemma StepKeepsPriced(s: State, now: nat, tx: Tx, reading: Reading)
    requires Inv(s, now) && now <= tx.world.now && Flat(tx)
    requires Priced(s, reading) && Honest(tx.world, reading)
    ensures Priced(Step(s, tx), reading)
  {
    hide Priced, Honest, RoundOk, OwedUpTo, Scan;
    var w := tx.world;
    LaterInv(s, now, w.now);
    if !TouchesRounds(tx.call) {
      OthersKeepRounds(s, tx);
      SameRoundsKeepPriced(s, Step(s, tx), reading);
    } else if Apply(s, tx).Ok? {
      if tx.call.ExecuteRound? {
        ExecuteKeepsPriced(s, w, reading);
      } else if tx.call.LockRound? {
        LockKeepsPriced(s, w, tx.call.epoch, reading);
      } else if tx.call.SettleRound? {
        SettleKeepsPriced(s, w, tx.call.epoch, reading);
      } else {
        OpenAndVoidKeepPriced(s, tx, reading);
      }
    }
  }

  lemma SameRoundsKeepPriced(s: State, s': State, reading: Reading)
    requires Priced(s, reading) && SameRounds(s, s')
    ensures Priced(s', reading)
  {
    UnpricedKeepsPriced(s, s', reading);
  }

  lemma {:induction false} FlatRunKeepsPriced(s: State, now: nat, txs: seq<Tx>, reading: Reading)
    requires Inv(s, now) && Chronological(now, txs) && AllFlat(txs)
    requires Priced(s, reading) && forall i | 0 <= i < |txs| :: Honest(txs[i].world, reading)
    ensures Priced(Run(s, txs), reading)
    decreases |txs|
  {
    if txs != [] {
      StepKeepsPriced(s, now, txs[0], reading);
      StepKeepsInv(s, now, txs[0]);
      FlatRunKeepsPriced(Step(s, txs[0]), txs[0].world.now, txs[1..], reading);
    }
  }

  // ---- confluence ---------------------------------------------------------------------

  /** Everything settlement decides about a round. */
  datatype Verdict = Verdict(
    lockPrice: nat, lockTick: int, closePrice: nat, closeTick: int,
    outcome: Outcome, rewardBase: nat, reward: nat, fee: nat)

  /** What was decided, read back from storage; the fee is what the pot lost. */
  function Recorded(r: Round, t: Terms): Verdict {
    Verdict(r.lockPrice, t.lockTick, r.closePrice, t.closeTick, t.outcome, r.rewardBaseAmount, r.rewardAmount,
            if t.outcome.AllLost? then r.totalAmount
            else if (t.outcome.Bull? || t.outcome.Bear?) && r.rewardAmount <= r.totalAmount
            then r.totalAmount - r.rewardAmount
            else 0)
  }

  /** The verdict as a function of the pools, the schedule, the pinned terms and the oracle alone. */
  ghost function Foretold(r: Round, t: Terms, reading: Reading): Verdict {
    var (lockPrice, lockTick) := reading(t.oracle, r.lockTimestamp, t.twapWindow);
    var (closePrice, closeTick) := reading(t.oracle, r.closeTimestamp, t.twapWindow);
    var outcome := Sdk.DeriveOutcome(r.(lockPrice := lockPrice, closePrice := closePrice));
    var contested := outcome.Bull? || outcome.Bear?;
    var fee := if outcome.AllLost? then r.totalAmount
               else if contested then (r.totalAmount * t.burnFeeBps) / MAX_BPS else 0;
    Verdict(lockPrice, lockTick, closePrice, closeTick, outcome,
            if !contested then 0 else if outcome.Bull? then r.bullAmount else r.bearAmount,
            if !contested || fee > r.totalAmount then 0 else r.totalAmount - fee,
            fee)
  }

  lemma SettledAsForetold(s: State, now: nat, epoch: nat, reading: Reading)
    requires Inv(s, now) && Priced(s, reading) && s.RoundOf(epoch).status.Settled?
    ensures Recorded(s.RoundOf(epoch), s.TermsOf(epoch)) == Foretold(s.RoundOf(epoch), s.TermsOf(epoch), reading)
  {
    assert RoundAtOk(s, epoch, now);
    assert PricedAt(s.RoundOf(epoch), s.TermsOf(epoch), reading);
    FeeWithinTotal(s.RoundOf(epoch).totalAmount, s.TermsOf(epoch).burnFeeBps);
  }

  /** Whatever a run does, and whether the round existed before it or not, a round it leaves settled
      carries the verdict of its own pools, schedule, pinned terms and oracle. */
  lemma RunSettlesAsForetold(s: State, now: nat, txs: seq<Tx>, x: State, epoch: nat, reading: Reading)
    requires Inv(s, now) && Chronological(now, txs) && Priced(s, reading)
    requires x == Run(s, txs) && AllSeen(txs, w => Honest(w, reading))
    requires x.RoundOf(epoch).status.Settled?
    ensures Recorded(x.RoundOf(epoch), x.TermsOf(epoch)) == Foretold(x.RoundOf(epoch), x.TermsOf(epoch), reading)
    ensures 1 <= epoch <= s.currentEpoch ==> EvolvesAt(s, x, epoch, now)
    ensures PoolsMatchLedger(x.RoundOf(epoch), x.BookOf(epoch))
  {
    var flat := FlattenRun(s, now, txs, w => Honest(w, reading));
    FlatRunKeepsPriced(s, now, flat, reading);
    RunKeepsInv(s, now, txs);
    RunEvolves(s, now, txs);
    SettledAsForetold(x, EndTime(now, txs), epoch, reading);
    assert RoundAtOk(x, epoch, EndTime(now, txs));
  }

  /** A round that settles after its entries have closed settles as was already determined when they
      closed, whatever calls are made, by whom, when, in what order, or nested in whatever way. */
  lemma ResultIsFixedOnceEntriesClose(s: State, now: nat, txs: seq<Tx>, x: State, epoch: nat, reading: Reading)
    requires Inv(s, now) && Chronological(now, txs) && Priced(s, reading)
    requires x == Run(s, txs) && AllSeen(txs, w => Honest(w, reading))
    requires 1 <= epoch <= s.currentEpoch && now >= s.RoundOf(epoch).lockTimestamp
    requires x.RoundOf(epoch).status.Settled?
    ensures Recorded(x.RoundOf(epoch), x.TermsOf(epoch)) == Foretold(s.RoundOf(epoch), s.TermsOf(epoch), reading)
  {
    RunSettlesAsForetold(s, now, txs, x, epoch, reading);
    ForetoldDependsOnPools(s.RoundOf(epoch), s.TermsOf(epoch), x.RoundOf(epoch), x.TermsOf(epoch), reading);
  }

  lemma {:induction false} SameStakesSameTotals(p: Position, l: Book, l': Book)
    requires SameStakes(l, l')
    ensures Total(Side(p), l) == Total(Side(p), l')
    decreases |l|
  {
    if l == map[] {
      assert l' == map[];
    } else {
      var c :| c in l;
      LessEntries(l, c);
      TotalRemove(Side(p), l, c);
      TotalRemove(Side(p), l', c);
      SameStakesSameTotals(p, l - {c}, l' - {c});
    }
  }

  /** The terms that settlement reads: where the price comes from and what is taken. */
  predicate SameRules(t: Terms, t': Terms) {
    t'.oracle == t.oracle && t'.twapWindow == t.twapWindow && t'.burnFeeBps == t.burnFeeBps
  }

  lemma ForetoldDependsOnPools(r: Round, t: Terms, r': Round, t': Terms, reading: Reading)
    requires SamePools(r, r') && SameSchedule(r, r') && SameRules(t, t')
    ensures Foretold(r, t, reading) == Foretold(r', t', reading)
  {
  }

  /** Confluence: two runs from one state, whether the round existed in it or not, record the same verdict
      whenever they end with the round on the same schedule and rules and with the same stakes in it. */
  lemma Confluence(s: State, now: nat, xs: seq<Tx>, x: State, ys: seq<Tx>, y: State, epoch: nat, reading: Reading)
    requires Inv(s, now) && Priced(s, reading)
    requires x == Run(s, xs) && Chronological(now, xs) && AllSeen(xs, w => Honest(w, reading))
    requires y == Run(s, ys) && Chronological(now, ys) && AllSeen(ys, w => Honest(w, reading))
    requires x.RoundOf(epoch).status.Settled? && y.RoundOf(epoch).status.Settled?
    requires SameSchedule(x.RoundOf(epoch), y.RoundOf(epoch)) && SameRules(x.TermsOf(epoch), y.TermsOf(epoch))
    requires SameStakes(x.BookOf(epoch), y.BookOf(epoch))
    ensures Recorded(x.RoundOf(epoch), x.TermsOf(epoch)) == Recorded(y.RoundOf(epoch), y.TermsOf(epoch))
  {
    hide Foretold, Recorded;
    RunSettlesAsForetold(s, now, xs, x, epoch, reading);
    RunSettlesAsForetold(s, now, ys, y, epoch, reading);
    SameStakesSameTotals(Position.Bull, x.BookOf(epoch), y.BookOf(epoch));
    SameStakesSameTotals(Position.Bear, x.BookOf(epoch), y.BookOf(epoch));
    ForetoldDependsOnPools(x.RoundOf(epoch), x.TermsOf(epoch), y.RoundOf(epoch), y.TermsOf(epoch), reading);
  }

  /** A round that already exists keeps its schedule and rules in every run, so then only the stakes have
      to agree. */
  lemma ConfluenceOnceOpen(s: State, now: nat, xs: seq<Tx>, x: State, ys: seq<Tx>, y: State, epoch: nat,
                           reading: Reading)
    requires Inv(s, now) && Priced(s, reading) && 1 <= epoch <= s.currentEpoch
    requires x == Run(s, xs) && Chronological(now, xs) && AllSeen(xs, w => Honest(w, reading))
    requires y == Run(s, ys) && Chronological(now, ys) && AllSeen(ys, w => Honest(w, reading))
    requires x.RoundOf(epoch).status.Settled? && y.RoundOf(epoch).status.Settled?
    requires SameStakes(x.BookOf(epoch), y.BookOf(epoch))
    ensures Recorded(x.RoundOf(epoch), x.TermsOf(epoch)) == Recorded(y.RoundOf(epoch), y.TermsOf(epoch))
  {
    hide Recorded, Honest;
    RunEvolves(s, now, xs);
    RunEvolves(s, now, ys);
    assert EvolvesAt(s, x, epoch, now) && EvolvesAt(s, y, epoch, now);
    Confluence(s, now, xs, x, ys, y, epoch, reading);
  }

  // ---- from deployment ----------------------------------------------------------------

  /** A call that can change neither the schedule nor the rules of rounds still to come. */
  predicate KeepsRules(call: Call) {
    !call.SetInterval? && !call.SetTwapWindow? && !call.CommitBurnFee? && !call.CommitOracle?
  }

  /** Every round so far is pinned to the settings of the base state, which are still in force. */
  ghost predicate PinnedTo(base: State, s: State) {
    && s.interval == base.interval && s.oracle == base.oracle && s.twapWindow == base.twapWindow
    && s.burnFeeBps == base.burnFeeBps
    && forall e | 1 <= e <= s.currentEpoch :: PinnedAt(base, s.TermsOf(e))
  }

  lemma RulesKept(s: State, tx: Tx)
    requires Flat(tx) && KeepsRules(tx.call)
    ensures var s' := Step(s, tx);
      && s'.interval == s.interval && s'.oracle == s.oracle
      && s'.twapWindow == s.twapWindow && s'.burnFeeBps == s.burnFeeBps
  {
    if !IsConfiguration(tx.call) {
      OnlyConfigurationChangesSettings(s, tx);
    } else {
      assert Apply(s, tx) == Configure(s, tx.world, tx.roles, tx.call);
    }
  }

  lemma StepKeepsPinned(base: State, s: State, now: nat, tx: Tx)
    requires Inv(s, now) && now <= tx.world.now && Flat(tx) && KeepsRules(tx.call) && PinnedTo(base, s)
    ensures PinnedTo(base, Step(s, tx))
  {
    hide Step, InvWithDebt;
    var s' := Step(s, tx);
    RulesKept(s, tx);
    NewRoundTakesSettings(s, now, tx);
    FlatStepEvolves(s, now, tx);
    forall e | 1 <= e <= s'.currentEpoch
      ensures PinnedAt(base, s'.TermsOf(e))
    {
      if e <= s.currentEpoch {
        assert EvolvesAt(s, s', e, tx.world.now) && PinnedAt(base, s.TermsOf(e));
      }
    }
  }

  lemma {:induction false} FlatRunKeepsPinned(base: State, s: State, now: nat, txs: seq<Tx>)
    requires Inv(s, now) && Chronological(now, txs) && AllFlat(txs) && PinnedTo(base, s)
    requires forall i | 0 <= i < |txs| :: KeepsRules(txs[i].call)
    ensures PinnedTo(base, Run(s, txs))
    decreases |txs|
  {
    if txs != [] {
      StepKeepsPinned(base, s, now, txs[0]);
      StepKeepsInv(s, now, txs[0]);
      FlatRunKeepsPinned(base, Step(s, txs[0]), txs[0].world.now, txs[1..]);
    }
  }

  /** A run that begins before any round exists and leaves the rules alone puts every round on the grid of
      its first start and under the rules it began with. */
  lemma RulesFixSchedule(s: State, now: nat, xs: seq<Tx>, x: State, epoch: nat)
    requires Inv(s, now) && s.currentEpoch == 0 && x == Run(s, xs) && Chronological(now, xs)
    requires forall i | 0 <= i < |Calls(s, xs)| :: KeepsRules(Calls(s, xs)[i].call)
    requires 1 <= epoch <= x.currentEpoch
    ensures var r, start := x.RoundOf(epoch), x.RoundOf(1).startTimestamp;
      && r.epoch == epoch && r.startTimestamp == start + (epoch - 1) * s.interval
      && r.lockTimestamp == start + epoch * s.interval && r.closeTimestamp == start + (epoch + 1) * s.interval
      && PinnedAt(s, x.TermsOf(epoch))
  {
    hide Step, CallsOf, PinnedAt;
    CallsRun(s, now, xs);
    FlatRunKeepsPinned(s, s, now, Calls(s, xs));
    ScheduleCannotDrift(s, now, xs);
    RunKeepsInv(s, now, xs);
    assert RoundAtOk(x, epoch, EndTime(now, xs));
    if epoch > 1 {
      assert Linked(x, epoch - 1);
    }
  }

  /** Confluence from deployment: two runs that begin before any round exists, leave the rules alone and
      start round 1 at the same time give every round the same schedule and rules, and record the same
      verdict for it whenever they end with the same stakes in it. */
  lemma ConfluenceFromDeployment(s: State, now: nat, xs: seq<Tx>, x: State, ys: seq<Tx>, y: State, epoch: nat,
                                 reading: Reading)
    requires Inv(s, now) && s.currentEpoch == 0
    requires x == Run(s, xs) && Chronological(now, xs) && AllSeen(xs, w => Honest(w, reading))
    requires y == Run(s, ys) && Chronological(now, ys) && AllSeen(ys, w => Honest(w, reading))
    requires forall i | 0 <= i < |Calls(s, xs)| :: KeepsRules(Calls(s, xs)[i].call)
    requires forall i | 0 <= i < |Calls(s, ys)| :: KeepsRules(Calls(s, ys)[i].call)
    requires 1 <= epoch <= x.currentEpoch && epoch <= y.currentEpoch
    requires x.RoundOf(1).startTimestamp == y.RoundOf(1).startTimestamp
    ensures SameSchedule(x.RoundOf(epoch), y.RoundOf(epoch)) && SameRules(x.TermsOf(epoch), y.TermsOf(epoch))
    ensures x.RoundOf(epoch).status.Settled? && y.RoundOf(epoch).status.Settled?
            && SameStakes(x.BookOf(epoch), y.BookOf(epoch)) ==>
      Recorded(x.RoundOf(epoch), x.TermsOf(epoch)) == Recorded(y.RoundOf(epoch), y.TermsOf(epoch))
  {
    hide Recorded, Honest, Calls, KeepsRules;
    RulesFixSchedule(s, now, xs, x, epoch);
    RulesFixSchedule(s, now, ys, y, epoch);
    if x.RoundOf(epoch).status.Settled? && y.RoundOf(epoch).status.Settled?
       && SameStakes(x.BookOf(epoch), y.BookOf(epoch)) {
      assert Priced(s, reading);
      Confluence(s, now, xs, x, ys, y, epoch, reading);
    }
  }
}
