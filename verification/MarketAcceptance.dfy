/** When each call of the market is accepted and what it then changes, read off the stored fields, the
    oracle's answers and the limits of the contract written as numbers. */
module MarketAcceptance {
  import opened Util
  import opened MarketTypes
  import opened MarketSpec
  import opened MarketInvariant
  import opened MarketHistory
  import MarketClaims

  // ---- deployment ---------------------------------------------------------------------

  /** One minute to one day, half a minute to one day, a quarter of an hour to a week; a scan of at most 64
      rounds; a fee of at most a tenth. */
  lemma ConstructExactly(p: InitParams)
    ensures Construct(p).Ok? <==>
      && p.admin != 0 && p.burner != 0 && p.oracle != 0
      && 60 <= p.interval <= 86_400 && 30 <= p.twapWindow <= 86_400 && 900 <= p.bufferSeconds <= 604_800
      && 3 + p.bufferSeconds / p.interval <= 64 && p.burnFeeBps <= 1_000
      && (p.maximumBet == 0 || p.minimumBet <= p.maximumBet)
    ensures Construct(p).Ok? ==>
      var s := Construct(p).state;
      && s.oracle == p.oracle && s.burner == p.burner && s.interval == p.interval && s.twapWindow == p.twapWindow
      && s.bufferSeconds == p.bufferSeconds && s.burnFeeBps == p.burnFeeBps && s.minimumBet == p.minimumBet
      && s.maximumBet == p.maximumBet && s.maximumRoundPool == p.maximumRoundPool && !s.paused
      && s.currentEpoch == 0 && s.rounds == map[] && s.terms == map[] && s.ledger == map[]
      && s.burnAllocated == s.totalLiabilities == s.balance == s.forced == 0
      && s.pendingFeeReadyAt == 0 && s.pendingOracleReadyAt == 0
  {
  }

  // ---- entering -----------------------------------------------------------------------

  /** An entry is taken from the start time up to but not including the lock time, once per account,
      within the limits, and is added to its side, its account, the liabilities and the balance. */
  lemma EnterExactly(s: State, tx: Tx)
    requires tx.call.Enter?
    ensures var r, b := s.RoundOf(tx.call.epoch), s.BetOf(tx.call.epoch, tx.sender);
      var w, amount := tx.world, tx.call.amount;
      Apply(s, tx).Ok? <==>
        && !s.paused && r.status.Open? && r.startTimestamp <= w.now < r.lockTimestamp
        && s.minimumBet <= amount && (s.maximumBet == 0 || amount <= s.maximumBet) && b.amount == 0
        && (s.maximumRoundPool == 0 || r.totalAmount + amount <= s.maximumRoundPool)
    ensures Apply(s, tx).Ok? ==>
      var r, b := s.RoundOf(tx.call.epoch), s.BetOf(tx.call.epoch, tx.sender);
      var epoch, amount := tx.call.epoch, tx.call.amount;
      var r' := r.(totalAmount := r.totalAmount + amount);
      Step(s, tx) == s.(
        rounds := s.rounds[epoch := if tx.call.position.Bull? then r'.(bullAmount := r.bullAmount + amount)
                                    else r'.(bearAmount := r.bearAmount + amount)],
        ledger := s.ledger[epoch := s.BookOf(epoch)[tx.sender := Bet(tx.call.position, amount, b.claimed)]],
        totalLiabilities := s.totalLiabilities + amount,
        balance := s.balance + amount)
  {
  }

  /** Why an entry is refused: the first of its conditions that fails, in the contract's order. */
  lemma EnterRefusals(s: State, tx: Tx)
    requires tx.call.Enter? && !s.paused && Apply(s, tx).Revert?
    ensures var r, b := s.RoundOf(tx.call.epoch), s.BetOf(tx.call.epoch, tx.sender);
      var now, amount := tx.world.now, tx.call.amount;
      var e := Apply(s, tx).error;
      var enterable := r.status.Open? && r.startTimestamp <= now < r.lockTimestamp;
      var sized := s.minimumBet <= amount && (s.maximumBet == 0 || amount <= s.maximumBet);
      && (e == RoundNotFound <==> r.status.Pending?)
      && (e == RoundNotOpen <==>
            !r.status.Pending? && (!r.status.Open? || (now < r.startTimestamp && now < r.lockTimestamp)))
      && (e == EntriesClosed <==> r.status.Open? && now >= r.lockTimestamp)
      && (e == StakeBelowMinimum <==> enterable && amount < s.minimumBet)
      && (e == StakeAboveMaximum <==> enterable && s.minimumBet <= amount && !sized)
      && (e == AlreadyEntered <==> enterable && sized && b.amount > 0)
      && (e == RoundPoolExceeded <==> enterable && sized && b.amount == 0)
  {
  }

  // ---- opening ------------------------------------------------------------------------

  /** A new round: its times, and the terms in force pinned to it; an unavailable version is recorded as 0. */
  function NewRound(epoch: nat, start: nat, lock: nat, close: nat): Round {
    Round(epoch, start, lock, close, 0, 0, 0, 0, 0, 0, 0, Status.Open)
  }

  function NewTerms(s: State, w: World): Terms {
    Terms(s.oracle, s.twapWindow, s.burnFeeBps, if w.version(s.oracle).Version? then w.version(s.oracle).number else 0,
          0, 0, 0, 0, Outcome.Undecided)
  }

  /** Round 1 is opened once, by the operator, and locks one interval after the call. */
  lemma GenesisExactly(s: State, tx: Tx)
    requires Inv(s, tx.world.now) && tx.call.GenesisStartRound?
    ensures Apply(s, tx).Ok? <==>
      Operator in tx.roles && !s.paused && s.currentEpoch == 0 && !tx.world.version(s.oracle).BadVersion?
    ensures Apply(s, tx).Ok? ==>
      Step(s, tx) == s.(
        currentEpoch := 1,
        rounds := map[1 := NewRound(1, tx.world.now, tx.world.now + s.interval, tx.world.now + 2 * s.interval)],
        terms := map[1 := NewTerms(s, tx.world)])
  {
    assert EpochsOk(s);
    if s.currentEpoch == 0 {
      assert s.rounds == map[] && s.terms == map[];
    }
  }

  /** Every later round can be opened by anyone from the head's lock time on, and takes its times from it. */
  lemma StartExactly(s: State, tx: Tx)
    requires Inv(s, tx.world.now) && tx.call.StartNextRound?
    ensures Apply(s, tx).Ok? <==>
      && !s.paused && s.currentEpoch > 0 && tx.world.now >= s.RoundOf(s.currentEpoch).lockTimestamp
      && !tx.world.version(s.oracle).BadVersion?
    ensures Apply(s, tx).Ok? ==>
      var head, next := s.RoundOf(s.currentEpoch), s.currentEpoch + 1;
      Step(s, tx) == s.(
        currentEpoch := next,
        rounds := s.rounds[next := NewRound(next, head.lockTimestamp, head.closeTimestamp,
                                            head.closeTimestamp + s.interval)],
        terms := s.terms[next := NewTerms(s, tx.world)])
  {
    assert EpochsOk(s);
  }

  // ---- locking and settling -----------------------------------------------------------

  /** A positive price from the round's own oracle, for an instant and the round's own window. */
  predicate Prices(w: World, t: Terms, instant: nat) {
    var q := w.quote(t.oracle, instant, t.twapWindow);
    q.Quoted? && q.price > 0
  }

  /** Anyone locks an open round from its lock time on, exactly when its price for that time is given. */
  lemma LockExactly(s: State, tx: Tx)
    requires tx.call.LockRound?
    ensures var r, t, w := s.RoundOf(tx.call.epoch), s.TermsOf(tx.call.epoch), tx.world;
      && (Apply(s, tx).Ok? <==> r.status.Open? && w.now >= r.lockTimestamp && Prices(w, t, r.lockTimestamp))
      && (Apply(s, tx).Ok? ==>
            var q := w.quote(t.oracle, r.lockTimestamp, t.twapWindow);
            Step(s, tx) == s.(
              rounds := s.rounds[tx.call.epoch := r.(lockPrice := q.price, status := Status.Locked)],
              terms := s.terms[tx.call.epoch := t.(lockTick := q.tick, lockedAt := w.now)]))
  {
  }

  /** Anyone settles a locked round from its close time on, exactly when its price for that time is given;
      what settlement decides is said by the invariant. */
  lemma SettleExactly(s: State, tx: Tx)
    requires Inv(s, tx.world.now) && tx.call.SettleRound?
    ensures var r, t, w := s.RoundOf(tx.call.epoch), s.TermsOf(tx.call.epoch), tx.world;
      && (Apply(s, tx).Ok? <==> r.status.Locked? && w.now >= r.closeTimestamp && Prices(w, t, r.closeTimestamp))
      && (Apply(s, tx).Ok? ==>
            var q, s' := w.quote(t.oracle, r.closeTimestamp, t.twapWindow), Step(s, tx);
            var r', t' := s'.RoundOf(tx.call.epoch), s'.TermsOf(tx.call.epoch);
            && r' == r.(closePrice := q.price, status := Status.Settled,
                        rewardBaseAmount := r'.rewardBaseAmount, rewardAmount := r'.rewardAmount)
            && t' == t.(closeTick := q.tick, settledAt := w.now, outcome := t'.outcome)
            && SettledOk(r', t', s.BookOf(tx.call.epoch))
            && s'.burnAllocated + s'.totalLiabilities == s.burnAllocated + s.totalLiabilities
            && s' == s.(rounds := s.rounds[tx.call.epoch := r'], terms := s.terms[tx.call.epoch := t'],
                        burnAllocated := s'.burnAllocated, totalLiabilities := s'.totalLiabilities))
  {
    hide Resolve;
    var r := s.RoundOf(tx.call.epoch);
    if r.status.Locked? && tx.world.now >= r.closeTimestamp {
      SettleKeepsInv(s, tx.world, tx.call.epoch);
      if TrySettle(s, tx.world, tx.call.epoch).Ok? {
        assert RoundAtOk(TrySettle(s, tx.world, tx.call.epoch).state, tx.call.epoch, tx.world.now);
      }
    }
  }

  /** Why a price is refused: too early, an answer that does not decode, or no price yet; the probe is asked only
      for the reason. */
  lemma PriceRefusals(s: State, tx: Tx)
    requires Inv(s, tx.world.now) && (tx.call.LockRound? || tx.call.SettleRound?) && Apply(s, tx).Revert?
    ensures var r, t, w, e := s.RoundOf(tx.call.epoch), s.TermsOf(tx.call.epoch), tx.world, Apply(s, tx).error;
      var wanted := if tx.call.LockRound? then r.status.Open? else r.status.Locked?;
      var instant := if tx.call.LockRound? then r.lockTimestamp else r.closeTimestamp;
      var undecodable := w.quote(t.oracle, instant, t.twapWindow) == BadQuote
                         || w.probe(t.oracle, instant, t.twapWindow) == BadProbe;
      && (e == UndecodableAnswer <==> wanted && w.now >= instant && undecodable)
      && (e == PriceUnavailable <==> wanted && w.now >= instant && !undecodable)
      && (wanted && w.now >= instant ==> !Prices(w, t, instant))
      && (tx.call.LockRound? ==>
            (e == RoundNotOpen <==> !wanted) && (e == NotYetLockable <==> wanted && w.now < instant))
      && (tx.call.SettleRound? ==> (e == NotYetSettleable <==> !wanted || w.now < instant))
  {
    hide Resolve;
    var r := s.RoundOf(tx.call.epoch);
    if tx.call.SettleRound? && r.status.Locked? && tx.world.now >= r.closeTimestamp {
      SettleKeepsInv(s, tx.world, tx.call.epoch);
    }
  }

  /** What settlement decides, from the pools, the two prices and the pinned fee: a side wins only against a
      staked other side; an all-lost pot is burned whole; a tie or a missing side burns nothing. */
  lemma SettleDecides(s: State, tx: Tx)
    requires Inv(s, tx.world.now) && tx.call.SettleRound? && Apply(s, tx).Ok?
    ensures var r, r', s' := s.RoundOf(tx.call.epoch), Step(s, tx).RoundOf(tx.call.epoch), Step(s, tx);
      var outcome, burned := s'.TermsOf(tx.call.epoch).outcome, s'.burnAllocated - s.burnAllocated;
      var rose, fell := r'.closePrice > r.lockPrice, r'.closePrice < r.lockPrice;
      var bulls, bears := r.bullAmount > 0, r.bearAmount > 0;
      && (outcome == Outcome.Bull <==> rose && bulls && bears)
      && (outcome == Outcome.Bear <==> fell && bulls && bears)
      && (outcome == Outcome.Tie <==> !rose && !fell && (bulls || bears))
      && (outcome == Outcome.AllLost <==> (rose && !bulls && bears) || (fell && bulls && !bears))
      && (outcome == Outcome.NoContest <==>
            (!bulls && !bears) || (rose && bulls && !bears) || (fell && !bulls && bears))
      && (outcome.Bull? || outcome.Bear? ==>
            && burned == r.totalAmount * s.TermsOf(tx.call.epoch).burnFeeBps / 10_000
            && r'.rewardAmount == r.totalAmount - burned
            && r'.rewardBaseAmount == if outcome.Bull? then r.bullAmount else r.bearAmount)
      && (outcome.AllLost? ==> burned == r.totalAmount)
      && (outcome.Tie? || outcome.NoContest? ==> burned == 0)
      && (!outcome.Bull? && !outcome.Bear? ==> r'.rewardAmount == 0 && r'.rewardBaseAmount == 0)
  {
    assert RoundAtOk(s, tx.call.epoch, tx.world.now);
  }

  // ---- voiding ------------------------------------------------------------------------

  /** The round's own oracle says no about an instant and the round's own window. */
  predicate Denies(w: World, t: Terms, instant: nat) {
    w.probe(t.oracle, instant, t.twapWindow) == No
  }

  /** Anyone voids a round strictly after the time its price was due plus the whole tolerance, exactly when its
      own oracle still denies that price; the phase says so. */
  lemma CancelExactly(s: State, tx: Tx)
    requires tx.call.CancelRound?
    ensures var r, t, w := s.RoundOf(tx.call.epoch), s.TermsOf(tx.call.epoch), tx.world;
      var due := || (r.status.Open? && w.now > r.lockTimestamp + s.bufferSeconds && Denies(w, t, r.lockTimestamp))
                 || (r.status.Locked? && w.now > r.closeTimestamp + s.bufferSeconds && Denies(w, t, r.closeTimestamp));
      && (Apply(s, tx).Ok? <==> due)
      && (PhaseOf(s, w, tx.call.epoch) == Some(Phase.Cancellable) <==> due)
      && (due ==> Step(s, tx) == s.(rounds := s.rounds[tx.call.epoch := r.(status := Status.Cancelled)]))
  {
  }

  /** The pauser, and nobody else, voids a round before its lock time, or while the price that is due is denied. */
  lemma EmergencyExactly(s: State, tx: Tx)
    requires tx.call.EmergencyCancelRound?
    ensures var r, t, w := s.RoundOf(tx.call.epoch), s.TermsOf(tx.call.epoch), tx.world;
      && (Apply(s, tx).Ok? <==>
            && Pauser in tx.roles
            && (|| (r.status.Open? && (w.now < r.lockTimestamp || Denies(w, t, r.lockTimestamp)))
                || (r.status.Locked? && w.now >= r.closeTimestamp && Denies(w, t, r.closeTimestamp))))
      && (Apply(s, tx).Ok? ==>
            Step(s, tx) == s.(rounds := s.rounds[tx.call.epoch := r.(status := Status.Cancelled)]))
  {
  }

  /** The other phases, from the status and the times alone; the view fails only when the probe that it then
      asks does not decode. */
  lemma PhaseExactly(s: State, w: World, epoch: nat)
    ensures var r, t, phase := s.RoundOf(epoch), s.TermsOf(epoch), PhaseOf(s, w, epoch);
      && (phase == None <==>
            || (r.status.Open? && w.now > r.lockTimestamp + s.bufferSeconds
                && w.probe(t.oracle, r.lockTimestamp, t.twapWindow) == BadProbe)
            || (r.status.Locked? && w.now > r.closeTimestamp + s.bufferSeconds
                && w.probe(t.oracle, r.closeTimestamp, t.twapWindow) == BadProbe))
      && (phase == Some(Phase.Open) <==> r.status.Open? && w.now < r.lockTimestamp)
      && (phase == Some(Phase.Live) <==> r.status.Locked? && w.now < r.closeTimestamp)
      && (phase == Some(Phase.AwaitingLock) ==> r.status.Open? && w.now >= r.lockTimestamp)
      && (phase == Some(Phase.AwaitingSettle) ==> r.status.Locked? && w.now >= r.closeTimestamp)
      && (phase == Some(Phase.Pending) <==> r.status.Pending?)
      && (phase == Some(Phase.Settled) <==> r.status.Settled?)
      && (phase == Some(Phase.Cancelled) <==> r.status.Cancelled?)
  {
  }

  /** The work a keeper is told of: to lock or to settle what is due and can be priced, to cancel what has been
      denied past the tolerance. */
  lemma WorkExactly(s: State, w: World, epoch: nat)
    ensures var r, t, work := s.RoundOf(epoch), s.TermsOf(epoch), WorkFor(s, w, epoch);
      var atLock, atClose := w.probe(t.oracle, r.lockTimestamp, t.twapWindow),
                             w.probe(t.oracle, r.closeTimestamp, t.twapWindow);
      && (work == Work.Lock <==> r.status.Open? && w.now >= r.lockTimestamp && atLock == Yes)
      && (work == Work.Settle <==> r.status.Locked? && w.now >= r.closeTimestamp && atClose == Yes)
      && (work == Work.Cancel <==>
            || (r.status.Open? && w.now > r.lockTimestamp + s.bufferSeconds && atLock == No)
            || (r.status.Locked? && w.now > r.closeTimestamp + s.bufferSeconds && atClose == No))
      && (WorkBreaks(s, w, epoch) <==>
            || (r.status.Open? && w.now >= r.lockTimestamp && atLock == BadProbe)
            || (r.status.Locked? && w.now >= r.closeTimestamp && atClose == BadProbe))
  {
  }

  // ---- transfers ----------------------------------------------------------------------

  /** What an entry may still collect: its stake from a voided, tied or uncontested round, its floored share
      of the reward if its side won, and nothing twice. */
  function Collects(r: Round, outcome: Outcome, b: Bet): nat {
    var won := (outcome.Bull? && b.position.Bull?) || (outcome.Bear? && b.position.Bear?);
    if b.claimed then 0
    else if r.status.Cancelled? || (r.status.Settled? && (outcome.Tie? || outcome.NoContest?)) then b.amount
    else if r.status.Settled? && won && r.rewardBaseAmount > 0 then b.amount * r.rewardAmount / r.rewardBaseAmount
    else 0
  }

  /** A claim of one round is accepted exactly when something is to be collected and the receiver takes it; it
      marks the entry, and what was collected leaves the books and the balance. */
  lemma ClaimExactly(s: State, tx: Tx, epoch: nat)
    requires Inv(s, tx.world.now) && tx.call.Claim? && tx.call.epochs == [epoch]
    ensures var b := s.BetOf(epoch, tx.sender);
      var due := Collects(s.RoundOf(epoch), s.TermsOf(epoch).outcome, b);
      && (Apply(s, tx).Ok? <==> due > 0 && tx.call.receiver.accepts)
      && due <= s.totalLiabilities && due <= s.balance
      && (Apply(s, tx).Ok? && Flat(tx) ==>
            Step(s, tx) == s.(ledger := s.ledger[epoch := s.BookOf(epoch)[tx.sender := b.(claimed := true)]],
                              totalLiabilities := s.totalLiabilities - due, balance := s.balance - due))
  {
    hide InvWithDebt, ClaimEffects;
    MarketClaims.EveryEntitlementIsPayable(s, tx.world.now, epoch, tx.sender);
    CollectsIsEntitlement(s.RoundOf(epoch), s.TermsOf(epoch).outcome, s.BetOf(epoch, tx.sender));
    if ClaimEffects(s, tx.sender, [epoch]).Ok? {
      OneMark(s, tx.sender, epoch);
    }
  }

  /** Why a claim of one round is refused: no entry or nothing due, claimed before, or ETH not taken. */
  lemma ClaimRefusals(s: State, tx: Tx, epoch: nat)
    requires Inv(s, tx.world.now) && tx.call.Claim? && tx.call.epochs == [epoch] && Apply(s, tx).Revert?
    ensures var b, e := s.BetOf(epoch, tx.sender), Apply(s, tx).error;
      var due := Collects(s.RoundOf(epoch), s.TermsOf(epoch).outcome, b);
      && (e == AlreadyClaimed <==> b.amount > 0 && b.claimed)
      && (e == NothingToClaim <==> b.amount == 0 || (!b.claimed && due == 0))
      && (e == TransferFailed <==> due > 0)
  {
    hide InvWithDebt, ClaimEffects;
    ClaimExactly(s, tx, epoch);
    MarketClaims.EveryEntitlementIsPayable(s, tx.world.now, epoch, tx.sender);
    CollectsIsEntitlement(s.RoundOf(epoch), s.TermsOf(epoch).outcome, s.BetOf(epoch, tx.sender));
    if ClaimEffects(s, tx.sender, [epoch]).Revert? {
      OneRefusal(s, tx.sender, epoch);
    }
  }

  lemma OneRefusal(s: State, sender: Address, epoch: nat)
    requires ClaimEffects(s, sender, [epoch]).Revert? && Entitlement(s, epoch, sender).Some?
    requires Entitlement(s, epoch, sender).value.amount == 0
    ensures ClaimEffects(s, sender, [epoch])
         == Revert(if s.BetOf(epoch, sender).amount > 0 && s.BetOf(epoch, sender).claimed then AlreadyClaimed
                   else NothingToClaim)
  {
    hide EntitlementOf;
    assert [epoch][0] == epoch;
  }

  lemma CollectsIsEntitlement(r: Round, outcome: Outcome, b: Bet)
    requires EntitlementOf(r, outcome, b).Some?
    ensures Collects(r, outcome, b) == EntitlementOf(r, outcome, b).value.amount
  {
  }

  lemma OneMark(s: State, sender: Address, epoch: nat)
    requires ClaimEffects(s, sender, [epoch]).Ok? && Entitlement(s, epoch, sender).Some?
    ensures var due := Entitlement(s, epoch, sender).value.amount;
      && due <= s.totalLiabilities && due <= s.balance
      && ClaimEffects(s, sender, [epoch])
         == Ok(s.(ledger := s.ledger[epoch := s.BookOf(epoch)[sender := s.BetOf(epoch, sender).(claimed := true)]],
                  totalLiabilities := s.totalLiabilities - due, balance := s.balance - due))
  {
    hide EntitlementOf;
    assert [epoch][0] == epoch && [epoch][1..] == [];
    var m := MarkOne(s, sender, epoch);
    if m.Marked? {
      assert MarkAll(m.state, sender, []) == Marked(m.state, 0);
      assert MarkAll(s, sender, [epoch]) == Marked(m.state, m.amount);
    }
  }

  /** A claim or a sweep whose receiver refuses the ETH leaves no trace. */
  lemma RefusedTransferLeavesNoTrace(s: State, tx: Tx)
    requires (tx.call.Claim? || tx.call.SweepToBurner?) && !tx.call.receiver.accepts
    ensures Apply(s, tx).Revert? && Step(s, tx) == s
  {
  }

  /** A sweep pays out the whole burn allocation and nothing else; before the receiver calls back. */
  lemma SweepExactly(s: State, tx: Tx)
    requires Inv(s, tx.world.now) && tx.call.SweepToBurner?
    ensures Apply(s, tx).Ok? <==> s.burnAllocated > 0 && tx.call.receiver.accepts
    ensures Apply(s, tx).Ok? && Flat(tx) ==> s.burnAllocated <= s.balance
    ensures Apply(s, tx).Ok? && Flat(tx) ==>
      Step(s, tx) == s.(burnAllocated := 0, balance := s.balance - s.burnAllocated)
  {
    SweepKeepsInv(s, tx.world.now);
  }

  /** ETH forced in is counted apart, and no code runs. */
  lemma ForceExactly(s: State, tx: Tx)
    requires tx.call.ForceEther?
    ensures Apply(s, tx) == Ok(s.(balance := s.balance + tx.call.amount, forced := s.forced + tx.call.amount))
  {
  }

  // ---- configuration ------------------------------------------------------------------

  lemma PauseExactly(s: State, tx: Tx)
    ensures tx.call.Pause? ==>
      && (Apply(s, tx).Ok? <==> Pauser in tx.roles && !s.paused)
      && (Apply(s, tx).Ok? ==> Step(s, tx) == s.(paused := true))
    ensures tx.call.Unpause? ==>
      && (Apply(s, tx).Ok? <==> Pauser in tx.roles && s.paused)
      && (Apply(s, tx).Ok? ==> Step(s, tx) == s.(paused := false))
  {
  }

  /** The three settings with bounds: each is set to its argument and nothing else changes. */
  lemma BoundedSettersExactly(s: State, tx: Tx)
    requires ConfigOk(s)
    ensures tx.call.SetInterval? ==>
      var v := tx.call.value;
      && (Apply(s, tx).Ok? <==> Config in tx.roles && 60 <= v <= 86_400 && 3 + s.bufferSeconds / v <= 64)
      && (Apply(s, tx).Ok? ==> Step(s, tx) == s.(interval := v))
    ensures tx.call.SetTwapWindow? ==>
      var v := tx.call.value;
      && (Apply(s, tx).Ok? <==> Config in tx.roles && 30 <= v <= 86_400)
      && (Apply(s, tx).Ok? ==> Step(s, tx) == s.(twapWindow := v))
    ensures tx.call.SetBufferSeconds? ==>
      var v := tx.call.value;
      && (Apply(s, tx).Ok? <==> Config in tx.roles && 900 <= v <= 604_800 && 3 + v / s.interval <= 64)
      && (Apply(s, tx).Ok? ==> Step(s, tx) == s.(bufferSeconds := v))
  {
  }

  /** The limits on stakes and the burner's address. */
  lemma LimitSettersExactly(s: State, tx: Tx)
    ensures tx.call.SetMinimumBet? ==>
      && (Apply(s, tx).Ok? <==> Config in tx.roles && (s.maximumBet == 0 || tx.call.value <= s.maximumBet))
      && (Apply(s, tx).Ok? ==> Step(s, tx) == s.(minimumBet := tx.call.value))
    ensures tx.call.SetMaximumBet? ==>
      && (Apply(s, tx).Ok? <==> Config in tx.roles && (tx.call.value == 0 || s.minimumBet <= tx.call.value))
      && (Apply(s, tx).Ok? ==> Step(s, tx) == s.(maximumBet := tx.call.value))
    ensures tx.call.SetMaximumRoundPool? ==>
      && (Apply(s, tx).Ok? <==> Config in tx.roles)
      && (Apply(s, tx).Ok? ==> Step(s, tx) == s.(maximumRoundPool := tx.call.value))
    ensures tx.call.SetBurner? ==>
      && (Apply(s, tx).Ok? <==> Admin in tx.roles && tx.call.next != 0)
      && (Apply(s, tx).Ok? ==> Step(s, tx) == s.(burner := tx.call.next))
  {
  }

  /** The steps of a fee change. */
  lemma FeeSettersExactly(s: State, tx: Tx)
    ensures tx.call.ProposeBurnFee? ==>
      && (Apply(s, tx).Ok? <==> Config in tx.roles && tx.call.bps <= 1_000)
      && (Apply(s, tx).Ok? ==>
            Step(s, tx) == s.(pendingFeeBps := tx.call.bps, pendingFeeReadyAt := tx.world.now + 172_800))
    ensures tx.call.CommitBurnFee? ==>
      && (Apply(s, tx).Ok? <==> Config in tx.roles && s.pendingFeeReadyAt != 0 && tx.world.now >= s.pendingFeeReadyAt)
      && (Apply(s, tx).Ok? ==> Step(s, tx) == s.(burnFeeBps := s.pendingFeeBps, pendingFeeReadyAt := 0))
      && (Apply(s, tx) == Revert(TimelockNotElapsed) <==>
            Config in tx.roles && s.pendingFeeReadyAt != 0 && tx.world.now < s.pendingFeeReadyAt)
      && (Apply(s, tx) == Revert(NoPendingChange) <==> Config in tx.roles && s.pendingFeeReadyAt == 0)
    ensures tx.call.CancelPendingFee? ==>
      && (Apply(s, tx).Ok? <==> Config in tx.roles)
      && (Apply(s, tx).Ok? ==> Step(s, tx) == s.(pendingFeeReadyAt := 0))
  {
  }

  /** The steps of an oracle change. */
  lemma OracleSettersExactly(s: State, tx: Tx)
    ensures tx.call.ProposeOracle? ==>
      && (Apply(s, tx).Ok? <==>
            Config in tx.roles && tx.call.next != 0 && tx.world.version(tx.call.next).Version?)
      && (Apply(s, tx).Ok? ==>
            Step(s, tx) == s.(pendingOracle := tx.call.next, pendingOracleReadyAt := tx.world.now + 172_800))
    ensures tx.call.CommitOracle? ==>
      && (Apply(s, tx).Ok? <==>
            && Config in tx.roles && s.pendingOracleReadyAt != 0 && tx.world.now >= s.pendingOracleReadyAt
            && !tx.world.version(s.pendingOracle).BadVersion?)
      && (Apply(s, tx).Ok? ==> Step(s, tx) == s.(oracle := s.pendingOracle, pendingOracleReadyAt := 0))
      && (Apply(s, tx) == Revert(TimelockNotElapsed) <==>
            Config in tx.roles && s.pendingOracleReadyAt != 0 && tx.world.now < s.pendingOracleReadyAt)
      && (Apply(s, tx) == Revert(NoPendingChange) <==> Config in tx.roles && s.pendingOracleReadyAt == 0)
    ensures tx.call.CancelPendingOracle? ==>
      && (Apply(s, tx).Ok? <==> Config in tx.roles)
      && (Apply(s, tx).Ok? ==> Step(s, tx) == s.(pendingOracleReadyAt := 0))
  {
  }
}
