/** What holds in every reachable state of the market, and why each call keeps it. */
module MarketInvariant {
  import opened Util
  import opened MarketTypes
  import opened MarketSpec
  import opened Ledger
  import Sdk

  // ---- one round ----------------------------------------------------------------------

  function Winning(outcome: Outcome): Position
    requires outcome.Bull? || outcome.Bear?
  {
    if outcome.Bull? then Position.Bull else Position.Bear
  }

  function PoolOf(r: Round, p: Position): nat {
    if p.Bull? then r.bullAmount else r.bearAmount
  }

  ghost predicate PoolsMatchLedger(r: Round, l: Book) {
    && r.bullAmount + r.bearAmount == r.totalAmount
    && Total(Side(Position.Bull), l) == r.bullAmount
    && Total(Side(Position.Bear), l) == r.bearAmount
  }

  predicate NoneClaimed(l: Book) {
    forall a :: a in l ==> !l[a].claimed
  }

  /** A settled round records exactly what its prices and pools imply. */
  predicate SettledOk(r: Round, t: Terms, l: Book) {
    && t.outcome == Sdk.DeriveOutcome(r)
    && t.burnFeeBps <= MAX_BURN_FEE_BPS
    && (if t.outcome.Bull? || t.outcome.Bear? then
          && r.rewardBaseAmount == PoolOf(r, Winning(t.outcome)) > 0
          && r.rewardAmount == r.totalAmount - (r.totalAmount * t.burnFeeBps) / MAX_BPS
          && (forall a :: a in l && l[a].claimed ==> l[a].position == Winning(t.outcome))
        else
          r.rewardBaseAmount == 0 && r.rewardAmount == 0)
    && (t.outcome.AllLost? ==> NoneClaimed(l))
  }

  ghost predicate RoundOk(r: Round, t: Terms, l: Book, epoch: nat, now: nat) {
    && r.epoch == epoch
    && r.startTimestamp < r.lockTimestamp < r.closeTimestamp
    && r.startTimestamp <= now
    && t.burnFeeBps <= MAX_BURN_FEE_BPS
    && PoolsMatchLedger(r, l)
    && (match r.status
        case Pending => false
        case Open => NoneClaimed(l)
        case Locked => NoneClaimed(l) && r.lockPrice > 0 && r.lockTimestamp <= now
        case Cancelled => true
        case Settled => SettledOk(r, t, l) && r.lockPrice > 0 && r.closePrice > 0 && r.closeTimestamp <= now)
    && (!r.status.Settled? ==> t.outcome.Undecided? && r.rewardBaseAmount == 0 && r.rewardAmount == 0)
  }

  /** What the contract still owes the entrants of one round. */
  ghost function Owed(r: Round, outcome: Outcome, l: Book): nat {
    match r.status
    case Pending => 0
    case Open => r.totalAmount
    case Locked => r.totalAmount
    case Cancelled => Total(Unclaimed, l)
    case Settled =>
      match outcome
      case Undecided => 0
      case AllLost => 0
      case Tie => Total(Unclaimed, l)
      case NoContest => Total(Unclaimed, l)
      case Bull => Left(r, Position.Bull, l)
      case Bear => Left(r, Position.Bear, l)
  }

  ghost function Left(r: Round, p: Position, l: Book): nat {
    var paid := Total(Paid(p, r.rewardAmount, r.rewardBaseAmount), l);
    if paid <= r.rewardAmount then r.rewardAmount - paid else 0
  }

  ghost function OwedAt(s: State, epoch: nat): nat {
    Owed(s.RoundOf(epoch), s.TermsOf(epoch).outcome, s.BookOf(epoch))
  }

  ghost function OwedUpTo(s: State, last: nat): nat {
    if last == 0 then 0 else OwedUpTo(s, last - 1) + OwedAt(s, last)
  }

  // ---- the whole state ----------------------------------------------------------------

  predicate ConfigOk(s: State) {
    && IntervalInBounds(s.interval) && WindowInBounds(s.twapWindow) && BufferInBounds(s.bufferSeconds)
    && ToleranceFitsScan(s.bufferSeconds, s.interval)
    && s.burnFeeBps <= MAX_BURN_FEE_BPS && s.pendingFeeBps <= MAX_BURN_FEE_BPS
  }

  /** A round exists exactly for epochs 1 to currentEpoch. */
  ghost predicate EpochsOk(s: State) {
    && (forall e :: e in s.rounds <==> 1 <= e <= s.currentEpoch)
    && (forall e :: e in s.terms <==> 1 <= e <= s.currentEpoch)
    && (forall e :: e in s.ledger ==> 1 <= e <= s.currentEpoch)
  }

  ghost predicate Linked(s: State, epoch: nat) {
    && s.RoundOf(epoch).closeTimestamp == s.RoundOf(epoch + 1).lockTimestamp
    && s.RoundOf(epoch).lockTimestamp == s.RoundOf(epoch + 1).startTimestamp
  }

  ghost predicate RoundAtOk(s: State, epoch: nat, now: nat) {
    RoundOk(s.RoundOf(epoch), s.TermsOf(epoch), s.BookOf(epoch), epoch, now)
  }

  /** `debt` is what a claim in progress has marked but not yet taken off the books. */
  ghost predicate InvWithDebt(s: State, now: nat, debt: nat) {
    && ConfigOk(s)
    && EpochsOk(s)
    && (forall e | 1 <= e <= s.currentEpoch :: RoundAtOk(s, e, now))
    && (forall e | 1 <= e < s.currentEpoch :: Linked(s, e))
    && s.totalLiabilities == OwedUpTo(s, s.currentEpoch) + debt
    && s.balance == s.forced + s.totalLiabilities + s.burnAllocated
  }

  /** The solvency books balance exactly, up to ETH that was forced in. */
  ghost predicate Inv(s: State, now: nat) {
    InvWithDebt(s, now, 0)
  }

  // ---- framing ------------------------------------------------------------------------

  predicate SameRound(s: State, s': State, epoch: nat) {
    && s'.RoundOf(epoch) == s.RoundOf(epoch)
    && s'.TermsOf(epoch) == s.TermsOf(epoch)
    && s'.BookOf(epoch) == s.BookOf(epoch)
  }

  lemma {:induction false} OwedFrame(s: State, s': State, last: nat, epoch: nat)
    requires forall e | 1 <= e <= last && e != epoch :: SameRound(s, s', e)
    ensures OwedUpTo(s', last) + (if 1 <= epoch <= last then OwedAt(s, epoch) else 0)
         == OwedUpTo(s, last) + (if 1 <= epoch <= last then OwedAt(s', epoch) else 0)
  {
    if last != 0 {
      OwedFrame(s, s', last - 1, epoch);
      assert last != epoch ==> SameRound(s, s', last);
    }
  }

  lemma {:induction false} OwedPart(s: State, last: nat, epoch: nat)
    requires 1 <= epoch <= last
    ensures OwedAt(s, epoch) <= OwedUpTo(s, last)
  {
    if epoch < last {
      OwedPart(s, last - 1, epoch);
    }
  }

  /** A step that rewrites a single round keeps the invariant when it keeps that round's
      schedule and moves the books by exactly the change in what that round is owed. */
  lemma OneRoundStep(s: State, s': State, epoch: nat, now: nat, debt: nat, debt': nat)
    requires InvWithDebt(s, now, debt)
    requires 1 <= epoch <= s.currentEpoch && s'.currentEpoch == s.currentEpoch
    requires ConfigOk(s') && EpochsOk(s')
    requires forall e | 1 <= e <= s.currentEpoch && e != epoch :: SameRound(s, s', e)
    requires RoundAtOk(s', epoch, now)
    requires s'.RoundOf(epoch).startTimestamp == s.RoundOf(epoch).startTimestamp
    requires s'.RoundOf(epoch).lockTimestamp == s.RoundOf(epoch).lockTimestamp
    requires s'.RoundOf(epoch).closeTimestamp == s.RoundOf(epoch).closeTimestamp
    requires s'.totalLiabilities + OwedAt(s, epoch) + debt == s.totalLiabilities + OwedAt(s', epoch) + debt'
    requires s'.balance == s'.forced + s'.totalLiabilities + s'.burnAllocated
    ensures InvWithDebt(s', now, debt')
  {
    OwedFrame(s, s', s.currentEpoch, epoch);
    forall e | 1 <= e <= s'.currentEpoch
      ensures RoundAtOk(s', e, now)
    {
      assert e != epoch ==> SameRound(s, s', e);
      assert RoundAtOk(s, e, now);
    }
    forall e | 1 <= e < s'.currentEpoch
      ensures Linked(s', e)
    {
      assert Linked(s, e);
      assert e != epoch ==> SameRound(s, s', e);
      assert e + 1 != epoch ==> SameRound(s, s', e + 1);
    }
  }

  lemma LaterInv(s: State, now: nat, now': nat)
    requires Inv(s, now) && now <= now'
    ensures Inv(s, now')
  {
    forall e | 1 <= e <= s.currentEpoch
      ensures RoundAtOk(s, e, now')
    {
      assert RoundAtOk(s, e, now);
    }
  }

  // ---- entering -----------------------------------------------------------------------

  lemma EnterKeepsRound(r: Round, t: Terms, l: Book, epoch: nat, now: nat, a: Address, b: Bet)
    requires RoundOk(r, t, l, epoch, now) && r.status.Open?
    requires !b.claimed && (a in l ==> l[a].amount == 0)
    ensures RoundOk(AddStake(r, b.position, b.amount), t, l[a := b], epoch, now)
  {
    TotalUpdate(Side(Position.Bull), l, a, b);
    TotalUpdate(Side(Position.Bear), l, a, b);
  }

  lemma EnterKeepsInv(s: State, w: World, sender: Address, epoch: nat, position: Position, amount: nat)
    requires Inv(s, w.now) && OnEnter(s, w, sender, epoch, position, amount).Ok?
    ensures Inv(OnEnter(s, w, sender, epoch, position, amount).state, w.now)
  {
    var s' := OnEnter(s, w, sender, epoch, position, amount).state;
    assert RoundAtOk(s, epoch, w.now);
    var bet := s.BetOf(epoch, sender).(position := position, amount := amount);
    EnterKeepsRound(s.RoundOf(epoch), s.TermsOf(epoch), s.BookOf(epoch), epoch, w.now, sender, bet);
    OneRoundStep(s, s', epoch, w.now, 0, 0);
  }

  // ---- lifecycle ----------------------------------------------------------------------

  lemma EmptyRoundOk(r: Round, t: Terms, epoch: nat, now: nat)
    requires r == EmptyRound.(epoch := epoch, startTimestamp := r.startTimestamp,
                              lockTimestamp := r.lockTimestamp, closeTimestamp := r.closeTimestamp,
                              status := Status.Open)
    requires r.startTimestamp < r.lockTimestamp < r.closeTimestamp && r.startTimestamp <= now
    requires t.outcome.Undecided? && t.burnFeeBps <= MAX_BURN_FEE_BPS
    ensures RoundOk(r, t, map[], epoch, now)
  {
  }

  /** Appending a round that links to the head keeps the invariant. */
  lemma CreateKeepsInv(s: State, w: World, epoch: nat, start: nat, lock: nat, close: nat)
    requires Inv(s, w.now) && epoch == s.currentEpoch + 1
    requires start < lock < close && start <= w.now
    requires s.currentEpoch > 0 ==>
      start == s.RoundOf(s.currentEpoch).lockTimestamp && lock == s.RoundOf(s.currentEpoch).closeTimestamp
    ensures Inv(CreateRound(s, w, epoch, start, lock, close).(currentEpoch := epoch), w.now)
  {
    var s' := CreateRound(s, w, epoch, start, lock, close).(currentEpoch := epoch);
    assert s.RoundOf(epoch) == EmptyRound && s.TermsOf(epoch) == EmptyTerms && s.BookOf(epoch) == map[];
    EmptyRoundOk(s'.RoundOf(epoch), s'.TermsOf(epoch), epoch, w.now);
    assert forall e | 1 <= e <= s.currentEpoch :: SameRound(s, s', e);
    OwedFrame(s, s', s.currentEpoch, 0);
    forall e | 1 <= e <= epoch
      ensures RoundAtOk(s', e, w.now)
    {
      if e < epoch {
        assert RoundAtOk(s, e, w.now) && SameRound(s, s', e);
      }
    }
    forall e | 1 <= e < epoch
      ensures Linked(s', e)
    {
      assert SameRound(s, s', e);
      if e + 1 < epoch {
        assert Linked(s, e) && SameRound(s, s', e + 1);
      }
    }
  }

  lemma GenesisKeepsInv(s: State, w: World, roles: set<Role>)
    requires Inv(s, w.now) && OnGenesis(s, w, roles).Ok?
    ensures Inv(OnGenesis(s, w, roles).state, w.now)
  {
    CreateKeepsInv(s, w, 1, w.now, w.now + s.interval, w.now + 2 * s.interval);
  }

  lemma OpenNextKeepsInv(s: State, w: World)
    requires Inv(s, w.now) && s.currentEpoch > 0
    requires w.now >= s.RoundOf(s.currentEpoch).lockTimestamp
    ensures Inv(OpenNext(s, w), w.now)
    ensures OpenNext(s, w).currentEpoch == s.currentEpoch + 1
  {
    var head := s.RoundOf(s.currentEpoch);
    assert RoundAtOk(s, s.currentEpoch, w.now);
    CreateKeepsInv(s, w, s.currentEpoch + 1, head.lockTimestamp, head.closeTimestamp,
                   head.closeTimestamp + s.interval);
  }

  lemma LockKeepsInv(s: State, w: World, epoch: nat)
    requires Inv(s, w.now) && OnLock(s, w, epoch).Ok?
    ensures Inv(OnLock(s, w, epoch).state, w.now)
  {
    var s' := OnLock(s, w, epoch).state;
    assert RoundAtOk(s, epoch, w.now);
    OneRoundStep(s, s', epoch, w.now, 0, 0);
  }

  /** While nothing is claimed, the stakes of both sides are all refundable and nothing is paid. */
  lemma UnclaimedIsTotal(r: Round, l: Book)
    requires PoolsMatchLedger(r, l) && NoneClaimed(l)
    ensures Total(Unclaimed, l) == r.totalAmount
    ensures forall p, reward, base :: Total(Paid(p, reward, base), l) == 0
  {
    TotalAdd(Side(Position.Bull), Side(Position.Bear), Unclaimed, l);
    forall p, reward, base
      ensures Total(Paid(p, reward, base), l) == 0
    {
      TotalZero(Paid(p, reward, base), l);
    }
  }

  lemma FeeWithinTotal(total: nat, feeBps: nat)
    requires feeBps <= MAX_BURN_FEE_BPS
    ensures (total * feeBps) / MAX_BPS <= total / 10
    ensures total - (total * feeBps) / MAX_BPS >= total - total / 10
  {
    MulMono(feeBps, MAX_BURN_FEE_BPS, total);
    DivMono(total * feeBps, total * MAX_BURN_FEE_BPS, MAX_BPS);
    DivUnique(total * MAX_BURN_FEE_BPS, MAX_BPS, total / 10);
  }

  /** Settlement records the derived outcome and leaves the round owing its pot less the fee. */
  lemma SettleKeepsRound(r: Round, t: Terms, l: Book, epoch: nat, w: World, price: nat, tick: int)
    requires RoundOk(r, t, l, epoch, w.now) && r.status.Locked? && w.now >= r.closeTimestamp && price > 0
    ensures
      var v := Resolve(r, t.burnFeeBps, price);
      var r' := r.(closePrice := price, rewardBaseAmount := v.rewardBase, rewardAmount := v.reward,
                   status := Status.Settled);
      var t' := t.(closeTick := tick, settledAt := w.now, outcome := v.outcome);
      && RoundOk(r', t', l, epoch, w.now)
      && v.fee <= r.totalAmount
      && Owed(r', t'.outcome, l) == r.totalAmount - v.fee
  {
    UnclaimedIsTotal(r, l);
    FeeWithinTotal(r.totalAmount, t.burnFeeBps);
  }

  lemma SettleKeepsInv(s: State, w: World, epoch: nat)
    requires Inv(s, w.now) && s.RoundOf(epoch).status.Locked? && w.now >= s.RoundOf(epoch).closeTimestamp
    ensures TrySettle(s, w, epoch).Ok? <==> QuoteOf(w, s.TermsOf(epoch), s.RoundOf(epoch).closeTimestamp).Some?
    ensures TrySettle(s, w, epoch).Ok? ==> Inv(TrySettle(s, w, epoch).state, w.now)
    ensures TrySettle(s, w, epoch).Revert? ==>
      TrySettle(s, w, epoch).error
      == if QuoteIsBad(w, s.TermsOf(epoch), s.RoundOf(epoch).closeTimestamp) then UndecodableAnswer
        else PriceUnavailable
  {
    var r, t, l := s.RoundOf(epoch), s.TermsOf(epoch), s.BookOf(epoch);
    assert RoundAtOk(s, epoch, w.now);
    var quote := QuoteOf(w, t, r.closeTimestamp);
    if quote.Some? {
      SettleKeepsRound(r, t, l, epoch, w, quote.value.0, quote.value.1);
      OwedPart(s, s.currentEpoch, epoch);
      OneRoundStep(s, TrySettle(s, w, epoch).state, epoch, w.now, 0, 0);
    }
  }

  lemma VoidKeepsInv(s: State, epoch: nat, now: nat)
    requires Inv(s, now)
    requires s.RoundOf(epoch).status.Open? || s.RoundOf(epoch).status.Locked?
    ensures Inv(Void(s, epoch), now)
  {
    assert RoundAtOk(s, epoch, now);
    UnclaimedIsTotal(s.RoundOf(epoch), s.BookOf(epoch));
    OneRoundStep(s, Void(s, epoch), epoch, now, 0, 0);
  }

  /** One turn of the execute loop: what locking and then settling, where due, leaves behind. */
  function ScanTurn(s: State, w: World, epoch: nat): State {
    var r := s.RoundOf(epoch);
    var s1 := if r.status.Open? && w.now >= r.lockTimestamp && TryLock(s, w, epoch).Some?
              then TryLock(s, w, epoch).value else s;
    if s1.RoundOf(epoch).status.Locked? && w.now >= s1.RoundOf(epoch).closeTimestamp
       && TrySettle(s1, w, epoch).Ok?
    then TrySettle(s1, w, epoch).state else s1
  }

  /** What makes a turn of the loop revert the whole call: an answer it needs does not decode. */
  predicate TurnBreaks(w: World, r: Round, t: Terms) {
    || (r.status.Open? && w.now >= r.lockTimestamp &&
        (QuoteIsBad(w, t, r.lockTimestamp) ||
         (QuoteOf(w, t, r.lockTimestamp).Some? && w.now >= r.closeTimestamp && QuoteIsBad(w, t, r.closeTimestamp))))
    || (r.status.Locked? && w.now >= r.closeTimestamp && QuoteIsBad(w, t, r.closeTimestamp))
  }

  lemma ScanUnrolls(s: State, w: World, epoch: nat, last: nat)
    requires epoch <= last && Scan(s, w, epoch, last).Ok?
    ensures Scan(s, w, epoch, last) == Scan(ScanTurn(s, w, epoch), w, epoch + 1, last)
  {
  }

  lemma ScanTurnKeepsInv(s: State, w: World, epoch: nat)
    requires Inv(s, w.now)
    ensures Inv(ScanTurn(s, w, epoch), w.now)
    ensures ScanTurn(s, w, epoch).currentEpoch == s.currentEpoch
    ensures ScanTurn(s, w, epoch).oracle == s.oracle
    ensures ScanTurn(s, w, epoch).RoundOf(epoch).lockTimestamp == s.RoundOf(epoch).lockTimestamp
    ensures forall e | e != epoch :: ScanTurn(s, w, epoch).RoundOf(e) == s.RoundOf(e)
    ensures forall e | e != epoch :: ScanTurn(s, w, epoch).TermsOf(e) == s.TermsOf(e)
    ensures forall last :: epoch <= last ==>
      Scan(s, w, epoch, last) == if TurnBreaks(w, s.RoundOf(epoch), s.TermsOf(epoch)) then Revert(UndecodableAnswer)
                                 else Scan(ScanTurn(s, w, epoch), w, epoch + 1, last)
  {
    var r := s.RoundOf(epoch);
    var s1 := s;
    if r.status.Open? && w.now >= r.lockTimestamp && TryLock(s, w, epoch).Some? {
      LockKeepsInv(s, w, epoch);
      s1 := TryLock(s, w, epoch).value;
    }
    if s1.RoundOf(epoch).status.Locked? && w.now >= s1.RoundOf(epoch).closeTimestamp {
      SettleKeepsInv(s1, w, epoch);
    }
  }

  /** Some epoch of the range breaks its turn. */
  ghost predicate SomeTurnBreaks(s: State, w: World, epoch: nat, last: nat) {
    exists e | epoch <= e <= last :: TurnBreaks(w, s.RoundOf(e), s.TermsOf(e))
  }

  /** The execute loop fails exactly when an answer it needs does not decode, and otherwise keeps the
      invariant round by round. */
  lemma {:induction false} ScanKeepsInv(s: State, w: World, epoch: nat, last: nat)
    requires Inv(s, w.now)
    ensures Scan(s, w, epoch, last).Ok? <==> !SomeTurnBreaks(s, w, epoch, last)
    ensures Scan(s, w, epoch, last).Revert? ==> Scan(s, w, epoch, last).error.UndecodableAnswer?
    ensures Scan(s, w, epoch, last).Ok? ==> ScanKeeps(s, w, Scan(s, w, epoch, last).state)
    decreases last + 1 - epoch
  {
    hide TurnBreaks, ScanTurn, InvWithDebt;
    if epoch <= last {
      ScanTurnKeepsInv(s, w, epoch);
      var s1 := ScanTurn(s, w, epoch);
      ScanKeepsInv(s1, w, epoch + 1, last);
      if !TurnBreaks(w, s.RoundOf(epoch), s.TermsOf(epoch)) {
        if SomeTurnBreaks(s1, w, epoch + 1, last) {
          var e :| epoch + 1 <= e <= last && TurnBreaks(w, s1.RoundOf(e), s1.TermsOf(e));
          assert TurnBreaks(w, s.RoundOf(e), s.TermsOf(e));
        }
        if SomeTurnBreaks(s, w, epoch, last) {
          var e :| epoch <= e <= last && TurnBreaks(w, s.RoundOf(e), s.TermsOf(e));
          assert TurnBreaks(w, s1.RoundOf(e), s1.TermsOf(e));
        }
      }
    }
  }

  ghost predicate ScanKeeps(s: State, w: World, x: State) {
    && Inv(x, w.now) && x.currentEpoch == s.currentEpoch && x.oracle == s.oracle
    && forall e :: x.RoundOf(e).lockTimestamp == s.RoundOf(e).lockTimestamp
  }

  /** What makes the execute call fail: a due round in the scan, or the next round to be opened, needs an
      answer that does not decode. */
  ghost predicate ExecuteBreaks(s: State, w: World)
    requires s.interval > 0
  {
    || SomeTurnBreaks(s, w, OldestUnresolved(s), s.currentEpoch)
    || (w.now >= s.RoundOf(s.currentEpoch).lockTimestamp && w.version(s.oracle).BadVersion?)
  }

  lemma ExecuteKeepsInv(s: State, w: World)
    requires Inv(s, w.now)
    ensures var v := OnExecute(s, w);
      if s.paused then v == Revert(EnforcedPause)
      else if s.currentEpoch == 0 then v == Revert(NotStarted)
      else if ExecuteBreaks(s, w) then v == Revert(UndecodableAnswer)
      else v.Ok? && Inv(v.state, w.now)
  {
    if !s.paused && s.currentEpoch != 0 {
      ScanKeepsInv(s, w, OldestUnresolved(s), s.currentEpoch);
      if Scan(s, w, OldestUnresolved(s), s.currentEpoch).Ok? {
        var s1 := Scan(s, w, OldestUnresolved(s), s.currentEpoch).state;
        assert EpochsOk(s1);
        if w.now >= s1.RoundOf(s1.currentEpoch).lockTimestamp {
          OpenNextKeepsInv(s1, w);
        }
      }
    }
  }

  // ---- claims -------------------------------------------------------------------------

  lemma ClaimKeepsRound(r: Round, t: Terms, l: Book, epoch: nat, now: nat, a: Address)
    requires RoundOk(r, t, l, epoch, now) && a in l && !l[a].claimed
    requires r.status.Cancelled? || r.status.Settled?
    requires r.status.Settled? ==> !t.outcome.AllLost?
    requires r.status.Settled? && (t.outcome.Bull? || t.outcome.Bear?) ==> Backs(l[a].position, t.outcome)
    ensures RoundOk(r, t, l[a := l[a].(claimed := true)], epoch, now)
  {
    var b := l[a].(claimed := true);
    TotalUpdate(Side(Position.Bull), l, a, b);
    TotalUpdate(Side(Position.Bear), l, a, b);
  }

  /** Marking one entry lowers what its round is owed by exactly the amount to be paid. */
  lemma ClaimMovesOwed(r: Round, t: Terms, l: Book, epoch: nat, now: nat, a: Address)
    requires RoundOk(r, t, l, epoch, now) && a in l && !l[a].claimed
    requires r.status.Cancelled? || r.status.Settled?
    requires r.status.Settled? ==> !t.outcome.AllLost?
    requires r.status.Settled? && (t.outcome.Bull? || t.outcome.Bear?) ==> Backs(l[a].position, t.outcome)
    ensures
      var paid := if r.status.Settled? && (t.outcome.Bull? || t.outcome.Bear?)
                  then Payout(l[a].amount, r.rewardAmount, r.rewardBaseAmount) else l[a].amount;
      Owed(r, t.outcome, l) == Owed(r, t.outcome, l[a := l[a].(claimed := true)]) + paid
  {
    var b := l[a].(claimed := true);
    var l' := l[a := b];
    TotalUpdate(Unclaimed, l, a, b);
    if r.status.Settled? && (t.outcome.Bull? || t.outcome.Bear?) {
      var p := Winning(t.outcome);
      TotalUpdate(Paid(p, r.rewardAmount, r.rewardBaseAmount), l, a, b);
      TotalUpdate(Side(p), l, a, b);
      PaidWithinReward(r, p, l');
    }
  }

  lemma PaidWithinReward(r: Round, p: Position, l: Book)
    requires r.rewardBaseAmount > 0 && Total(Side(p), l) == r.rewardBaseAmount
    ensures Total(Paid(p, r.rewardAmount, r.rewardBaseAmount), l) <= r.rewardAmount
  {
    PaidPlusDue(p, r.rewardAmount, r.rewardBaseAmount, l);
    DustBelowWinners(p, r.rewardAmount, r.rewardBaseAmount, l);
  }

  lemma MarkOneKeepsInv(s: State, sender: Address, epoch: nat, now: nat, debt: nat)
    requires InvWithDebt(s, now, debt) && MarkOne(s, sender, epoch).Marked?
    ensures var m := MarkOne(s, sender, epoch); InvWithDebt(m.state, now, debt + m.amount)
  {
    var m := MarkOne(s, sender, epoch);
    var s', l := m.state, s.BookOf(epoch);
    assert RoundAtOk(s, epoch, now);
    ClaimKeepsRound(s.RoundOf(epoch), s.TermsOf(epoch), l, epoch, now, sender);
    ClaimMovesOwed(s.RoundOf(epoch), s.TermsOf(epoch), l, epoch, now, sender);
    OneRoundStep(s, s', epoch, now, debt, debt + m.amount);
  }

  lemma {:induction false} MarkAllKeepsInv(s: State, sender: Address, epochs: seq<nat>, now: nat, debt: nat)
    requires InvWithDebt(s, now, debt) && MarkAll(s, sender, epochs).Marked?
    ensures var m := MarkAll(s, sender, epochs); InvWithDebt(m.state, now, debt + m.amount)
    decreases |epochs|
  {
    if epochs != [] {
      MarkOneKeepsInv(s, sender, epochs[0], now, debt);
      var m := MarkOne(s, sender, epochs[0]);
      MarkAllKeepsInv(m.state, sender, epochs[1..], now, debt + m.amount);
    }
  }

  /** A claim that passes its checks can always be paid: neither the liabilities nor the
      balance underflow. */
  lemma ClaimKeepsInv(s: State, sender: Address, epochs: seq<nat>, now: nat)
    requires Inv(s, now)
    ensures ClaimEffects(s, sender, epochs).Ok? <==> MarkAll(s, sender, epochs).Marked?
    ensures ClaimEffects(s, sender, epochs).Ok? ==> Inv(ClaimEffects(s, sender, epochs).state, now)
  {
    if MarkAll(s, sender, epochs).Marked? {
      MarkAllKeepsInv(s, sender, epochs, now, 0);
      var m := MarkAll(s, sender, epochs);
      var s' := ClaimEffects(s, sender, epochs).state;
      SameBooks(m.state, s', now);
    }
  }

  /** Changes outside the rounds leave every round's part of the invariant alone. */
  lemma SameBooks(s: State, s': State, now: nat)
    requires s'.rounds == s.rounds && s'.terms == s.terms && s'.ledger == s.ledger
    requires s'.currentEpoch == s.currentEpoch
    ensures OwedUpTo(s', s.currentEpoch) == OwedUpTo(s, s.currentEpoch)
    ensures forall e :: RoundAtOk(s, e, now) ==> RoundAtOk(s', e, now)
    ensures forall e :: Linked(s, e) ==> Linked(s', e)
  {
    OwedFrame(s, s', s.currentEpoch, 0);
  }

  lemma SweepKeepsInv(s: State, now: nat)
    requires Inv(s, now)
    ensures SweepEffects(s).Ok? <==> s.burnAllocated > 0
    ensures SweepEffects(s).Ok? ==> Inv(SweepEffects(s).state, now)
  {
    if s.burnAllocated > 0 {
      SameBooks(s, SweepEffects(s).state, now);
    }
  }

  /** Configuration reaches no existing round and moves no money. */
  lemma ConfigureKeepsRounds(s: State, w: World, roles: set<Role>, call: Call)
    requires IsConfiguration(call) && Configure(s, w, roles, call).Ok?
    ensures var s' := Configure(s, w, roles, call).state;
      && s'.rounds == s.rounds && s'.terms == s.terms && s'.ledger == s.ledger
      && s'.currentEpoch == s.currentEpoch && s'.totalLiabilities == s.totalLiabilities
      && s'.burnAllocated == s.burnAllocated && s'.balance == s.balance && s'.forced == s.forced
      && (ConfigOk(s) ==> ConfigOk(s'))
  {
  }

  lemma ConfigureKeepsInv(s: State, w: World, roles: set<Role>, call: Call)
    requires Inv(s, w.now) && IsConfiguration(call) && Configure(s, w, roles, call).Ok?
    ensures Inv(Configure(s, w, roles, call).state, w.now)
  {
    ConfigureKeepsRounds(s, w, roles, call);
    SameBooks(s, Configure(s, w, roles, call).state, w.now);
  }

  // ---- whole calls --------------------------------------------------------------------

  lemma UnguardedKeepsInv(s: State, tx: Tx)
    requires Inv(s, tx.world.now) && !Guarded(tx.call) && ApplyUnguarded(s, tx).Ok?
    ensures Inv(ApplyUnguarded(s, tx).state, tx.world.now)
  {
    var w := tx.world;
    if IsConfiguration(tx.call) {
      ConfigureKeepsInv(s, w, tx.roles, tx.call);
    } else {
      match tx.call
      case GenesisStartRound => GenesisKeepsInv(s, w, tx.roles);
      case ExecuteRound => ExecuteKeepsInv(s, w);
      case StartNextRound => OpenNextKeepsInv(s, w);
      case LockRound(epoch) => LockKeepsInv(s, w, epoch);
      case SettleRound(epoch) => SettleKeepsInv(s, w, epoch);
      case CancelRound(epoch) => VoidKeepsInv(s, epoch, w.now);
      case EmergencyCancelRound(epoch) => VoidKeepsInv(s, epoch, w.now);
      case ForceEther(amount) => SameBooks(s, ApplyUnguarded(s, tx).state, w.now);
    }
  }

  lemma ReenterKeepsInv(s: State, now: nat, tx: Tx)
    requires Inv(s, now)
    ensures Inv(Reenter(s, now, tx), now)
  {
    var tx' := tx.(world := tx.world.(now := now));
    if !Guarded(tx.call) && ApplyUnguarded(s, tx').Ok? {
      UnguardedKeepsInv(s, tx');
    }
  }

  /** The invariant holds when the ETH leaves and after every call the receiver makes back. */
  lemma {:induction false} SolventAtEverySend(s: State, now: nat, inner: seq<Tx>, k: nat)
    requires Inv(s, now) && k <= |inner|
    ensures Inv(ReenterAll(s, now, inner[..k]), now)
    decreases k
  {
    if k > 0 {
      ReenterKeepsInv(s, now, inner[0]);
      SolventAtEverySend(Reenter(s, now, inner[0]), now, inner[1..], k - 1);
      assert inner[..k][1..] == inner[1..][..k - 1];
    }
  }

  lemma StepKeepsInv(s: State, now: nat, tx: Tx)
    requires Inv(s, now) && now <= tx.world.now
    ensures Inv(Step(s, tx), tx.world.now)
  {
    var t := tx.world.now;
    LaterInv(s, now, t);
    match tx.call
    case Enter(epoch, position, amount) =>
      if Apply(s, tx).Ok? {
        EnterKeepsInv(s, tx.world, tx.sender, epoch, position, amount);
      }
    case Claim(epochs, receiver) =>
      ClaimKeepsInv(s, tx.sender, epochs, t);
      if Apply(s, tx).Ok? {
        SolventAtEverySend(ClaimEffects(s, tx.sender, epochs).state, t, receiver.inner, |receiver.inner|);
        assert receiver.inner[..|receiver.inner|] == receiver.inner;
      }
    case SweepToBurner(receiver) =>
      SweepKeepsInv(s, t);
      if Apply(s, tx).Ok? {
        SolventAtEverySend(SweepEffects(s).state, t, receiver.inner, |receiver.inner|);
        assert receiver.inner[..|receiver.inner|] == receiver.inner;
      }
    case _ =>
      if Apply(s, tx).Ok? {
        UnguardedKeepsInv(s, tx);
      }
  }

  lemma ConstructInv(p: InitParams, now: nat)
    requires Construct(p).Ok?
    ensures Inv(Construct(p).state, now)
  {
  }

  /** Solvency, schedule and settlement bookkeeping hold after any run of any calls. */
  lemma {:induction false} RunKeepsInv(s: State, now: nat, txs: seq<Tx>)
    requires Inv(s, now) && Chronological(now, txs)
    ensures Inv(Run(s, txs), EndTime(now, txs))
    decreases |txs|
  {
    if txs != [] {
      StepKeepsInv(s, now, txs[0]);
      RunKeepsInv(Step(s, txs[0]), txs[0].world.now, txs[1..]);
    }
  }
}
