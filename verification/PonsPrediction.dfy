/** The market contract itself: storage fields updated step by step, each call proved to be the
    transition of the specification, and the solvency invariant held at every ETH transfer. */
module PonsPrediction {
  import opened Util
  import opened MarketTypes
  import opened MarketSpec
  import opened MarketInvariant
  import Sdk

  /** A call that returns normally reaches the specified state; one that reverts leaves no trace. */
  ghost predicate Follows(spec: Result, before: State, after: State, error: Option<Error>) {
    match spec
    case Ok(s) => error == None && after == s
    case Revert(e) => error == Some(e) && after == before
  }

  predicate WasLocked(before: State, after: State, epoch: nat) {
    before.RoundOf(epoch).status.Open? && (after.RoundOf(epoch).status.Locked? || after.RoundOf(epoch).status.Settled?)
  }

  predicate WasSettled(before: State, after: State, epoch: nat) {
    !before.RoundOf(epoch).status.Settled? && after.RoundOf(epoch).status.Settled?
  }

  ghost predicate SameElsewhere(s: State, s': State, epoch: nat) {
    forall e :: e != epoch ==> s'.RoundOf(e) == s.RoundOf(e)
  }

  /** Epochs from `epoch` on have not been touched yet. */
  ghost predicate SameFrom(s: State, s': State, epoch: nat) {
    forall e :: epoch <= e ==> s'.RoundOf(e) == s.RoundOf(e)
  }

  ghost predicate AnyLocked(before: State, after: State) {
    exists e :: WasLocked(before, after, e)
  }

  ghost predicate AnySettled(before: State, after: State) {
    exists e :: WasSettled(before, after, e)
  }

  lemma NothingYet(s: State)
    ensures !AnyLocked(s, s) && !AnySettled(s, s) && forall epoch :: SameFrom(s, s, epoch)
  {
  }

  lemma NextIsPending(s: State, now: nat)
    requires Inv(s, now)
    ensures s.RoundOf(s.currentEpoch + 1).status.Pending?
  {
    assert EpochsOk(s);
  }

  lemma IntervalIsPositive(s: State, now: nat)
    requires Inv(s, now)
    ensures s.interval > 0
  {
  }

  /** Opening the next round locks and settles nothing. */
  lemma OpeningLocksNothing(s0: State, s1: State, s2: State, epoch: nat)
    requires SameElsewhere(s1, s2, epoch)
    requires s2.RoundOf(epoch).status.Open? && s1.RoundOf(epoch).status.Pending?
    ensures AnyLocked(s0, s2) == AnyLocked(s0, s1) && AnySettled(s0, s2) == AnySettled(s0, s1)
  {
    forall e
      ensures WasLocked(s0, s2, e) <==> WasLocked(s0, s1, e)
      ensures WasSettled(s0, s2, e) <==> WasSettled(s0, s1, e)
    {
    }
  }

  /** After a turn on one epoch, something has been locked or settled since the start if it had been
      before the turn or was in the turn. */
  lemma AfterTurn(s0: State, s1: State, s2: State, epoch: nat)
    requires SameFrom(s0, s1, epoch) && SameElsewhere(s1, s2, epoch)
    ensures SameFrom(s0, s2, epoch + 1)
    ensures AnyLocked(s0, s2) <==> AnyLocked(s0, s1) || WasLocked(s1, s2, epoch)
    ensures AnySettled(s0, s2) <==> AnySettled(s0, s1) || WasSettled(s1, s2, epoch)
  {
    forall e
      ensures WasLocked(s0, s2, e) <==> WasLocked(s0, s1, e) || (e == epoch && WasLocked(s1, s2, epoch))
      ensures WasSettled(s0, s2, e) <==> WasSettled(s0, s1, e) || (e == epoch && WasSettled(s1, s2, epoch))
    {
    }
    if WasLocked(s1, s2, epoch) {
      assert WasLocked(s0, s2, epoch);
    }
    if WasSettled(s1, s2, epoch) {
      assert WasSettled(s0, s2, epoch);
    }
  }

  /** The claim loop resumed with `payout` already accumulated. */
  function Resume(payout: nat, rest: Marked): Marked {
    match rest case Refused(e) => Refused(e) case Marked(s, n) => Marked(s, payout + n)
  }

  /** Marking the first epoch and resuming is marking them all. */
  lemma ResumeOne(s: State, s': State, sender: Address, epochs: seq<nat>, paid: nat, amount: nat)
    requires epochs != [] && MarkOne(s, sender, epochs[0]) == Marked(s', amount)
    ensures Resume(paid, MarkAll(s, sender, epochs)) == Resume(paid + amount, MarkAll(s', sender, epochs[1..]))
  {
  }

  lemma ResumeRefused(s: State, sender: Address, epochs: seq<nat>, paid: nat, e: Error)
    requires epochs != [] && MarkOne(s, sender, epochs[0]) == Refused(e)
    ensures Resume(paid, MarkAll(s, sender, epochs)) == Refused(e)
  {
  }

  lemma {:induction false} MarkingOnlyMarks(s: State, sender: Address, epochs: seq<nat>)
    requires MarkAll(s, sender, epochs).Marked?
    ensures var x := MarkAll(s, sender, epochs).state; x == s.(ledger := x.ledger)
    decreases |epochs|
  {
    if epochs != [] {
      MarkingOnlyMarks(MarkOne(s, sender, epochs[0]).state, sender, epochs[1..]);
    }
  }

  lemma NoWorkYet(s: State, w: World, first: nat)
    ensures forall work :: WorkList(s, w, work, first, first) == []
  {
  }

  /** One more epoch goes on the one list of its kind. */
  lemma WorkListGrows(s: State, w: World, first: nat, epoch: nat, found: Work)
    requires first <= epoch && WorkFor(s, w, epoch) == found
    ensures forall work :: WorkList(s, w, work, first, epoch + 1)
                           == if work == found then WorkList(s, w, work, first, epoch) + [epoch]
                              else WorkList(s, w, work, first, epoch)
  {
    hide WorkFor;
  }

  class Market {
    var currentEpoch: nat
    var oracle: Address
    var burner: Address
    var interval: nat
    var twapWindow: nat
    var bufferSeconds: nat
    var burnFeeBps: nat
    var minimumBet: nat
    var maximumBet: nat
    var maximumRoundPool: nat
    var burnAllocated: nat
    var totalLiabilities: nat
    var rounds: map<nat, Round>
    var terms: map<nat, Terms>
    var ledger: map<nat, Book>
    var pendingFeeBps: nat
    var pendingFeeReadyAt: nat
    var pendingOracle: Address
    var pendingOracleReadyAt: nat
    var paused: bool
    var entered: bool
    var balance: nat
    ghost var forced: nat

    ghost function Abs(): State
      reads this
    {
      State(currentEpoch, oracle, burner, interval, twapWindow, bufferSeconds, burnFeeBps,
            minimumBet, maximumBet, maximumRoundPool, burnAllocated, totalLiabilities, rounds, terms, ledger,
            pendingFeeBps, pendingFeeReadyAt, pendingOracle, pendingOracleReadyAt, paused, balance, forced)
    }

    ghost predicate Valid(now: nat)
      reads this
    {
      Inv(Abs(), now)
    }

    constructor (p: InitParams, ghost now: nat)
      requires Construct(p).Ok?
      ensures Abs() == Construct(p).state && Valid(now) && !entered
    {
      currentEpoch, oracle, burner := 0, p.oracle, p.burner;
      interval, twapWindow, bufferSeconds, burnFeeBps := p.interval, p.twapWindow, p.bufferSeconds, p.burnFeeBps;
      minimumBet, maximumBet, maximumRoundPool := p.minimumBet, p.maximumBet, p.maximumRoundPool;
      burnAllocated, totalLiabilities, balance, forced := 0, 0, 0, 0;
      rounds, terms, ledger := map[], map[], map[];
      pendingFeeBps, pendingFeeReadyAt, pendingOracle, pendingOracleReadyAt := 0, 0, 0, 0;
      paused, entered := false, false;
      new;
      ConstructInv(p, now);
    }

    // ---- storage reads ----------------------------------------------------------------

    function RoundAt(epoch: nat): Round
      reads this
    {
      if epoch in rounds then rounds[epoch] else EmptyRound
    }

    function TermsAt(epoch: nat): Terms
      reads this
    {
      if epoch in terms then terms[epoch] else EmptyTerms
    }

    function BookAt(epoch: nat): Book
      reads this
    {
      if epoch in ledger then ledger[epoch] else map[]
    }

    function BetAt(epoch: nat, account: Address): Bet
      reads this
    {
      if account in BookAt(epoch) then BookAt(epoch)[account] else EmptyBet
    }

    // ---- entering ---------------------------------------------------------------------

    /** The guards of an entry, in order. */
    method CheckEntry(w: World, sender: Address, epoch: nat, position: Position, amount: nat)
      returns (error: Option<Error>)
      ensures match OnEnter(Abs(), w, sender, epoch, position, amount)
              case Ok(_) => error == None
              case Revert(e) => error == Some(e)
    {
      if paused { return Some(EnforcedPause); }
      var r := RoundAt(epoch);
      if r.status.Pending? { return Some(RoundNotFound); }
      if !r.status.Open? { return Some(RoundNotOpen); }
      if w.now >= r.lockTimestamp { return Some(EntriesClosed); }
      if w.now < r.startTimestamp { return Some(RoundNotOpen); }
      if amount < minimumBet { return Some(StakeBelowMinimum); }
      if maximumBet != 0 && amount > maximumBet { return Some(StakeAboveMaximum); }
      if BetAt(epoch, sender).amount != 0 { return Some(AlreadyEntered); }
      if maximumRoundPool != 0 && r.totalAmount + amount > maximumRoundPool { return Some(RoundPoolExceeded); }
      return None;
    }

    method RecordEntry(sender: Address, epoch: nat, position: Position, amount: nat)
      modifies this`rounds, this`ledger, this`totalLiabilities, this`balance
      ensures rounds == old(rounds)[epoch := AddStake(old(RoundAt(epoch)), position, amount)]
      ensures ledger == old(ledger)[epoch := old(BookAt(epoch))
                          [sender := old(BetAt(epoch, sender)).(position := position, amount := amount)]]
      ensures totalLiabilities == old(totalLiabilities) + amount && balance == old(balance) + amount
    {
      var r, bet := RoundAt(epoch), BetAt(epoch, sender);
      bet := bet.(position := position, amount := amount);
      r := r.(totalAmount := r.totalAmount + amount);
      if position.Bull? {
        r := r.(bullAmount := r.bullAmount + amount);
      } else {
        r := r.(bearAmount := r.bearAmount + amount);
      }
      ledger := ledger[epoch := BookAt(epoch)[sender := bet]];
      rounds := rounds[epoch := r];
      totalLiabilities := totalLiabilities + amount;
      balance := balance + amount;
    }

    method Enter(w: World, sender: Address, epoch: nat, position: Position, amount: nat)
      returns (error: Option<Error>)
      requires Valid(w.now)
      modifies this
      ensures Valid(w.now) && entered == old(entered)
      ensures Follows(if old(!paused && entered) then Revert(ReentrantCall)
                      else OnEnter(old(Abs()), w, sender, epoch, position, amount),
                      old(Abs()), Abs(), error)
    {
      if !paused && entered { return Some(ReentrantCall); }
      error := CheckEntry(w, sender, epoch, position, amount);
      if error.Some? { return; }
      ghost var s := OnEnter(Abs(), w, sender, epoch, position, amount).state;
      EnterKeepsInv(Abs(), w, sender, epoch, position, amount);
      RecordEntry(sender, epoch, position, amount);
      assert Abs() == s;
    }

    // ---- lifecycle --------------------------------------------------------------------

    /** A version that does not decode reverts what was already written of the round. */
    method CreateRound(w: World, epoch: nat, start: nat, lock: nat, close: nat) returns (ok: bool)
      modifies this`rounds, this`terms
      ensures ok == !CreateBreaks(old(Abs()), w)
      ensures Abs() == if ok then MarketSpec.CreateRound(old(Abs()), w, epoch, start, lock, close) else old(Abs())
    {
      var saved := rounds;
      var r := RoundAt(epoch);
      r := r.(epoch := epoch, startTimestamp := start, lockTimestamp := lock, closeTimestamp := close);
      r := r.(status := Status.Open);
      rounds := rounds[epoch := r];
      var t := TermsAt(epoch).(oracle := oracle, twapWindow := twapWindow, burnFeeBps := burnFeeBps);
      match w.version(oracle) {
        case Version(number) => t := t.(oracleVersion := number);
        case NoVersion => t := t.(oracleVersion := 0);
        case BadVersion =>
          rounds := saved;
          return false;
      }
      terms := terms[epoch := t];
      return true;
    }

    method GenesisStartRound(w: World, roles: set<Role>) returns (error: Option<Error>)
      requires Valid(w.now)
      modifies this
      ensures Valid(w.now) && entered == old(entered)
      ensures Follows(OnGenesis(old(Abs()), w, roles), old(Abs()), Abs(), error)
    {
      if Operator !in roles { return Some(Unauthorized); }
      if paused { return Some(EnforcedPause); }
      if currentEpoch != 0 { return Some(AlreadyStarted); }
      ghost var spec := OnGenesis(Abs(), w, roles);
      if spec.Ok? { GenesisKeepsInv(Abs(), w, roles); }
      var start := w.now;
      var ok := CreateRound(w, 1, start, start + interval, start + 2 * interval);
      if !ok { return Some(UndecodableAnswer); }
      currentEpoch := 1;
      return None;
    }

    /** The head always leaves the next slot free, so opening it succeeds unless the version does not decode. */
    method OpenNext(w: World) returns (ok: bool)
      requires Valid(w.now) && currentEpoch > 0 && w.now >= RoundAt(currentEpoch).lockTimestamp
      modifies this`rounds, this`terms, this`currentEpoch
      ensures Valid(w.now) && ok == !OpenBreaks(old(Abs()), w)
      ensures Abs() == if ok then MarketSpec.OpenNext(old(Abs()), w) else old(Abs())
      ensures currentEpoch == if ok then old(currentEpoch) + 1 else old(currentEpoch)
    {
      OpenNextKeepsInv(Abs(), w);
      var head := RoundAt(currentEpoch);
      var next := currentEpoch + 1;
      if !RoundAt(next).status.Pending? { return true; }
      var start, lock := head.lockTimestamp, head.closeTimestamp;
      var close := lock + interval;
      ok := CreateRound(w, next, start, lock, close);
      if ok { currentEpoch := next; }
    }

    method StartNextRound(w: World) returns (error: Option<Error>)
      requires Valid(w.now)
      modifies this
      ensures Valid(w.now) && entered == old(entered)
      ensures Follows(OnStartNext(old(Abs()), w), old(Abs()), Abs(), error)
    {
      if paused { return Some(EnforcedPause); }
      if currentEpoch == 0 { return Some(NotStarted); }
      if w.now < RoundAt(currentEpoch).lockTimestamp { return Some(NotYetLockable); }
      var ok := OpenNext(w);
      return if ok then None else Some(UndecodableAnswer);
    }

    /** Three ends: a price and the lock, no price yet, or a quote that does not decode. */
    method TryLock(w: World, epoch: nat) returns (bad: bool, ok: bool)
      requires Valid(w.now) && RoundAt(epoch).status.Open? && w.now >= RoundAt(epoch).lockTimestamp
      modifies this`rounds, this`terms
      ensures Valid(w.now)
      ensures bad == QuoteIsBad(w, old(TermsAt(epoch)), old(RoundAt(epoch)).lockTimestamp)
      ensures match MarketSpec.TryLock(old(Abs()), w, epoch)
              case Some(s) => ok && Abs() == s
              case None => !ok && Abs() == old(Abs())
    {
      var r, t := RoundAt(epoch), TermsAt(epoch);
      if QuoteIsBad(w, t, r.lockTimestamp) { return true, false; }
      var quote := QuoteOf(w, t, r.lockTimestamp);
      if quote.None? { return false, false; }
      LockKeepsInv(Abs(), w, epoch);
      rounds := rounds[epoch := r.(lockPrice := quote.value.0, status := Status.Locked)];
      terms := terms[epoch := t.(lockTick := quote.value.1, lockedAt := w.now)];
      return false, true;
    }

    /** Who won is what the client library derives from the round; what is taken and what is shared out
        make up the pot, and nothing is taken unless both sides were staked or every stake lost. */
    static method Decide(r: Round, feeBps: nat, price: nat) returns (outcome: Outcome, fee: nat, rewarded: Round)
      requires feeBps <= MAX_BPS
      ensures var v := Resolve(r, feeBps, price);
        outcome == v.outcome && fee == v.fee
        && rewarded == r.(rewardBaseAmount := v.rewardBase, rewardAmount := v.reward)
      ensures outcome == Sdk.DeriveOutcome(r.(closePrice := price)) && fee <= r.totalAmount
      ensures outcome.Bull? || outcome.Bear? ==>
        && rewarded.rewardAmount + fee == r.totalAmount && fee * MAX_BPS <= r.totalAmount * feeBps < (fee + 1) * MAX_BPS
        && rewarded.rewardBaseAmount == PoolOf(r, Winning(outcome)) > 0
      ensures outcome.AllLost? ==> fee == r.totalAmount && rewarded == r
      ensures outcome.Tie? || outcome.NoContest? ==> fee == 0 && rewarded == r
    {
      fee, rewarded := 0, r;
      if r.totalAmount == 0 {
        outcome := Outcome.NoContest;
      } else if price == r.lockPrice {
        outcome := Outcome.Tie;
      } else {
        var bullWins := price > r.lockPrice;
        var winningPool := if bullWins then r.bullAmount else r.bearAmount;
        var losingPool := if bullWins then r.bearAmount else r.bullAmount;
        if winningPool == 0 {
          outcome, fee := Outcome.AllLost, r.totalAmount;
        } else if losingPool == 0 {
          outcome := Outcome.NoContest;
        } else {
          outcome := if bullWins then Outcome.Bull else Outcome.Bear;
          fee := (r.totalAmount * feeBps) / MAX_BPS;
          FeeAtMostTotal(r.totalAmount, feeBps);
          DivBounds(r.totalAmount * feeBps, MAX_BPS);
          rewarded := r.(rewardBaseAmount := winningPool, rewardAmount := r.totalAmount - fee);
        }
      }
    }

    /** The subtraction from the liabilities never underflows: that is what makes it a `nat`. */
    method TrySettle(w: World, epoch: nat) returns (bad: bool, ok: bool)
      requires MarketSpec.TrySettle(Abs(), w, epoch) != Revert(Panic)
      modifies this`rounds, this`terms, this`burnAllocated, this`totalLiabilities
      ensures match MarketSpec.TrySettle(old(Abs()), w, epoch)
              case Ok(s) => !bad && ok && Abs() == s
              case Revert(e) => !ok && e == (if bad then UndecodableAnswer else PriceUnavailable) && Abs() == old(Abs())
    {
      var r, t := RoundAt(epoch), TermsAt(epoch);
      if QuoteIsBad(w, t, r.closeTimestamp) { return true, false; }
      var quote := QuoteOf(w, t, r.closeTimestamp);
      if quote.None? { return false, false; }
      var outcome, fee, rewarded := Decide(r, t.burnFeeBps, quote.value.0);
      BookSettlement(epoch, fee, rewarded.(closePrice := quote.value.0, status := Status.Settled),
                     t.(closeTick := quote.value.1, settledAt := w.now, outcome := outcome));
      return false, true;
    }

    method BookSettlement(epoch: nat, fee: nat, r: Round, t: Terms)
      requires fee <= totalLiabilities
      modifies this`rounds, this`terms, this`burnAllocated, this`totalLiabilities
      ensures Abs() == old(Abs()).(rounds := old(rounds)[epoch := r], terms := old(terms)[epoch := t],
                                   burnAllocated := old(burnAllocated) + fee,
                                   totalLiabilities := old(totalLiabilities) - fee)
    {
      if fee != 0 {
        burnAllocated := burnAllocated + fee;
        totalLiabilities := totalLiabilities - fee;
      }
      rounds := rounds[epoch := r];
      terms := terms[epoch := t];
    }

    method LockRound(w: World, epoch: nat) returns (error: Option<Error>)
      requires Valid(w.now)
      modifies this
      ensures Valid(w.now) && entered == old(entered)
      ensures Follows(OnLock(old(Abs()), w, epoch), old(Abs()), Abs(), error)
    {
      var r := RoundAt(epoch);
      if !r.status.Open? { return Some(RoundNotOpen); }
      if w.now < r.lockTimestamp { return Some(NotYetLockable); }
      var bad, ok := TryLock(w, epoch);
      if ok { return None; }
      return Some(if bad || ProbeIsBad(w, TermsAt(epoch), r.lockTimestamp) then UndecodableAnswer
                  else PriceUnavailable);
    }

    method SettleRound(w: World, epoch: nat) returns (error: Option<Error>)
      requires Valid(w.now)
      modifies this
      ensures Valid(w.now) && entered == old(entered)
      ensures Follows(OnSettle(old(Abs()), w, epoch), old(Abs()), Abs(), error)
    {
      var r := RoundAt(epoch);
      if !r.status.Locked? { return Some(NotYetSettleable); }
      if w.now < r.closeTimestamp { return Some(NotYetSettleable); }
      SettleKeepsInv(Abs(), w, epoch);
      var bad, ok := TrySettle(w, epoch);
      if ok { return None; }
      return Some(if bad || ProbeIsBad(w, TermsAt(epoch), r.closeTimestamp) then UndecodableAnswer
                  else PriceUnavailable);
    }

    /** The scan is never longer than its bound, and when neither cut to it nor begun at round 1 it spans
        the tolerance with more than two intervals to spare. */
    method OldestUnresolved() returns (epoch: nat)
      requires interval > 0
      ensures epoch == MarketSpec.OldestUnresolved(Abs())
      ensures 1 <= epoch && currentEpoch <= epoch + MAX_SCAN_ROUNDS && (currentEpoch > 0 ==> epoch <= currentEpoch)
      ensures epoch == 1 || currentEpoch == epoch + MAX_SCAN_ROUNDS ||
              bufferSeconds < (currentEpoch - epoch - 2) * interval <= bufferSeconds + interval
    {
      var span := 3 + bufferSeconds / interval;
      DivBounds(bufferSeconds, interval);
      assert (bufferSeconds / interval + 1) * interval == (bufferSeconds / interval) * interval + interval;
      if span > MAX_SCAN_ROUNDS { span := MAX_SCAN_ROUNDS; }
      return if currentEpoch > span then currentEpoch - span else 1;
    }

    /** One turn of the execute loop; it fails when an answer it needs does not decode. */
    method Turn(w: World, epoch: nat) returns (bad: bool, locked: bool, settled: bool)
      requires Valid(w.now)
      modifies this`rounds, this`terms, this`burnAllocated, this`totalLiabilities
      ensures bad == TurnBreaks(w, old(RoundAt(epoch)), old(TermsAt(epoch)))
      ensures !bad ==> Valid(w.now) && Abs() == ScanTurn(old(Abs()), w, epoch)
      ensures !bad ==> locked == WasLocked(old(Abs()), Abs(), epoch) && settled == WasSettled(old(Abs()), Abs(), epoch)
    {
      hide InvWithDebt;
      ScanTurnKeepsInv(Abs(), w, epoch);
      bad, locked, settled := false, false, false;
      var r := RoundAt(epoch);
      if r.status.Open? && w.now >= r.lockTimestamp {
        bad, locked := TryLock(w, epoch);
        if bad { return; }
      }
      if RoundAt(epoch).status.Locked? && w.now >= RoundAt(epoch).closeTimestamp {
        SettleKeepsInv(Abs(), w, epoch);
        bad, settled := TrySettle(w, epoch);
      }
    }

    /** An answer that does not decode anywhere in the call undoes all of it. */
    method ExecuteRound(w: World) returns (error: Option<Error>, lockedAny: bool, settledAny: bool, startedAny: bool)
      requires Valid(w.now)
      modifies this
      ensures Valid(w.now) && entered == old(entered)
      ensures Follows(OnExecute(old(Abs()), w), old(Abs()), Abs(), error)
      ensures error.None? ==> (lockedAny <==> AnyLocked(old(Abs()), Abs()))
      ensures error.None? ==> (settledAny <==> AnySettled(old(Abs()), Abs()))
      ensures error.None? ==> (startedAny <==> currentEpoch > old(currentEpoch))
    {
      hide AnyLocked, AnySettled, InvWithDebt, Scan, MarketSpec.OpenNext, OpenBreaks;
      if paused { return Some(EnforcedPause), false, false, false; }
      if currentEpoch == 0 { return Some(NotStarted), false, false, false; }
      IntervalIsPositive(Abs(), w.now);
      var savedRounds, savedTerms, savedBurn, savedLiabilities := rounds, terms, burnAllocated, totalLiabilities;
      var bad;
      bad, lockedAny, settledAny, startedAny := Advance(w);
      if bad {
        rounds, terms, burnAllocated, totalLiabilities := savedRounds, savedTerms, savedBurn, savedLiabilities;
        assert Abs() == old(Abs());
        error := Some(UndecodableAnswer);
      } else {
        error := None;
      }
    }

    /** The scan, and then the next round when the head has stopped taking entries. */
    method Advance(w: World) returns (bad: bool, lockedAny: bool, settledAny: bool, startedAny: bool)
      requires Valid(w.now) && !paused && currentEpoch > 0 && interval > 0
      modifies this`rounds, this`terms, this`burnAllocated, this`totalLiabilities, this`currentEpoch
      ensures OnExecute(old(Abs()), w) == if bad then Revert(UndecodableAnswer) else Ok(Abs())
      ensures bad ==> currentEpoch == old(currentEpoch)
      ensures !bad ==> Valid(w.now)
      ensures !bad ==> (lockedAny <==> AnyLocked(old(Abs()), Abs()))
      ensures !bad ==> (settledAny <==> AnySettled(old(Abs()), Abs()))
      ensures !bad ==> (startedAny <==> currentEpoch > old(currentEpoch))
    {
      hide AnyLocked, AnySettled, InvWithDebt, Scan;
      ghost var s0 := Abs();
      startedAny := false;
      bad, lockedAny, settledAny := ScanRounds(w);
      ghost var s1 := Abs();
      if !bad && w.now >= RoundAt(currentEpoch).lockTimestamp {
        NextIsPending(s1, w.now);
        startedAny := OpenNext(w);
        bad := !startedAny;
        if !bad { OpeningLocksNothing(s0, s1, Abs(), currentEpoch); }
      }
    }

    method ScanRounds(w: World) returns (bad: bool, lockedAny: bool, settledAny: bool)
      requires Valid(w.now) && currentEpoch > 0 && interval > 0
      modifies this`rounds, this`terms, this`burnAllocated, this`totalLiabilities
      ensures Scan(old(Abs()), w, MarketSpec.OldestUnresolved(old(Abs())), currentEpoch)
              == if bad then Revert(UndecodableAnswer) else Ok(Abs())
      ensures !bad ==> Valid(w.now)
      ensures !bad ==> (lockedAny <==> AnyLocked(old(Abs()), Abs()))
      ensures !bad ==> (settledAny <==> AnySettled(old(Abs()), Abs()))
    {
      hide AnyLocked, AnySettled, SameFrom, WasLocked, WasSettled, ScanTurn, TurnBreaks, InvWithDebt, QuoteIsBad;
      hide MarketSpec.TryLock, MarketSpec.TrySettle, MarketSpec.OldestUnresolved;
      bad, lockedAny, settledAny := false, false, false;
      ghost var s0 := Abs();
      NothingYet(s0);
      var epoch := OldestUnresolved();
      ghost var first := epoch;
      while epoch <= currentEpoch
        invariant Valid(w.now) && first <= epoch
        invariant Scan(s0, w, first, currentEpoch) == Scan(Abs(), w, epoch, currentEpoch)
        invariant SameFrom(s0, Abs(), epoch)
        invariant lockedAny <==> AnyLocked(s0, Abs())
        invariant settledAny <==> AnySettled(s0, Abs())
      {
        ghost var s1 := Abs();
        ScanTurnKeepsInv(s1, w, epoch);
        var locked, settled;
        bad, locked, settled := Turn(w, epoch);
        if bad { return; }
        AfterTurn(s0, s1, Abs(), epoch);
        lockedAny := lockedAny || locked;
        settledAny := settledAny || settled;
        epoch := epoch + 1;
      }
    }

    method Cancellable(w: World, epoch: nat) returns (bad: bool, can: bool)
      ensures bad == CancelBreaks(Abs(), w, epoch) && can == IsCancellable(Abs(), w, epoch)
    {
      var r, t := RoundAt(epoch), TermsAt(epoch);
      if r.status.Open? {
        if w.now <= r.lockTimestamp + bufferSeconds { return false, false; }
        return ProbeIsBad(w, t, r.lockTimestamp), SaysNo(w, t, r.lockTimestamp);
      }
      if r.status.Locked? {
        if w.now <= r.closeTimestamp + bufferSeconds { return false, false; }
        return ProbeIsBad(w, t, r.closeTimestamp), SaysNo(w, t, r.closeTimestamp);
      }
      return false, false;
    }

    method CancelRound(w: World, epoch: nat) returns (error: Option<Error>)
      requires Valid(w.now)
      modifies this
      ensures Valid(w.now) && entered == old(entered)
      ensures Follows(OnCancel(old(Abs()), w, epoch), old(Abs()), Abs(), error)
    {
      var bad, can := Cancellable(w, epoch);
      if bad { return Some(UndecodableAnswer); }
      if !can { return Some(RoundNotCancellable); }
      VoidKeepsInv(Abs(), epoch, w.now);
      rounds := rounds[epoch := RoundAt(epoch).(status := Status.Cancelled)];
      return None;
    }

    method EmergencyCancelRound(w: World, roles: set<Role>, epoch: nat) returns (error: Option<Error>)
      requires Valid(w.now)
      modifies this
      ensures Valid(w.now) && entered == old(entered)
      ensures Follows(OnEmergencyCancel(old(Abs()), w, roles, epoch), old(Abs()), Abs(), error)
    {
      if Pauser !in roles { return Some(Unauthorized); }
      var r := RoundAt(epoch);
      if r.status.Pending? { return Some(RoundNotFound); }
      if r.status.Settled? || r.status.Cancelled? { return Some(RoundNotCancellable); }
      var beforeAnyOutcome := r.status.Open? && w.now < r.lockTimestamp;
      if !beforeAnyOutcome {
        var instant := if r.status.Open? then r.lockTimestamp else r.closeTimestamp;
        if w.now < instant { return Some(RoundNotCancellable); }
        match w.probe(TermsAt(epoch).oracle, instant, TermsAt(epoch).twapWindow) {
          case Yes => return Some(RoundNotCancellable);
          case BadProbe => return Some(UndecodableAnswer);
          case No =>
        }
      }
      VoidKeepsInv(Abs(), epoch, w.now);
      rounds := rounds[epoch := r.(status := Status.Cancelled)];
      return None;
    }

    // ---- claims -----------------------------------------------------------------------

    method Entitled(epoch: nat, account: Address) returns (panics: bool, won: bool, amount: nat)
      ensures match Entitlement(Abs(), epoch, account)
              case None => panics
              case Some(e) => !panics && won == e.won && amount == e.amount
    {
      var bet := BetAt(epoch, account);
      if bet.amount == 0 || bet.claimed { return false, false, 0; }
      var r := RoundAt(epoch);
      if r.status.Cancelled? { return false, false, bet.amount; }
      if !r.status.Settled? { return false, false, 0; }
      var outcome := TermsAt(epoch).outcome;
      if outcome.Tie? || outcome.NoContest? { return false, false, bet.amount; }
      var isWinner := (outcome.Bull? && bet.position.Bull?) || (outcome.Bear? && bet.position.Bear?);
      if !isWinner { return false, false, 0; }
      if r.rewardBaseAmount == 0 { return true, false, 0; }
      return false, true, (bet.amount * r.rewardAmount) / r.rewardBaseAmount;
    }

    /** One turn of the claim loop. */
    method Mark(sender: Address, epoch: nat) returns (error: Option<Error>, amount: nat)
      modifies this`ledger
      ensures match MarkOne(old(Abs()), sender, epoch)
              case Marked(s, n) => error == None && Abs() == s && amount == n
              case Refused(e) => error == Some(e) && Abs() == old(Abs())
    {
      amount := 0;
      var bet := BetAt(epoch, sender);
      if bet.amount == 0 { return Some(NothingToClaim), 0; }
      if bet.claimed { return Some(AlreadyClaimed), 0; }
      var panics, won;
      panics, won, amount := Entitled(epoch, sender);
      if panics { return Some(Panic), 0; }
      if amount == 0 { return Some(NothingToClaim), 0; }
      ledger := ledger[epoch := BookAt(epoch)[sender := bet.(claimed := true)]];
      return None, amount;
    }

    method MarkEach(sender: Address, epochs: seq<nat>) returns (error: Option<Error>, payout: nat)
      modifies this`ledger
      ensures match MarkAll(old(Abs()), sender, epochs)
              case Marked(s, n) => error == None && Abs() == s && payout == n
              case Refused(e) => error == Some(e)
    {
      hide MarkOne;
      ghost var whole := MarkAll(Abs(), sender, epochs);
      payout := 0;
      var i := 0;
      assert epochs[0..] == epochs;
      while i < |epochs|
        invariant i <= |epochs|
        invariant whole == Resume(payout, MarkAll(Abs(), sender, epochs[i..]))
      {
        ghost var s1, paid := Abs(), payout;
        assert epochs[i..][0] == epochs[i] && epochs[i..][1..] == epochs[i + 1..];
        var amount;
        error, amount := Mark(sender, epochs[i]);
        if error.Some? {
          ResumeRefused(s1, sender, epochs[i..], paid, error.value);
          return;
        }
        payout := payout + amount;
        ResumeOne(s1, Abs(), sender, epochs[i..], paid, amount);
        i := i + 1;
      }
      assert epochs[i..] == [];
      error := None;
    }

    /** The storage effects of a claim: marking, then taking the sum off the liabilities. */
    method TakeOff(sender: Address, epochs: seq<nat>) returns (error: Option<Error>, payout: nat)
      requires MarkAll(Abs(), sender, epochs).Marked? ==> ClaimEffects(Abs(), sender, epochs).Ok?
      modifies this`ledger, this`totalLiabilities
      ensures match ClaimEffects(old(Abs()), sender, epochs)
              case Ok(s) => error == None && payout <= balance && Abs().(balance := balance - payout) == s
                            && totalLiabilities + payout == old(totalLiabilities)
              case Revert(e) => error == Some(e) && Abs() == old(Abs())
    {
      ghost var s := Abs();
      if MarkAll(s, sender, epochs).Marked? {
        MarkingOnlyMarks(s, sender, epochs);
      }
      var saved := ledger;
      error, payout := MarkEach(sender, epochs);
      if error.Some? {
        ledger := saved;
      } else {
        totalLiabilities := totalLiabilities - payout;
      }
    }

    /** Every storage effect comes before the one transfer; a claim names each epoch once. */
    method Claim(w: World, sender: Address, epochs: seq<nat>, receiver: Receiver) returns (error: Option<Error>)
      requires Valid(w.now)
      modifies this
      ensures Valid(w.now) && entered == old(entered)
      ensures Follows(if old(entered) then Revert(ReentrantCall)
                      else Deliver(ClaimEffects(old(Abs()), sender, epochs), w.now, receiver),
                      old(Abs()), Abs(), error)
      decreases receiver, 2
    {
      if entered { return Some(ReentrantCall); }
      ghost var s0, s1 := Abs(), ClaimEffects(Abs(), sender, epochs);
      ClaimKeepsInv(s0, sender, epochs, w.now);
      var saved := ledger;
      var payout;
      error, payout := TakeOff(sender, epochs);
      if error.Some? { return; }
      assert Abs().(balance := balance - payout) == s1.state;
      var ok := SendLocked(w.now, payout, receiver);
      if !ok {
        totalLiabilities := totalLiabilities + payout;
        ledger := saved;
        assert Abs() == s0;
        error := Some(TransferFailed);
      }
    }

    method SweepToBurner(w: World, receiver: Receiver) returns (error: Option<Error>)
      requires Valid(w.now)
      modifies this
      ensures Valid(w.now) && entered == old(entered)
      ensures Follows(if old(entered) then Revert(ReentrantCall)
                      else Deliver(SweepEffects(old(Abs())), w.now, receiver),
                      old(Abs()), Abs(), error)
      decreases receiver, 2
    {
      if entered { return Some(ReentrantCall); }
      var amount := burnAllocated;
      if amount == 0 { return Some(BurnSweepOverdraw); }
      SweepKeepsInv(Abs(), w.now);
      ghost var s1 := SweepEffects(Abs());
      burnAllocated := 0;
      assert Abs().(balance := balance - amount) == s1.state;
      var ok := SendLocked(w.now, amount, receiver);
      if !ok {
        burnAllocated := amount;
        return Some(TransferFailed);
      }
      return None;
    }

    /** The transfer under the reentrancy guard. */
    method SendLocked(now: nat, amount: nat, receiver: Receiver) returns (ok: bool)
      requires !entered && amount <= balance
      requires Inv(Abs().(balance := balance - amount), now)
      modifies this
      ensures !entered && ok == receiver.accepts
      ensures ok ==> Valid(now) && Abs() == ReenterAll(old(Abs().(balance := balance - amount)), now, receiver.inner)
      ensures !ok ==> Abs() == old(Abs())
      decreases receiver, 1
    {
      ghost var s := Abs();
      entered := true;
      assert Abs() == s;
      ok := Send(now, amount, receiver);
      ghost var s' := Abs();
      entered := false;
      assert Abs() == s';
    }

    /** The external call. The books balance the moment the ETH is gone, before the receiver runs,
        and again after each call it makes back. */
    method Send(now: nat, amount: nat, receiver: Receiver) returns (ok: bool)
      requires entered && amount <= balance
      requires Inv(Abs().(balance := balance - amount), now)
      modifies this
      ensures entered
      ensures ok == receiver.accepts
      ensures ok ==> Valid(now) && Abs() == ReenterAll(old(Abs().(balance := balance - amount)), now, receiver.inner)
      ensures !ok ==> Abs() == old(Abs())
      decreases receiver, 0
    {
      if !receiver.accepts { return false; }
      balance := balance - amount;
      ghost var s0 := Abs();
      var i := 0;
      while i < |receiver.inner|
        invariant i <= |receiver.inner| && entered && Valid(now)
        invariant ReenterAll(s0, now, receiver.inner) == ReenterAll(Abs(), now, receiver.inner[i..])
      {
        assert receiver.inner[i..][0] == receiver.inner[i];
        assert receiver.inner[i..][1..] == receiver.inner[i + 1..];
        var _ := Dispatch(now, receiver.inner[i]);
        i := i + 1;
      }
      assert receiver.inner[i..] == [];
      return true;
    }

    /** Any call made from inside a transfer, in the same block: the guarded ones bounce. */
    method Dispatch(now: nat, tx: Tx) returns (error: Option<Error>)
      requires Valid(now) && entered
      modifies this
      ensures Valid(now) && entered
      ensures Abs() == Reenter(old(Abs()), now, tx)
      decreases tx, 1
    {
      if Guarded(tx.call) {
        error := Bounce(now, tx);
      } else if IsConfiguration(tx.call) {
        error := Configure(tx.world.(now := now), tx.roles, tx.call);
      } else {
        error := Lifecycle(now, tx);
      }
    }

    method Bounce(now: nat, tx: Tx) returns (error: Option<Error>)
      requires Valid(now) && entered && Guarded(tx.call)
      modifies this
      ensures Valid(now) && entered && error.Some? && Abs() == old(Abs())
      decreases tx, 0
    {
      var w := tx.world.(now := now);
      match tx.call {
        case Enter(epoch, position, amount) =>
          error := Enter(w, tx.sender, epoch, position, amount);
        case Claim(epochs, receiver) =>
          error := Claim(w, tx.sender, epochs, receiver);
        case SweepToBurner(receiver) =>
          error := SweepToBurner(w, receiver);
      }
    }

    method Lifecycle(now: nat, tx: Tx) returns (error: Option<Error>)
      requires Valid(now) && !Guarded(tx.call) && !IsConfiguration(tx.call)
      modifies this
      ensures Valid(now) && entered == old(entered)
      ensures Follows(ApplyUnguarded(old(Abs()), tx.(world := tx.world.(now := now))), old(Abs()), Abs(), error)
    {
      var w := tx.world.(now := now);
      match tx.call {
        case GenesisStartRound => error := GenesisStartRound(w, tx.roles);
        case ExecuteRound =>
          var locked, settled, started;
          error, locked, settled, started := ExecuteRound(w);
        case StartNextRound => error := StartNextRound(w);
        case LockRound(epoch) => error := LockRound(w, epoch);
        case SettleRound(epoch) => error := SettleRound(w, epoch);
        case CancelRound(epoch) => error := CancelRound(w, epoch);
        case EmergencyCancelRound(epoch) => error := EmergencyCancelRound(w, tx.roles, epoch);
        case ForceEther(amount) =>
          ForceEther(now, amount);
          error := None;
      }
    }

    /** ETH that arrives by selfdestruct: no code of the contract runs. */
    method ForceEther(ghost now: nat, amount: nat)
      requires Valid(now)
      modifies this`balance, this`forced
      ensures Valid(now)
      ensures balance == old(balance) + amount && forced == old(forced) + amount
    {
      ghost var s := Abs();
      balance := balance + amount;
      forced := forced + amount;
      SameBooks(s, Abs(), now);
    }

    // ---- configuration ----------------------------------------------------------------

    method PausePrediction(w: World, roles: set<Role>) returns (error: Option<Error>)
      requires Valid(w.now)
      modifies this
      ensures Valid(w.now) && entered == old(entered)
      ensures Follows(MarketSpec.Configure(old(Abs()), w, roles, Call.Pause), old(Abs()), Abs(), error)
    {
      if Pauser !in roles { return Some(Unauthorized); }
      ghost var s := Abs();
      if paused { return Some(EnforcedPause); }
      paused := true;
      ConfigureKeepsInv(s, w, roles, Call.Pause);
      return None;
    }

    method UnpausePrediction(w: World, roles: set<Role>) returns (error: Option<Error>)
      requires Valid(w.now)
      modifies this
      ensures Valid(w.now) && entered == old(entered)
      ensures Follows(MarketSpec.Configure(old(Abs()), w, roles, Call.Unpause), old(Abs()), Abs(), error)
    {
      if Pauser !in roles { return Some(Unauthorized); }
      ghost var s := Abs();
      if !paused { return Some(ExpectedPause); }
      paused := false;
      ConfigureKeepsInv(s, w, roles, Call.Unpause);
      return None;
    }

    method SetBurner(w: World, roles: set<Role>, next: Address) returns (error: Option<Error>)
      requires Valid(w.now)
      modifies this
      ensures Valid(w.now) && entered == old(entered)
      ensures Follows(MarketSpec.Configure(old(Abs()), w, roles, Call.SetBurner(next)), old(Abs()), Abs(), error)
    {
      if Admin !in roles { return Some(Unauthorized); }
      ghost var s := Abs();
      if next == 0 { return Some(ZeroAddress); }
      burner := next;
      ConfigureKeepsInv(s, w, roles, Call.SetBurner(next));
      return None;
    }

    method ProposeBurnFee(w: World, roles: set<Role>, bps: nat) returns (error: Option<Error>)
      requires Valid(w.now)
      modifies this
      ensures Valid(w.now) && entered == old(entered)
      ensures Follows(MarketSpec.Configure(old(Abs()), w, roles, Call.ProposeBurnFee(bps)), old(Abs()), Abs(), error)
    {
      if Config !in roles { return Some(Unauthorized); }
      ghost var s := Abs();
      if bps > MAX_BURN_FEE_BPS { return Some(FeeTooHigh); }
      pendingFeeBps := bps;
      pendingFeeReadyAt := w.now + CONFIG_TIMELOCK;
      ConfigureKeepsInv(s, w, roles, Call.ProposeBurnFee(bps));
      return None;
    }

    method CommitBurnFee(w: World, roles: set<Role>) returns (error: Option<Error>)
      requires Valid(w.now)
      modifies this
      ensures Valid(w.now) && entered == old(entered)
      ensures Follows(MarketSpec.Configure(old(Abs()), w, roles, Call.CommitBurnFee), old(Abs()), Abs(), error)
    {
      if Config !in roles { return Some(Unauthorized); }
      ghost var s := Abs();
      if pendingFeeReadyAt == 0 { return Some(NoPendingChange); }
      if w.now < pendingFeeReadyAt { return Some(TimelockNotElapsed); }
      burnFeeBps := pendingFeeBps;
      pendingFeeReadyAt := 0;
      ConfigureKeepsInv(s, w, roles, Call.CommitBurnFee);
      return None;
    }

    method CancelPendingFee(w: World, roles: set<Role>) returns (error: Option<Error>)
      requires Valid(w.now)
      modifies this
      ensures Valid(w.now) && entered == old(entered)
      ensures Follows(MarketSpec.Configure(old(Abs()), w, roles, Call.CancelPendingFee), old(Abs()), Abs(), error)
    {
      if Config !in roles { return Some(Unauthorized); }
      ghost var s := Abs();
      pendingFeeReadyAt := 0;
      ConfigureKeepsInv(s, w, roles, Call.CancelPendingFee);
      return None;
    }

    method ProposeOracle(w: World, roles: set<Role>, next: Address) returns (error: Option<Error>)
      requires Valid(w.now)
      modifies this
      ensures Valid(w.now) && entered == old(entered)
      ensures Follows(MarketSpec.Configure(old(Abs()), w, roles, Call.ProposeOracle(next)), old(Abs()), Abs(), error)
    {
      if Config !in roles { return Some(Unauthorized); }
      ghost var s := Abs();
      if next == 0 { return Some(ZeroAddress); }
      if !w.version(next).Version? { return Some(OracleReverted); }
      pendingOracle := next;
      pendingOracleReadyAt := w.now + CONFIG_TIMELOCK;
      ConfigureKeepsInv(s, w, roles, Call.ProposeOracle(next));
      return None;
    }

    method CommitOracle(w: World, roles: set<Role>) returns (error: Option<Error>)
      requires Valid(w.now)
      modifies this
      ensures Valid(w.now) && entered == old(entered)
      ensures Follows(MarketSpec.Configure(old(Abs()), w, roles, Call.CommitOracle), old(Abs()), Abs(), error)
    {
      if Config !in roles { return Some(Unauthorized); }
      ghost var s := Abs();
      if pendingOracleReadyAt == 0 { return Some(NoPendingChange); }
      if w.now < pendingOracleReadyAt { return Some(TimelockNotElapsed); }
      if w.version(pendingOracle).BadVersion? { return Some(UndecodableAnswer); }
      oracle := pendingOracle;
      pendingOracleReadyAt := 0;
      ConfigureKeepsInv(s, w, roles, Call.CommitOracle);
      return None;
    }

    method CancelPendingOracle(w: World, roles: set<Role>) returns (error: Option<Error>)
      requires Valid(w.now)
      modifies this
      ensures Valid(w.now) && entered == old(entered)
      ensures Follows(MarketSpec.Configure(old(Abs()), w, roles, Call.CancelPendingOracle), old(Abs()), Abs(), error)
    {
      if Config !in roles { return Some(Unauthorized); }
      ghost var s := Abs();
      pendingOracleReadyAt := 0;
      ConfigureKeepsInv(s, w, roles, Call.CancelPendingOracle);
      return None;
    }

    method SetInterval(w: World, roles: set<Role>, next: nat) returns (error: Option<Error>)
      requires Valid(w.now)
      modifies this
      ensures Valid(w.now) && entered == old(entered)
      ensures Follows(MarketSpec.Configure(old(Abs()), w, roles, Call.SetInterval(next)), old(Abs()), Abs(), error)
    {
      if Config !in roles { return Some(Unauthorized); }
      ghost var s := Abs();
      if next < MIN_INTERVAL || next > MAX_INTERVAL { return Some(OutOfBounds); }
      if 3 + bufferSeconds / next > MAX_SCAN_ROUNDS { return Some(ToleranceExceedsScanWindow); }
      interval := next;
      ConfigureKeepsInv(s, w, roles, Call.SetInterval(next));
      return None;
    }

    method SetTwapWindow(w: World, roles: set<Role>, next: nat) returns (error: Option<Error>)
      requires Valid(w.now)
      modifies this
      ensures Valid(w.now) && entered == old(entered)
      ensures Follows(MarketSpec.Configure(old(Abs()), w, roles, Call.SetTwapWindow(next)), old(Abs()), Abs(), error)
    {
      if Config !in roles { return Some(Unauthorized); }
      ghost var s := Abs();
      if next < MIN_TWAP_WINDOW || next > MAX_TWAP_WINDOW { return Some(OutOfBounds); }
      twapWindow := next;
      ConfigureKeepsInv(s, w, roles, Call.SetTwapWindow(next));
      return None;
    }

    method SetBufferSeconds(w: World, roles: set<Role>, next: nat) returns (error: Option<Error>)
      requires Valid(w.now)
      modifies this
      ensures Valid(w.now) && entered == old(entered)
      ensures Follows(MarketSpec.Configure(old(Abs()), w, roles, Call.SetBufferSeconds(next)), old(Abs()), Abs(), error)
    {
      if Config !in roles { return Some(Unauthorized); }
      ghost var s := Abs();
      if next < MIN_BUFFER_SECONDS || next > MAX_BUFFER_SECONDS { return Some(OutOfBounds); }
      if 3 + next / interval > MAX_SCAN_ROUNDS { return Some(ToleranceExceedsScanWindow); }
      bufferSeconds := next;
      ConfigureKeepsInv(s, w, roles, Call.SetBufferSeconds(next));
      return None;
    }

    method SetMinimumBet(w: World, roles: set<Role>, next: nat) returns (error: Option<Error>)
      requires Valid(w.now)
      modifies this
      ensures Valid(w.now) && entered == old(entered)
      ensures Follows(MarketSpec.Configure(old(Abs()), w, roles, Call.SetMinimumBet(next)), old(Abs()), Abs(), error)
    {
      if Config !in roles { return Some(Unauthorized); }
      ghost var s := Abs();
      if maximumBet != 0 && next > maximumBet { return Some(InvalidBetLimits); }
      minimumBet := next;
      ConfigureKeepsInv(s, w, roles, Call.SetMinimumBet(next));
      return None;
    }

    method SetMaximumBet(w: World, roles: set<Role>, next: nat) returns (error: Option<Error>)
      requires Valid(w.now)
      modifies this
      ensures Valid(w.now) && entered == old(entered)
      ensures Follows(MarketSpec.Configure(old(Abs()), w, roles, Call.SetMaximumBet(next)), old(Abs()), Abs(), error)
    {
      if Config !in roles { return Some(Unauthorized); }
      ghost var s := Abs();
      if next != 0 && next < minimumBet { return Some(InvalidBetLimits); }
      maximumBet := next;
      ConfigureKeepsInv(s, w, roles, Call.SetMaximumBet(next));
      return None;
    }

    method SetMaximumRoundPool(w: World, roles: set<Role>, next: nat) returns (error: Option<Error>)
      requires Valid(w.now)
      modifies this
      ensures Valid(w.now) && entered == old(entered)
      ensures Follows(MarketSpec.Configure(old(Abs()), w, roles, Call.SetMaximumRoundPool(next)), old(Abs()), Abs(),
                      error)
    {
      if Config !in roles { return Some(Unauthorized); }
      ghost var s := Abs();
      maximumRoundPool := next;
      ConfigureKeepsInv(s, w, roles, Call.SetMaximumRoundPool(next));
      return None;
    }

    method Configure(w: World, roles: set<Role>, call: Call) returns (error: Option<Error>)
      requires Valid(w.now) && IsConfiguration(call)
      modifies this
      ensures Valid(w.now) && entered == old(entered)
      ensures Follows(MarketSpec.Configure(old(Abs()), w, roles, call), old(Abs()), Abs(), error)
    {
      match call {
        case Pause => error := PausePrediction(w, roles);
        case Unpause => error := UnpausePrediction(w, roles);
        case SetBurner(next) => error := SetBurner(w, roles, next);
        case ProposeBurnFee(bps) => error := ProposeBurnFee(w, roles, bps);
        case CommitBurnFee => error := CommitBurnFee(w, roles);
        case CancelPendingFee => error := CancelPendingFee(w, roles);
        case ProposeOracle(next) => error := ProposeOracle(w, roles, next);
        case CommitOracle => error := CommitOracle(w, roles);
        case CancelPendingOracle => error := CancelPendingOracle(w, roles);
        case SetInterval(next) => error := SetInterval(w, roles, next);
        case SetTwapWindow(next) => error := SetTwapWindow(w, roles, next);
        case SetBufferSeconds(next) => error := SetBufferSeconds(w, roles, next);
        case SetMinimumBet(next) => error := SetMinimumBet(w, roles, next);
        case SetMaximumBet(next) => error := SetMaximumBet(w, roles, next);
        case SetMaximumRoundPool(next) => error := SetMaximumRoundPool(w, roles, next);
      }
    }

    // ---- views ------------------------------------------------------------------------

    method PhaseOf(w: World, epoch: nat) returns (phase: Option<Phase>)
      ensures phase == MarketSpec.PhaseOf(Abs(), w, epoch)
    {
      var r := RoundAt(epoch);
      if r.status.Pending? { return Some(Phase.Pending); }
      if r.status.Cancelled? { return Some(Phase.Cancelled); }
      if r.status.Settled? { return Some(Phase.Settled); }
      var bad, cancellable := Cancellable(w, epoch);
      if bad { return None; }
      if cancellable { return Some(Phase.Cancellable); }
      if r.status.Open? {
        return Some(if w.now < r.lockTimestamp then Phase.Open else Phase.AwaitingLock);
      }
      return Some(if w.now < r.closeTimestamp then Phase.Live else Phase.AwaitingSettle);
    }

    /** The branches of the work scan for one epoch. */
    method WorkAt(w: World, epoch: nat) returns (bad: bool, work: Work)
      ensures bad == WorkBreaks(Abs(), w, epoch)
      ensures !bad ==> work == WorkFor(Abs(), w, epoch)
    {
      var r, t := RoundAt(epoch), TermsAt(epoch);
      work := Work.Nothing;
      var canCancel;
      bad, canCancel := Cancellable(w, epoch);
      if bad { return; }
      if canCancel { return false, Work.Cancel; }
      if r.status.Open? && w.now >= r.lockTimestamp {
        bad := ProbeIsBad(w, t, r.lockTimestamp);
        if ProbeOf(w, t, r.lockTimestamp) { work := Work.Lock; }
      } else if r.status.Locked? && w.now >= r.closeTimestamp {
        bad := ProbeIsBad(w, t, r.closeTimestamp);
        if ProbeOf(w, t, r.closeTimestamp) { work := Work.Settle; }
      }
    }

    /** Three arrays as long as the scan window, filled side by side and trimmed. */
    method CollectWork(w: World, first: nat)
      returns (bad: bool, lockable: seq<nat>, settleable: seq<nat>, cancellable: seq<nat>)
      requires first <= currentEpoch
      ensures bad <==> exists e | first <= e <= currentEpoch :: WorkBreaks(Abs(), w, e)
      ensures !bad ==> lockable == WorkList(Abs(), w, Work.Lock, first, currentEpoch + 1)
      ensures !bad ==> settleable == WorkList(Abs(), w, Work.Settle, first, currentEpoch + 1)
      ensures !bad ==> cancellable == WorkList(Abs(), w, Work.Cancel, first, currentEpoch + 1)
    {
      hide WorkFor, WorkBreaks, WorkList;
      ghost var m, head := Abs(), currentEpoch;
      var span := currentEpoch - first + 1;
      var l, s, c := new nat[span], new nat[span], new nat[span];
      var li, si, ci := 0, 0, 0;
      NoWorkYet(m, w, first);
      var epoch := first;
      while epoch <= currentEpoch
        invariant currentEpoch == head && Abs() == m
        invariant first <= epoch <= head + 1
        invariant li <= epoch - first && si <= epoch - first && ci <= epoch - first
        invariant forall e | first <= e < epoch :: !WorkBreaks(m, w, e)
        invariant l[..li] == WorkList(m, w, Work.Lock, first, epoch)
        invariant s[..si] == WorkList(m, w, Work.Settle, first, epoch)
        invariant c[..ci] == WorkList(m, w, Work.Cancel, first, epoch)
      {
        var work;
        bad, work := WorkAt(w, epoch);
        if bad { return true, [], [], []; }
        WorkListGrows(m, w, first, epoch, work);
        match work {
          case Cancel => c[ci] := epoch; ci := ci + 1;
          case Lock => l[li] := epoch; li := li + 1;
          case Settle => s[si] := epoch; si := si + 1;
          case Nothing =>
        }
        epoch := epoch + 1;
      }
      return false, l[..li], s[..si], c[..ci];
    }

    /** Everything a keeper could do now, over the same window the contract itself scans; it fails when the
        probe of a due round there does not decode. */
    method PendingWork(w: World)
      returns (bad: bool, lockable: seq<nat>, settleable: seq<nat>, cancellable: seq<nat>, canStartNext: bool)
      requires Valid(w.now)
      ensures currentEpoch == 0 ==> !bad && lockable == [] && settleable == [] && cancellable == [] && !canStartNext
      ensures interval > 0
      ensures var first, end := MarketSpec.OldestUnresolved(Abs()), currentEpoch + 1;
        currentEpoch > 0 ==>
          && (bad <==> exists e | first <= e < end :: WorkBreaks(Abs(), w, e))
          && (!bad ==> lockable == WorkList(Abs(), w, Work.Lock, first, end))
          && (!bad ==> settleable == WorkList(Abs(), w, Work.Settle, first, end))
          && (!bad ==> cancellable == WorkList(Abs(), w, Work.Cancel, first, end))
          && (!bad ==> (canStartNext <==> w.now >= RoundAt(currentEpoch).lockTimestamp))
          && (!bad ==> (canStartNext && !CreateBreaks(Abs(), w) <==> OnStartNext(Abs().(paused := false), w).Ok?))
    {
      if currentEpoch == 0 { return false, [], [], [], false; }
      hide WorkFor, WorkBreaks;
      var first := OldestUnresolved();
      bad, lockable, settleable, cancellable := CollectWork(w, first);
      assert EpochsOk(Abs());
      canStartNext := w.now >= RoundAt(currentEpoch).lockTimestamp && RoundAt(currentEpoch + 1).status.Pending?;
    }

    method Solvency(ghost now: nat) returns (held: nat, owed: nat, solvent: bool)
      requires Valid(now)
      ensures held == balance && owed == OwedUpTo(Abs(), currentEpoch) + burnAllocated
      ensures solvent
    {
      held := balance;
      owed := totalLiabilities + burnAllocated;
      solvent := held >= owed;
    }
  }
}
