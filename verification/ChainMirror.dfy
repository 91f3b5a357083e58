/** The indexer's tables against the contract's storage: every run's logs are well formed, and indexing
    them rebuilds the contract's rounds, bets and payouts exactly. */
module ChainMirror {
  import opened Util
  import opened MarketTypes
  import opened MarketSpec
  import opened MarketInvariant
  import History = MarketHistory
  import Pricing = MarketPricing
  import Ledger
  import R = ReadModel
  import Replay
  import Indexer

  // ---- what the contract emits --------------------------------------------------------

  function OutcomeCode(outcome: Outcome): nat {
    match outcome
    case Undecided => 0 case Bull => 1 case Bear => 2 case Tie => 3 case NoContest => 4 case AllLost => 5
  }

  function ScheduleOf(r: Round): R.Schedule {
    R.Schedule(r.startTimestamp, r.lockTimestamp, r.closeTimestamp)
  }

  function Opened(s: State, epoch: nat): R.Event {
    R.RoundStarted(epoch, ScheduleOf(s.RoundOf(epoch)))
  }

  function LockedEvent(s: State, epoch: nat): R.Event {
    var r, t := s.RoundOf(epoch), s.TermsOf(epoch);
    R.RoundLocked(epoch, r.lockPrice, t.lockTick, r.lockTimestamp, t.lockedAt)
  }

  function SettledEvent(s: State, epoch: nat, fee: nat): R.Event {
    var r, t := s.RoundOf(epoch), s.TermsOf(epoch);
    R.RoundSettled(epoch, r.closePrice, t.closeTick, t.settledAt, OutcomeCode(t.outcome), r.rewardBaseAmount,
                   r.rewardAmount, fee)
  }

  function CancelReason(s: State, w: World, call: Call, epoch: nat): nat {
    if call.CancelRound? then (if s.RoundOf(epoch).status.Open? then 1 else 2)
    else if s.RoundOf(epoch).status.Open? && w.now < s.RoundOf(epoch).lockTimestamp then 3
    else 4
  }

  function KindOf(e: Entitled): R.PaidKind {
    if e.won then R.Claim else R.Refund
  }

  /** One event for each epoch of a claim, winnings or refund, in order. */
  function PaidEvents(s: State, sender: Address, epochs: seq<nat>): seq<R.Event>
    decreases |epochs|
  {
    if epochs == [] then []
    else
      match (MarkOne(s, sender, epochs[0]), Entitlement(s, epochs[0], sender))
      case (Marked(s1, amount), Some(e)) =>
        [R.Paid(epochs[0], sender, KindOf(e), amount)] + PaidEvents(s1, sender, epochs[1..])
      case _ => []
  }

  function ConfigEvent(call: Call): R.Event {
    if call.CancelPendingFee? || call.CancelPendingOracle? then R.Unhandled(0) else R.Configured(0, [])
  }

  /** The logs of one plain call other than the execute wrapper; a revert emits nothing. */
  function EmitOne(s: State, tx: Tx): seq<R.Event> {
    match Apply(s, tx)
    case Revert(_) => []
    case Ok(s') =>
      if IsConfiguration(tx.call) then [ConfigEvent(tx.call)]
      else match tx.call
        case Enter(epoch, position, amount) => [R.BetPlaced(epoch, tx.sender, position.Bull?, amount)]
        case GenesisStartRound => [Opened(s', 1)]
        case StartNextRound => if s'.currentEpoch > s.currentEpoch then [Opened(s', s'.currentEpoch)] else []
        case LockRound(epoch) => [LockedEvent(s', epoch)]
        case SettleRound(epoch) =>
          [SettledEvent(s', epoch,
                        if s'.burnAllocated >= s.burnAllocated then s'.burnAllocated - s.burnAllocated else 0)]
        case CancelRound(epoch) => [R.RoundCancelled(epoch, CancelReason(s, tx.world, tx.call, epoch))]
        case EmergencyCancelRound(epoch) => [R.RoundCancelled(epoch, CancelReason(s, tx.world, tx.call, epoch))]
        case Claim(epochs, _) => PaidEvents(s, tx.sender, epochs)
        case SweepToBurner(_) => [R.BurnSwept(s.burner, s.burnAllocated)]
        case _ => []
  }

  /** What the logs of the calls that price or void a round say beside the values stored: the instant a lock
      price is for, what a settlement burned, and why a round was cancelled. */
  lemma LogsExactly(s: State, tx: Tx)
    requires Inv(s, tx.world.now) && Apply(s, tx).Ok?
    ensures tx.call.LockRound? ==>
      EmitOne(s, tx) == [R.RoundLocked(tx.call.epoch, Step(s, tx).RoundOf(tx.call.epoch).lockPrice,
                                       Step(s, tx).TermsOf(tx.call.epoch).lockTick,
                                       s.RoundOf(tx.call.epoch).lockTimestamp, tx.world.now)]
    ensures tx.call.SettleRound? ==>
      && |EmitOne(s, tx)| == 1 && EmitOne(s, tx)[0].RoundSettled?
      && EmitOne(s, tx)[0].burnFee == Step(s, tx).burnAllocated - s.burnAllocated
    ensures tx.call.CancelRound? ==>
      EmitOne(s, tx) == [R.RoundCancelled(tx.call.epoch, if s.RoundOf(tx.call.epoch).status.Open? then 1 else 2)]
    ensures tx.call.EmergencyCancelRound? ==>
      var r := s.RoundOf(tx.call.epoch);
      EmitOne(s, tx) == [R.RoundCancelled(tx.call.epoch,
                                          if tx.world.now < r.lockTimestamp then 3 else 4)]
  {
    hide Resolve;
    if tx.call.SettleRound? {
      SettledFee(s, tx.world, Step(s, tx), tx.call.epoch);
    } else if tx.call.EmergencyCancelRound? {
      assert RoundAtOk(s, tx.call.epoch, tx.world.now);
    }
  }

  function EmitEach(s: State, txs: seq<Tx>): seq<R.Event>
    decreases |txs|
  {
    if txs == [] then [] else EmitOne(s, txs[0]) + EmitEach(Step(s, txs[0]), txs[1..])
  }

  /** The wrapper emits what the calls it stands for would emit. */
  function EmitFlat(s: State, tx: Tx): seq<R.Event> {
    if tx.call.ExecuteRound? && OnExecute(s, tx.world).Ok? then
      EmitEach(s, Pricing.ScanCalls(tx.sender, tx.world, OldestUnresolved(s), s.currentEpoch)
                  + [Tx(tx.sender, {}, tx.world, StartNextRound)])
    else EmitOne(s, tx)
  }

  function EmitFlats(s: State, txs: seq<Tx>): seq<R.Event>
    decreases |txs|
  {
    if txs == [] then [] else EmitFlat(s, txs[0]) + EmitFlats(Step(s, txs[0]), txs[1..])
  }

  /** A call whose receiver calls back emits its own logs first, then theirs. */
  function EmitRun(s: State, txs: seq<Tx>): seq<R.Event>
    decreases |txs|
  {
    if txs == [] then [] else EmitFlats(s, History.CallsOf(s, txs[0])) + EmitRun(Step(s, txs[0]), txs[1..])
  }

  // ---- the mirror ---------------------------------------------------------------------

  function StatusName(status: Status): R.Status {
    match status
    case Locked => R.Status.Locked case Settled => R.Status.Settled case Cancelled => R.Status.Cancelled
    case _ => R.Status.Open
  }

  function NameOf(outcome: Outcome): R.OutcomeName {
    match outcome
    case Undecided => R.Undecided case Bull => R.Bull case Bear => R.Bear case Tie => R.Tie
    case NoContest => R.NoContest case AllLost => R.AllLost
  }

  /** The reason a round was cancelled for agrees with whether it had been locked. */
  predicate ReasonFits(reason: nat, locked: bool) {
    1 <= reason <= 4 && (reason == 1 || reason == 3 ==> !locked) && (reason == 2 ==> locked)
  }

  /** A round's row holds the round's schedule, prices, outcome, rewards and fee. */
  predicate RoundMirror(r: Round, t: Terms, row: R.RoundRow) {
    && row.schedule == ScheduleOf(r)
    && row.status == StatusName(r.status)
    && (r.status.Open? ==> row.locked.None?)
    && (r.status.Locked? || r.status.Settled? ==> row.locked.Some?)
    && (row.locked.Some? ==> row.locked.value == R.LockPart(r.lockPrice, t.lockTick, t.lockedAt))
    && (r.status.Settled? <==> row.settled.Some?)
    && (r.status.Settled? ==>
          && row.settled.value.price == r.closePrice && row.settled.value.tick == t.closeTick
          && row.settled.value.at == t.settledAt
          && row.settled.value.rewardBase == r.rewardBaseAmount && row.settled.value.rewardAmount == r.rewardAmount
          && row.settled.value.burnFee == Pricing.Recorded(r, t).fee)
    && (r.status.Cancelled? <==> row.cancelReason.Some?)
    && (r.status.Cancelled? ==> ReasonFits(row.cancelReason.value, row.locked.Some?))
    && row.outcome == (if r.status.Settled? then Some(NameOf(t.outcome))
                       else if r.status.Cancelled? then Some(R.Void) else None)
  }

  ghost predicate RoundsMirror(s: State, rounds: R.Rounds) {
    && (forall e :: e in rounds <==> e in s.rounds)
    && (forall e | e in rounds :: RoundMirror(s.RoundOf(e), s.TermsOf(e), rounds[e]))
  }

  predicate BetMirror(b: Bet, row: R.BetRow) {
    row.main.bull == b.position.Bull? && row.main.amount == b.amount
  }

  ghost predicate BetsMirror(s: State, bets: R.Bets) {
    && (forall e, a :: R.BetKey(e, a) in bets <==> a in s.BookOf(e))
    && (forall e, a | R.BetKey(e, a) in bets :: BetMirror(s.BookOf(e)[a], bets[R.BetKey(e, a)]))
  }

  /** What a claimed entry was paid. */
  function PaidFor(s: State, e: nat, a: Address): Option<Entitled> {
    EntitlementOf(s.RoundOf(e), s.TermsOf(e).outcome, s.BetOf(e, a).(claimed := false))
  }

  ghost predicate ClaimMirror(s: State, claims: R.Claims, e: nat, a: Address, kind: R.PaidKind) {
    && (R.ClaimKey(e, a, kind) in claims <==>
          s.BetOf(e, a).claimed && PaidFor(s, e, a).Some? && kind == KindOf(PaidFor(s, e, a).value))
    && (R.ClaimKey(e, a, kind) in claims ==>
          claims[R.ClaimKey(e, a, kind)].main.amount == PaidFor(s, e, a).value.amount)
  }

  ghost predicate ClaimsMirror(s: State, claims: R.Claims) {
    forall e, a, kind :: ClaimMirror(s, claims, e, a, kind)
  }

  ghost predicate Mirrors(s: State, t: R.Tables) {
    RoundsMirror(s, t.rounds) && BetsMirror(s, t.bets) && ClaimsMirror(s, t.claims)
  }

  // ---- one log ------------------------------------------------------------------------

  predicate RoundLog(event: R.Event) {
    event.RoundStarted? || event.RoundLocked? || event.RoundSettled? || event.RoundCancelled?
  }

  lemma RoundLogApplies(t: R.Tables, log: R.Log)
    requires RoundLog(log.event)
    ensures var t' := R.Apply(t, log);
      t'.rounds == R.StepRounds(t.rounds, log.event) && t'.bets == t.bets && t'.claims == t.claims
  {
  }

  predicate OneRoundChanged(s: State, s': State, epoch: nat) {
    && s'.ledger == s.ledger
    && s'.rounds == s.rounds[epoch := s'.RoundOf(epoch)]
    && s'.terms == s.terms[epoch := s'.TermsOf(epoch)]
  }

  lemma RoundsStep(s: State, s': State, rounds: R.Rounds, event: R.Event, epoch: nat)
    requires RoundsMirror(s, rounds) && R.RoundEpoch(event) == Some(epoch) && OneRoundChanged(s, s', epoch)
    requires var row := R.RoundStep(R.Get(rounds, epoch), event, epoch);
      row.Some? && RoundMirror(s'.RoundOf(epoch), s'.TermsOf(epoch), row.value)
    ensures RoundsMirror(s', R.StepRounds(rounds, event))
  {
    hide RoundMirror, R.RoundStep;
    var rounds' := R.StepRounds(rounds, event);
    forall e | e in rounds'
      ensures RoundMirror(s'.RoundOf(e), s'.TermsOf(e), rounds'[e])
    {
      if e != epoch {
        assert RoundMirror(s.RoundOf(e), s.TermsOf(e), rounds[e]);
      }
    }
  }

  lemma ClaimsStand(s: State, s': State, claims: R.Claims, epoch: nat)
    requires ClaimsMirror(s, claims) && OneRoundChanged(s, s', epoch) && NoneClaimed(s.BookOf(epoch))
    ensures ClaimsMirror(s', claims)
  {
    hide EntitlementOf;
    forall e, a, kind
      ensures ClaimMirror(s', claims, e, a, kind)
    {
      assert ClaimMirror(s, claims, e, a, kind);
      if e == epoch {
        assert !s.BetOf(e, a).claimed;
      }
    }
  }

  lemma BetsStand(s: State, s': State, bets: R.Bets)
    requires BetsMirror(s, bets) && s'.ledger == s.ledger
    ensures BetsMirror(s', bets)
  {
    assert forall e :: s'.BookOf(e) == s.BookOf(e);
  }

  /** A call that rewrites one round, and not its ledger, beside the log that says so. */
  lemma OneRoundMirrors(s: State, s': State, t: R.Tables, log: R.Log, epoch: nat)
    requires Mirrors(s, t) && RoundLog(log.event) && R.RoundEpoch(log.event) == Some(epoch)
    requires OneRoundChanged(s, s', epoch) && NoneClaimed(s.BookOf(epoch))
    requires var row := R.RoundStep(R.Get(t.rounds, epoch), log.event, epoch);
      row.Some? && RoundMirror(s'.RoundOf(epoch), s'.TermsOf(epoch), row.value)
    ensures Mirrors(s', R.Apply(t, log))
  {
    hide RoundsMirror, BetsMirror, ClaimsMirror, R.RoundStep, RoundMirror;
    RoundLogApplies(t, log);
    RoundsStep(s, s', t.rounds, log.event, epoch);
    BetsStand(s, s', t.bets);
    ClaimsStand(s, s', t.claims, epoch);
  }

  // ---- one plain call -----------------------------------------------------------------

  lemma CreateMirrors(s: State, w: World, now: nat, s': State, t: R.Tables, log: R.Log, epoch: nat, start: nat,
                      lock: nat, close: nat)
    requires Inv(s, now) && Mirrors(s, t) && epoch == s.currentEpoch + 1
    requires s' == CreateRound(s, w, epoch, start, lock, close).(currentEpoch := epoch)
    requires log.event == Opened(s', epoch)
    ensures Mirrors(s', R.Apply(t, log))
  {
    assert EpochsOk(s);
    assert s.RoundOf(epoch) == EmptyRound && s.TermsOf(epoch) == EmptyTerms && s.BookOf(epoch) == map[];
    assert epoch !in t.rounds;
    OneRoundMirrors(s, s', t, log, epoch);
  }

  lemma LockMirrors(s: State, w: World, s': State, t: R.Tables, log: R.Log, epoch: nat)
    requires Inv(s, w.now) && Mirrors(s, t) && OnLock(s, w, epoch) == Ok(s')
    requires log.event == LockedEvent(s', epoch)
    ensures Mirrors(s', R.Apply(t, log))
  {
    hide R.Apply;
    assert RoundAtOk(s, epoch, w.now);
    assert RoundMirror(s.RoundOf(epoch), s.TermsOf(epoch), t.rounds[epoch]);
    OneRoundMirrors(s, s', t, log, epoch);
  }

  /** What settlement adds to the burn allocation is the fee that can be read back from the round. */
  lemma SettledFee(s: State, w: World, s': State, epoch: nat)
    requires Inv(s, w.now) && OnSettle(s, w, epoch) == Ok(s')
    ensures s'.burnAllocated == s.burnAllocated + Pricing.Recorded(s'.RoundOf(epoch), s'.TermsOf(epoch)).fee
  {
    assert RoundAtOk(s, epoch, w.now);
    assert s.TermsOf(epoch).outcome.Undecided?;
  }

  lemma SettleMirrors(s: State, w: World, s': State, t: R.Tables, log: R.Log, epoch: nat, fee: nat)
    requires Inv(s, w.now) && Mirrors(s, t) && OnSettle(s, w, epoch) == Ok(s')
    requires log.event == SettledEvent(s', epoch, fee) && s'.burnAllocated == s.burnAllocated + fee
    ensures Mirrors(s', R.Apply(t, log))
  {
    hide R.Apply;
    assert RoundAtOk(s, epoch, w.now);
    SettledFee(s, w, s', epoch);
    assert RoundMirror(s.RoundOf(epoch), s.TermsOf(epoch), t.rounds[epoch]);
    OneRoundMirrors(s, s', t, log, epoch);
  }

  lemma VoidMirrors(s: State, now: nat, t: R.Tables, log: R.Log, epoch: nat, reason: nat)
    requires Inv(s, now) && Mirrors(s, t)
    requires s.RoundOf(epoch).status.Open? || s.RoundOf(epoch).status.Locked?
    requires log.event == R.RoundCancelled(epoch, reason) && ReasonFits(reason, s.RoundOf(epoch).status.Locked?)
    ensures Mirrors(Void(s, epoch), R.Apply(t, log))
  {
    hide R.Apply;
    assert RoundAtOk(s, epoch, now);
    assert RoundMirror(s.RoundOf(epoch), s.TermsOf(epoch), t.rounds[epoch]);
    assert s.terms == s.terms[epoch := s.TermsOf(epoch)];
    OneRoundMirrors(s, Void(s, epoch), t, log, epoch);
  }

  lemma BetRowMirrors(s: State, s': State, bets: R.Bets, log: R.Log, epoch: nat, sender: Address, b: Bet)
    requires BetsMirror(s, bets) && log.event == R.BetPlaced(epoch, sender, b.position.Bull?, b.amount)
    requires s'.ledger == s.ledger[epoch := s.BookOf(epoch)[sender := b]]
    ensures BetsMirror(s', R.BetsAfter(bets, log))
  {
    var bets' := R.BetsAfter(bets, log);
    forall e, a
      ensures R.BetKey(e, a) in bets' <==> a in s'.BookOf(e)
      ensures R.BetKey(e, a) in bets' ==> BetMirror(s'.BookOf(e)[a], bets'[R.BetKey(e, a)])
    {
      if e != epoch || a != sender {
        assert R.BetKey(e, a) in bets <==> a in s.BookOf(e);
      }
    }
  }

  lemma TotalsLeaveRounds(s: State, s': State, rounds: R.Rounds, bets: R.Bets, epoch: nat)
    requires RoundsMirror(s, rounds) && epoch in s.rounds && s'.terms == s.terms
    requires s'.rounds == s.rounds[epoch := s'.RoundOf(epoch)]
    requires forall row :: RoundMirror(s.RoundOf(epoch), s.TermsOf(epoch), row) ==>
      RoundMirror(s'.RoundOf(epoch), s.TermsOf(epoch), row)
    ensures RoundsMirror(s', R.RecomputeTotals(rounds, bets, epoch))
  {
    var rounds' := R.RecomputeTotals(rounds, bets, epoch);
    forall e | e in rounds'
      ensures RoundMirror(s'.RoundOf(e), s'.TermsOf(e), rounds'[e])
    {
      assert RoundMirror(s.RoundOf(e), s.TermsOf(e), rounds[e]);
    }
  }

  lemma ClaimsElsewhere(s: State, s': State, claims: R.Claims, epoch: nat)
    requires ClaimsMirror(s, claims)
    requires forall e | e != epoch :: SameRound(s, s', e)
    requires NoneClaimed(s.BookOf(epoch)) && NoneClaimed(s'.BookOf(epoch))
    ensures ClaimsMirror(s', claims)
  {
    hide EntitlementOf;
    forall e, a, kind
      ensures ClaimMirror(s', claims, e, a, kind)
    {
      assert ClaimMirror(s, claims, e, a, kind);
      if e == epoch {
        assert !s.BetOf(e, a).claimed && !s'.BetOf(e, a).claimed;
      } else {
        assert SameRound(s, s', e);
      }
    }
  }

  lemma EntryLogsApply(t: R.Tables, log: R.Log)
    requires log.event.BetPlaced? || log.event.Paid?
    ensures var t' := R.Apply(t, log);
      && t'.rounds == (if log.event.BetPlaced?
                       then R.RecomputeTotals(t.rounds, R.BetsAfter(t.bets, log), log.event.epoch)
                       else t.rounds)
      && t'.bets == R.BetsAfter(t.bets, log) && t'.claims == R.ClaimsAfter(t.claims, log)
      && (log.event.BetPlaced? ==> t'.claims == t.claims) && (log.event.Paid? ==> t'.bets == t.bets)
  {
  }

  lemma StakeLeavesRow(r: Round, t: Terms, position: Position, amount: nat, row: R.RoundRow)
    requires RoundMirror(r, t, row) && r.status.Open?
    ensures RoundMirror(AddStake(r, position, amount), t, row)
  {
  }

  lemma EnterKeepsMirror(s: State, w: World, s': State, t: R.Tables, log: R.Log, sender: Address, epoch: nat,
                         position: Position, amount: nat)
    requires Mirrors(s, t) && OnEnter(s, w, sender, epoch, position, amount) == Ok(s')
    requires log.event == R.BetPlaced(epoch, sender, position.Bull?, amount)
    requires epoch in s.rounds && NoneClaimed(s.BookOf(epoch))
    ensures Mirrors(s', R.Apply(t, log))
  {
    hide ClaimsMirror, BetsMirror, RoundsMirror, RoundMirror, R.Apply, R.RecomputeTotals, R.BetsAfter;
    var b := s.BetOf(epoch, sender).(position := position, amount := amount);
    EntryLogsApply(t, log);
    BetRowMirrors(s, s', t.bets, log, epoch, sender, b);
    forall row | RoundMirror(s.RoundOf(epoch), s.TermsOf(epoch), row)
      ensures RoundMirror(s'.RoundOf(epoch), s.TermsOf(epoch), row)
    {
      StakeLeavesRow(s.RoundOf(epoch), s.TermsOf(epoch), position, amount, row);
    }
    TotalsLeaveRounds(s, s', t.rounds, R.BetsAfter(t.bets, log), epoch);
    ClaimsElsewhere(s, s', t.claims, epoch);
  }

  lemma EnterMirrors(s: State, w: World, s': State, t: R.Tables, log: R.Log, sender: Address, epoch: nat,
                     position: Position, amount: nat)
    requires Inv(s, w.now) && Mirrors(s, t) && OnEnter(s, w, sender, epoch, position, amount) == Ok(s')
    requires log.event == R.BetPlaced(epoch, sender, position.Bull?, amount)
    ensures Mirrors(s', R.Apply(t, log))
  {
    hide Mirrors;
    assert RoundAtOk(s, epoch, w.now);
    EnterKeepsMirror(s, w, s', t, log, sender, epoch, position, amount);
  }

  lemma MarkClaims(s: State, s': State, claims: R.Claims, log: R.Log, epoch: nat, sender: Address, e: Entitled)
    requires ClaimsMirror(s, claims) && sender in s.BookOf(epoch)
    requires !s.BetOf(epoch, sender).claimed && PaidFor(s, epoch, sender) == Some(e)
    requires s' == s.(ledger := s.ledger[epoch := s.BookOf(epoch)[sender := s.BookOf(epoch)[sender].(claimed := true)]])
    requires log.event == R.Paid(epoch, sender, KindOf(e), e.amount)
    ensures ClaimsMirror(s', R.ClaimsAfter(claims, log))
  {
    hide EntitlementOf;
    var claims' := R.ClaimsAfter(claims, log);
    forall e', a, kind
      ensures ClaimMirror(s', claims', e', a, kind)
    {
      assert ClaimMirror(s, claims, e', a, kind);
      if e' == epoch && a == sender {
        assert PaidFor(s', e', a) == PaidFor(s, e', a);
      } else {
        assert s'.BetOf(e', a) == s.BetOf(e', a);
      }
    }
  }

  /** One epoch of a claim: the entry is marked, and the log says what it was paid. */
  lemma MarkMirrors(s: State, sender: Address, epoch: nat, t: R.Tables, log: R.Log, e: Entitled)
    requires Mirrors(s, t) && MarkOne(s, sender, epoch).Marked? && Entitlement(s, epoch, sender) == Some(e)
    requires log.event == R.Paid(epoch, sender, KindOf(e), MarkOne(s, sender, epoch).amount)
    ensures Mirrors(MarkOne(s, sender, epoch).state, R.Apply(t, log))
  {
    hide EntitlementOf, ClaimsMirror, BetsMirror, RoundMirror, R.Apply, R.ClaimsAfter;
    var s' := MarkOne(s, sender, epoch).state;
    EntryLogsApply(t, log);
    PaidWhenUnclaimed(s, epoch, sender);
    MarkBets(s, s', t.bets, epoch, sender);
    MarkClaims(s, s', t.claims, log, epoch, sender, e);
  }

  lemma PaidWhenUnclaimed(s: State, epoch: nat, sender: Address)
    requires !s.BetOf(epoch, sender).claimed
    ensures PaidFor(s, epoch, sender) == Entitlement(s, epoch, sender)
  {
    assert s.BetOf(epoch, sender).(claimed := false) == s.BetOf(epoch, sender);
  }

  lemma MarkBets(s: State, s': State, bets: R.Bets, epoch: nat, sender: Address)
    requires BetsMirror(s, bets) && sender in s.BookOf(epoch)
    requires s'.ledger == s.ledger[epoch := s.BookOf(epoch)[sender := s.BookOf(epoch)[sender].(claimed := true)]]
    ensures BetsMirror(s', bets)
  {
    forall e, a
      ensures R.BetKey(e, a) in bets <==> a in s'.BookOf(e)
      ensures R.BetKey(e, a) in bets ==> BetMirror(s'.BookOf(e)[a], bets[R.BetKey(e, a)])
    {
      assert R.BetKey(e, a) in bets <==> a in s.BookOf(e);
    }
  }

  // ---- sequences of logs --------------------------------------------------------------

  function EventsOf(logs: seq<R.Log>): seq<R.Event> {
    seq(|logs|, i requires 0 <= i < |logs| => logs[i].event)
  }

  /** Each log finds what it needs: a form of well-formedness that follows the fold. */
  ghost predicate Steady(t: R.Tables, logs: seq<R.Log>, close: nat -> nat) {
    forall i | 0 <= i < |logs| :: Replay.Applicable(R.Fold(t, logs[..i]), logs[i], close)
  }

  /** The mirror is kept, and the logs stay well formed, from one state to the next. */
  ghost predicate Tracks(s: State, t: R.Tables, s': State, logs: seq<R.Log>, close: nat -> nat) {
    Mirrors(s', R.Fold(t, logs)) && Steady(t, logs, close)
  }

  /** The close times of the rounds that exist. */
  ghost predicate Closes(s: State, close: nat -> nat) {
    forall e | e in s.rounds :: s.RoundOf(e).closeTimestamp == close(e)
  }

  lemma TracksNothing(s: State, t: R.Tables, logs: seq<R.Log>, close: nat -> nat)
    requires Mirrors(s, t) && EventsOf(logs) == []
    ensures logs == [] && Tracks(s, t, s, logs, close)
  {
    assert |EventsOf(logs)| == |logs|;
  }

  lemma TracksOne(s: State, t: R.Tables, s': State, logs: seq<R.Log>, event: R.Event, close: nat -> nat)
    requires EventsOf(logs) == [event]
    requires |logs| == 1 ==> Mirrors(s', R.Apply(t, logs[0])) && Replay.Applicable(t, logs[0], close)
    ensures Tracks(s, t, s', logs, close)
  {
    assert |EventsOf(logs)| == |logs|;
    assert logs[..0] == [];
    assert R.Fold(t, logs) == R.Apply(R.Fold(t, []), logs[0]);
  }

  lemma TracksThen(s: State, t: R.Tables, s1: State, a: seq<R.Log>, s2: State, b: seq<R.Log>, close: nat -> nat)
    requires Tracks(s, t, s1, a, close) && Tracks(s1, R.Fold(t, a), s2, b, close)
    ensures Tracks(s, t, s2, a + b, close)
  {
    hide Mirrors, Replay.Applicable, R.Fold;
    Replay.FoldConcat(t, a, b);
    forall i | 0 <= i < |a + b|
      ensures Replay.Applicable(R.Fold(t, (a + b)[..i]), (a + b)[i], close)
    {
      if i < |a| {
        assert (a + b)[..i] == a[..i];
      } else {
        assert (a + b)[..i] == a + b[..i - |a|];
        Replay.FoldConcat(t, a, b[..i - |a|]);
      }
    }
  }

  lemma EventsSplit(logs: seq<R.Log>, xs: seq<R.Event>, ys: seq<R.Event>)
    requires EventsOf(logs) == xs + ys
    ensures |xs| <= |logs| && EventsOf(logs[..|xs|]) == xs && EventsOf(logs[|xs|..]) == ys
    ensures logs == logs[..|xs|] + logs[|xs|..]
  {
    assert |EventsOf(logs)| == |logs|;
    forall i | 0 <= i < |logs|
      ensures EventsOf(logs)[i] == logs[i].event
    {
    }
    assert forall i | 0 <= i < |xs| :: EventsOf(logs[..|xs|])[i] == (xs + ys)[i];
    assert forall i | 0 <= i < |ys| :: EventsOf(logs[|xs|..])[i] == (xs + ys)[|xs| + i];
  }

  lemma MirrorCloses(s: State, t: R.Tables, close: nat -> nat)
    requires Mirrors(s, t) && Closes(s, close)
    ensures forall e | e in t.rounds :: t.rounds[e].schedule.close == close(e)
  {
    forall e | e in t.rounds
      ensures t.rounds[e].schedule.close == close(e)
    {
      assert RoundMirror(s.RoundOf(e), s.TermsOf(e), t.rounds[e]);
    }
  }

  // ---- one call -----------------------------------------------------------------------

  lemma ApplicableFrom(s: State, t: R.Tables, log: R.Log, close: nat -> nat)
    requires Mirrors(s, t) && Closes(s, close)
    requires Replay.Needs(log.event).Some? ==> Replay.Needs(log.event).value in s.rounds
    requires log.event.RoundStarted? ==> log.event.schedule.close == close(log.event.epoch)
    ensures Replay.Applicable(t, log, close)
  {
    MirrorCloses(s, t, close);
  }

  lemma {:induction false} ClaimTracks(s: State, sender: Address, epochs: seq<nat>, t: R.Tables, logs: seq<R.Log>,
                                       close: nat -> nat)
    requires Mirrors(s, t) && Closes(s, close) && MarkAll(s, sender, epochs).Marked?
    requires EventsOf(logs) == PaidEvents(s, sender, epochs)
    ensures Tracks(s, t, MarkAll(s, sender, epochs).state, logs, close)
    decreases |epochs|
  {
    hide Mirrors, MarkOne, Entitlement, Tracks, Steady, Replay.Applicable, R.Apply;
    if epochs == [] {
      TracksNothing(s, t, logs, close);
    } else {
      var m := MarkOne(s, sender, epochs[0]);
      MarkedIsEntitled(s, sender, epochs[0]);
      var e := Entitlement(s, epochs[0], sender).value;
      var event := R.Paid(epochs[0], sender, KindOf(e), m.amount);
      EventsSplit(logs, [event], PaidEvents(m.state, sender, epochs[1..]));
      var first := logs[..1];
      assert EventsOf(first)[0] == first[0].event;
      MarkMirrors(s, sender, epochs[0], t, first[0], e);
      ApplicableFrom(s, t, first[0], close);
      TracksOne(s, t, m.state, first, event, close);
      TrackedMirrors(s, t, m.state, first, close);
      ClaimTracks(m.state, sender, epochs[1..], R.Fold(t, first), logs[1..], close);
      TracksThen(s, t, m.state, first, MarkAll(s, sender, epochs).state, logs[1..], close);
    }
  }

  lemma MarkedIsEntitled(s: State, sender: Address, epoch: nat)
    requires MarkOne(s, sender, epoch).Marked?
    ensures Entitlement(s, epoch, sender).Some?
    ensures MarkOne(s, sender, epoch).state.rounds == s.rounds
  {
  }

  lemma TrackedMirrors(s: State, t: R.Tables, s': State, logs: seq<R.Log>, close: nat -> nat)
    requires Tracks(s, t, s', logs, close)
    ensures Mirrors(s', R.Fold(t, logs))
  {
  }

  /** Calls that change neither rounds nor ledger leave the mirror as it is, whatever they log. */
  lemma QuietTracks(s: State, s': State, t: R.Tables, logs: seq<R.Log>, events: seq<R.Event>, close: nat -> nat)
    requires Mirrors(s, t) && Closes(s, close) && EventsOf(logs) == events
    requires s'.rounds == s.rounds && s'.terms == s.terms && s'.ledger == s.ledger
    requires events == [] || (|events| == 1 && (events[0].Configured? || events[0].Unhandled? || events[0].BurnSwept?))
    ensures Tracks(s, t, s', logs, close)
  {
    SameMirror(s, s', t);
    if events == [] {
      TracksNothing(s', t, logs, close);
    } else {
      assert |EventsOf(logs)| == |logs|;
      assert EventsOf(logs)[0] == logs[0].event;
      QuietLog(t, logs[0]);
      SameTables(s', t, R.Apply(t, logs[0]));
      ApplicableFrom(s, t, logs[0], close);
      TracksOne(s, t, s', logs, events[0], close);
    }
  }

  lemma QuietLog(t: R.Tables, log: R.Log)
    requires log.event.Configured? || log.event.Unhandled? || log.event.BurnSwept?
    ensures var t' := R.Apply(t, log); t'.rounds == t.rounds && t'.bets == t.bets && t'.claims == t.claims
  {
  }

  lemma SameTables(s: State, t: R.Tables, t': R.Tables)
    requires Mirrors(s, t) && t'.rounds == t.rounds && t'.bets == t.bets && t'.claims == t.claims
    ensures Mirrors(s, t')
  {
  }

  lemma SameMirror(s: State, s': State, t: R.Tables)
    requires Mirrors(s, t) && s'.rounds == s.rounds && s'.terms == s.terms && s'.ledger == s.ledger
    ensures Mirrors(s', t)
  {
    assert BetsMirror(s', t.bets) by {
      BetsStand(s, s', t.bets);
    }
    forall e, a, kind
      ensures ClaimMirror(s', t.claims, e, a, kind)
    {
      assert ClaimMirror(s, t.claims, e, a, kind);
      assert s'.BetOf(e, a) == s.BetOf(e, a) && s'.RoundOf(e) == s.RoundOf(e) && s'.TermsOf(e) == s.TermsOf(e);
    }
  }

  /** One log of a lifecycle call or an entry, with the states on either side of it. */
  lemma LoggedTracks(s: State, now: nat, s': State, t: R.Tables, logs: seq<R.Log>, event: R.Event, close: nat -> nat)
    requires Mirrors(s, t) && Closes(s, close) && EventsOf(logs) == [event]
    requires forall log: R.Log | log.event == event :: Mirrors(s', R.Apply(t, log))
    requires Replay.Needs(event).Some? ==> Replay.Needs(event).value in s.rounds
    requires event.RoundStarted? ==> event.schedule.close == close(event.epoch)
    ensures Tracks(s, t, s', logs, close)
  {
    assert |EventsOf(logs)| == |logs|;
    assert EventsOf(logs)[0] == logs[0].event;
    ApplicableFrom(s, t, logs[0], close);
    TracksOne(s, t, s', logs, event, close);
  }

  lemma EnterTracks(s: State, w: World, s': State, t: R.Tables, logs: seq<R.Log>, close: nat -> nat,
                    sender: Address, epoch: nat, position: Position, amount: nat)
    requires Inv(s, w.now) && Mirrors(s, t) && Closes(s, close)
    requires OnEnter(s, w, sender, epoch, position, amount) == Ok(s')
    requires EventsOf(logs) == [R.BetPlaced(epoch, sender, position.Bull?, amount)]
    ensures Tracks(s, t, s', logs, close)
  {
    hide Mirrors, R.Apply, Tracks;
    var event := R.BetPlaced(epoch, sender, position.Bull?, amount);
    forall log: R.Log | log.event == event
      ensures Mirrors(s', R.Apply(t, log))
    {
      EnterMirrors(s, w, s', t, log, sender, epoch, position, amount);
    }
    assert RoundAtOk(s, epoch, w.now) && EpochsOk(s);
    LoggedTracks(s, w.now, s', t, logs, event, close);
  }

  lemma CreateTracks(s: State, w: World, now: nat, s': State, t: R.Tables, logs: seq<R.Log>, close: nat -> nat,
                     epoch: nat, start: nat, lock: nat, end: nat)
    requires Inv(s, now) && Mirrors(s, t) && Closes(s, close) && Closes(s', close) && epoch == s.currentEpoch + 1
    requires s' == CreateRound(s, w, epoch, start, lock, end).(currentEpoch := epoch)
    requires EventsOf(logs) == [Opened(s', epoch)]
    ensures Tracks(s, t, s', logs, close)
  {
    hide Mirrors, R.Apply, Tracks;
    forall log: R.Log | log.event == Opened(s', epoch)
      ensures Mirrors(s', R.Apply(t, log))
    {
      CreateMirrors(s, w, now, s', t, log, epoch, start, lock, end);
    }
    LoggedTracks(s, now, s', t, logs, Opened(s', epoch), close);
  }

  lemma LockTracks(s: State, w: World, s': State, t: R.Tables, logs: seq<R.Log>, close: nat -> nat, epoch: nat)
    requires Inv(s, w.now) && Mirrors(s, t) && Closes(s, close)
    requires OnLock(s, w, epoch) == Ok(s') && EventsOf(logs) == [LockedEvent(s', epoch)]
    ensures Tracks(s, t, s', logs, close)
  {
    hide Mirrors, R.Apply, Tracks;
    forall log: R.Log | log.event == LockedEvent(s', epoch)
      ensures Mirrors(s', R.Apply(t, log))
    {
      LockMirrors(s, w, s', t, log, epoch);
    }
    assert RoundAtOk(s, epoch, w.now) && EpochsOk(s);
    LoggedTracks(s, w.now, s', t, logs, LockedEvent(s', epoch), close);
  }

  lemma SettleTracks(s: State, w: World, s': State, t: R.Tables, logs: seq<R.Log>, close: nat -> nat, epoch: nat,
                     fee: nat)
    requires Inv(s, w.now) && Mirrors(s, t) && Closes(s, close)
    requires OnSettle(s, w, epoch) == Ok(s') && EventsOf(logs) == [SettledEvent(s', epoch, fee)]
    requires s'.burnAllocated == s.burnAllocated + fee
    ensures Tracks(s, t, s', logs, close)
  {
    hide Mirrors, R.Apply, Tracks;
    forall log: R.Log | log.event == SettledEvent(s', epoch, fee)
      ensures Mirrors(s', R.Apply(t, log))
    {
      SettleMirrors(s, w, s', t, log, epoch, fee);
    }
    assert RoundAtOk(s, epoch, w.now) && EpochsOk(s);
    LoggedTracks(s, w.now, s', t, logs, SettledEvent(s', epoch, fee), close);
  }

  lemma VoidTracks(s: State, now: nat, t: R.Tables, logs: seq<R.Log>, close: nat -> nat, epoch: nat, reason: nat)
    requires Inv(s, now) && Mirrors(s, t) && Closes(s, close)
    requires s.RoundOf(epoch).status.Open? || s.RoundOf(epoch).status.Locked?
    requires EventsOf(logs) == [R.RoundCancelled(epoch, reason)] && ReasonFits(reason, s.RoundOf(epoch).status.Locked?)
    ensures Tracks(s, t, Void(s, epoch), logs, close)
  {
    hide Mirrors, R.Apply, Tracks;
    forall log: R.Log | log.event == R.RoundCancelled(epoch, reason)
      ensures Mirrors(Void(s, epoch), R.Apply(t, log))
    {
      VoidMirrors(s, now, t, log, epoch, reason);
    }
    assert EpochsOk(s);
    LoggedTracks(s, now, Void(s, epoch), t, logs, R.RoundCancelled(epoch, reason), close);
  }

  lemma StartTracks(s: State, w: World, s': State, t: R.Tables, logs: seq<R.Log>, close: nat -> nat)
    requires Inv(s, w.now) && Mirrors(s, t) && Closes(s, close) && Closes(s', close) && OnStartNext(s, w) == Ok(s')
    requires EventsOf(logs) == if s'.currentEpoch > s.currentEpoch then [Opened(s', s'.currentEpoch)] else []
    ensures Tracks(s, t, s', logs, close)
  {
    hide Mirrors, R.Apply, Tracks, CreateRound, Closes;
    OpenNextKeepsInv(s, w);
    var head := s.RoundOf(s.currentEpoch);
    assert EpochsOk(s);
    CreateTracks(s, w, w.now, s', t, logs, close, s.currentEpoch + 1, head.lockTimestamp, head.closeTimestamp,
                 head.closeTimestamp + s.interval);
  }

  lemma PaidTracks(s: State, tx: Tx, s': State, t: R.Tables, logs: seq<R.Log>, close: nat -> nat)
    requires Mirrors(s, t) && Closes(s, close) && tx.call.Claim? && History.Flat(tx) && Apply(s, tx) == Ok(s')
    requires EventsOf(logs) == PaidEvents(s, tx.sender, tx.call.epochs)
    ensures Tracks(s, t, s', logs, close)
  {
    hide Mirrors, MarkAll, Steady;
    var m := MarkAll(s, tx.sender, tx.call.epochs);
    ClaimTracks(s, tx.sender, tx.call.epochs, t, logs, close);
    SameMirror(m.state, s', R.Fold(t, logs));
  }

  /** A plain call and its logs. */
  lemma OneTracks(s: State, now: nat, tx: Tx, t: R.Tables, logs: seq<R.Log>, close: nat -> nat)
    requires Inv(s, now) && now <= tx.world.now && History.Flat(tx) && !tx.call.ExecuteRound?
    requires Mirrors(s, t) && Closes(s, close) && Closes(Step(s, tx), close)
    requires EventsOf(logs) == EmitOne(s, tx)
    ensures Tracks(s, t, Step(s, tx), logs, close)
  {
    hide Mirrors, Tracks, Closes;
    LaterInv(s, now, tx.world.now);
    match Apply(s, tx) {
      case Revert(_) => TracksNothing(s, t, logs, close);
      case Ok(s') =>
        if IsConfiguration(tx.call) {
          ConfigureKeepsRounds(s, tx.world, tx.roles, tx.call);
          QuietTracks(s, s', t, logs, [ConfigEvent(tx.call)], close);
        } else {
          PlainTracks(s, tx, s', t, logs, close);
        }
    }
  }

  lemma PlainTracks(s: State, tx: Tx, s': State, t: R.Tables, logs: seq<R.Log>, close: nat -> nat)
    requires Inv(s, tx.world.now) && History.Flat(tx) && !tx.call.ExecuteRound? && !IsConfiguration(tx.call)
    requires Mirrors(s, t) && Closes(s, close) && Apply(s, tx) == Ok(s') && Closes(s', close)
    requires EventsOf(logs) == EmitOne(s, tx)
    ensures Tracks(s, t, s', logs, close)
  {
    hide Mirrors, Tracks, Closes, InvWithDebt, OnEnter, OnLock, OnSettle, PaidEvents, LockedEvent, SettledEvent, Opened;
    match tx.call {
      case Enter(epoch, position, amount) =>
        EnterTracks(s, tx.world, s', t, logs, close, tx.sender, epoch, position, amount);
      case Claim(epochs, _) => PaidTracks(s, tx, s', t, logs, close);
      case SweepToBurner(_) => QuietTracks(s, s', t, logs, [R.BurnSwept(s.burner, s.burnAllocated)], close);
      case ForceEther(_) => QuietTracks(s, s', t, logs, [], close);
      case _ => LifecycleTracks(s, tx, s', t, logs, close);
    }
  }

  lemma LifecycleTracks(s: State, tx: Tx, s': State, t: R.Tables, logs: seq<R.Log>, close: nat -> nat)
    requires Inv(s, tx.world.now) && Mirrors(s, t) && Closes(s, close) && Closes(s', close)
    requires tx.call.GenesisStartRound? || tx.call.StartNextRound? || tx.call.LockRound? || tx.call.SettleRound?
             || tx.call.CancelRound? || tx.call.EmergencyCancelRound?
    requires ApplyUnguarded(s, tx) == Ok(s') && EventsOf(logs) == EmitOne(s, tx)
    ensures Tracks(s, t, s', logs, close)
  {
    hide Mirrors, Tracks, Closes, InvWithDebt, OnLock, OnSettle, LockedEvent, SettledEvent, Opened, OnStartNext;
    var w := tx.world;
    match tx.call {
      case GenesisStartRound =>
        CreateTracks(s, w, w.now, s', t, logs, close, 1, w.now, w.now + s.interval, w.now + 2 * s.interval);
      case StartNextRound => StartTracks(s, w, s', t, logs, close);
      case LockRound(epoch) => LockTracks(s, w, s', t, logs, close, epoch);
      case SettleRound(epoch) =>
        var fee := if s'.burnAllocated >= s.burnAllocated then s'.burnAllocated - s.burnAllocated else 0;
        SettledFee(s, w, s', epoch);
        SettleTracks(s, w, s', t, logs, close, epoch, fee);
      case CancelRound(epoch) => VoidTracks(s, w.now, t, logs, close, epoch, CancelReason(s, w, tx.call, epoch));
      case EmergencyCancelRound(epoch) =>
        VoidTracks(s, w.now, t, logs, close, epoch, CancelReason(s, w, tx.call, epoch));
    }
  }

  // ---- runs ---------------------------------------------------------------------------

  /** Rounds keep their close times, so the last state's say what every earlier log said. */
  lemma ClosesEarlier(s: State, now: nat, x: State, close: nat -> nat)
    requires Inv(s, now) && History.Evolves(s, x, now) && EpochsOk(x) && Closes(x, close)
    ensures Closes(s, close)
  {
    forall e | e in s.rounds
      ensures s.RoundOf(e).closeTimestamp == close(e)
    {
      assert RoundAtOk(s, e, now) && History.EvolvesAt(s, x, e, now);
    }
  }

  lemma ClosesBefore(s: State, now: nat, txs: seq<Tx>, close: nat -> nat)
    requires Inv(s, now) && Chronological(now, txs) && Closes(Run(s, txs), close)
    ensures Closes(s, close)
  {
    History.RunEvolves(s, now, txs);
    RunKeepsInv(s, now, txs);
    ClosesEarlier(s, now, Run(s, txs), close);
  }

  ghost predicate Plain(txs: seq<Tx>) {
    forall i | 0 <= i < |txs| :: History.Flat(txs[i]) && !txs[i].call.ExecuteRound?
  }

  lemma {:induction false} EachTracks(s: State, now: nat, txs: seq<Tx>, t: R.Tables, logs: seq<R.Log>,
                                      close: nat -> nat)
    requires Inv(s, now) && Chronological(now, txs) && Plain(txs) && Mirrors(s, t)
    requires Closes(Run(s, txs), close) && EventsOf(logs) == EmitEach(s, txs)
    ensures Tracks(s, t, Run(s, txs), logs, close)
    decreases |txs|
  {
    hide Mirrors, Tracks, Closes, InvWithDebt, EmitOne, Step;
    ClosesBefore(s, now, txs, close);
    if txs == [] {
      TracksNothing(s, t, logs, close);
    } else {
      var s1, t1 := Step(s, txs[0]), txs[0].world.now;
      var n := |EmitOne(s, txs[0])|;
      EventsSplit(logs, EmitOne(s, txs[0]), EmitEach(s1, txs[1..]));
      StepKeepsInv(s, now, txs[0]);
      ClosesBefore(s1, t1, txs[1..], close);
      OneTracks(s, now, txs[0], t, logs[..n], close);
      TrackedMirrors(s, t, s1, logs[..n], close);
      EachTracks(s1, t1, txs[1..], R.Fold(t, logs[..n]), logs[n..], close);
      TracksThen(s, t, s1, logs[..n], Run(s1, txs[1..]), logs[n..], close);
    }
  }

  lemma {:induction false} ScanCallsPlain(sender: Address, w: World, epoch: nat, last: nat)
    ensures Plain(Pricing.ScanCalls(sender, w, epoch, last))
    ensures forall i | 0 <= i < |Pricing.ScanCalls(sender, w, epoch, last)| ::
      Pricing.ScanCalls(sender, w, epoch, last)[i].world == w
    decreases last + 1 - epoch
  {
    if epoch <= last {
      ScanCallsPlain(sender, w, epoch + 1, last);
    }
  }

  /** The execute call is a sequence of plain calls in what it does and in what it logs. */
  lemma ExecuteUnfolds(s: State, tx: Tx) returns (all: seq<Tx>)
    requires Inv(s, tx.world.now) && tx.call.ExecuteRound? && OnExecute(s, tx.world).Ok?
    ensures Plain(all) && Chronological(tx.world.now, all)
    ensures EmitFlat(s, tx) == EmitEach(s, all) && Step(s, tx) == Run(s, all)
  {
    hide EmitEach, EmitOne, Scan, OpenNext, OnExecute, OwedUpTo, Pricing.ScanCalls, Run;
    var w := tx.world;
    var calls := Pricing.ScanCalls(tx.sender, w, OldestUnresolved(s), s.currentEpoch);
    all := calls + [Tx(tx.sender, {}, w, StartNextRound)];
    ScanCallsPlain(tx.sender, w, OldestUnresolved(s), s.currentEpoch);
    Pricing.ExecuteIsTheIndividualCalls(s, tx.sender, w);
    History.SameTimeIsChronological(w.now, all, w.now);
  }

  lemma FlatTracks(s: State, now: nat, tx: Tx, t: R.Tables, logs: seq<R.Log>, close: nat -> nat)
    requires Inv(s, now) && now <= tx.world.now && History.Flat(tx) && Mirrors(s, t)
    requires Closes(s, close) && Closes(Step(s, tx), close) && EventsOf(logs) == EmitFlat(s, tx)
    ensures Tracks(s, t, Step(s, tx), logs, close)
  {
    hide Mirrors, Tracks, Closes, EmitOne, EmitEach, Step, InvWithDebt;
    LaterInv(s, now, tx.world.now);
    if !tx.call.ExecuteRound? {
      OneTracks(s, now, tx, t, logs, close);
    } else if OnExecute(s, tx.world).Revert? {
      ExecuteRefuses(s, tx);
      TracksNothing(s, t, logs, close);
    } else {
      var all := ExecuteUnfolds(s, tx);
      EachTracks(s, tx.world.now, all, t, logs, close);
    }
  }

  lemma ExecuteRefuses(s: State, tx: Tx)
    requires tx.call.ExecuteRound? && OnExecute(s, tx.world).Revert?
    ensures Step(s, tx) == s && EmitFlat(s, tx) == []
  {
  }

  lemma {:induction false} FlatsTrack(s: State, now: nat, txs: seq<Tx>, t: R.Tables, logs: seq<R.Log>,
                                      close: nat -> nat)
    requires Inv(s, now) && Chronological(now, txs) && History.AllFlat(txs) && Mirrors(s, t)
    requires Closes(Run(s, txs), close) && EventsOf(logs) == EmitFlats(s, txs)
    ensures Tracks(s, t, Run(s, txs), logs, close)
    decreases |txs|
  {
    hide Mirrors, Tracks, Closes, InvWithDebt, EmitFlat, Step;
    ClosesBefore(s, now, txs, close);
    if txs == [] {
      TracksNothing(s, t, logs, close);
    } else {
      var s1, t1 := Step(s, txs[0]), txs[0].world.now;
      var n := |EmitFlat(s, txs[0])|;
      EventsSplit(logs, EmitFlat(s, txs[0]), EmitFlats(s1, txs[1..]));
      StepKeepsInv(s, now, txs[0]);
      ClosesBefore(s1, t1, txs[1..], close);
      FlatTracks(s, now, txs[0], t, logs[..n], close);
      TrackedMirrors(s, t, s1, logs[..n], close);
      FlatsTrack(s1, t1, txs[1..], R.Fold(t, logs[..n]), logs[n..], close);
      TracksThen(s, t, s1, logs[..n], Run(s1, txs[1..]), logs[n..], close);
    }
  }

  lemma {:induction false} RunTracks(s: State, now: nat, txs: seq<Tx>, t: R.Tables, logs: seq<R.Log>, close: nat -> nat)
    requires Inv(s, now) && Chronological(now, txs) && Mirrors(s, t)
    requires Closes(Run(s, txs), close) && EventsOf(logs) == EmitRun(s, txs)
    ensures Tracks(s, t, Run(s, txs), logs, close)
    decreases |txs|
  {
    hide Mirrors, Tracks, Closes, InvWithDebt, EmitFlats, Step, History.CallsOf;
    if txs == [] {
      TracksNothing(s, t, logs, close);
    } else {
      var s1, t1 := Step(s, txs[0]), txs[0].world.now;
      var flat := History.CallsOf(s, txs[0]);
      var events := EmitFlats(s, flat);
      var n := |events|;
      EventsSplit(logs, events, EmitRun(s1, txs[1..]));
      StepKeepsInv(s, now, txs[0]);
      ClosesBefore(s1, t1, txs[1..], close);
      History.CallsOfRun(s, txs[0]);
      History.SameTimeIsChronological(now, flat, t1);
      FlatsTrack(s, now, flat, t, logs[..n], close);
      TrackedMirrors(s, t, s1, logs[..n], close);
      RunTracks(s1, t1, txs[1..], R.Fold(t, logs[..n]), logs[n..], close);
      TracksThen(s, t, s1, logs[..n], Run(s1, txs[1..]), logs[n..], close);
    }
  }

  // ---- what follows -------------------------------------------------------------------

  lemma {:induction false} RoundsComeFromStarts(t: R.Tables, logs: seq<R.Log>, e: nat)
    requires e in R.Fold(t, logs).rounds
    ensures e in t.rounds || Replay.StartedIn(logs, e)
  {
    if logs != [] {
      var n := |logs| - 1;
      if e in R.Fold(t, logs[..n]).rounds {
        RoundsComeFromStarts(t, logs[..n], e);
        if Replay.StartedIn(logs[..n], e) {
          var i :| 0 <= i < n && Replay.Starts(logs[..n][i].event) == Some(e);
          assert Replay.Starts(logs[i].event) == Some(e);
        }
      } else {
        OnlyStartsAdd(R.Fold(t, logs[..n]), logs[n], e);
      }
    }
  }

  lemma OnlyStartsAdd(t: R.Tables, log: R.Log, e: nat)
    requires e in R.Apply(t, log).rounds && e !in t.rounds
    ensures Replay.Starts(log.event) == Some(e)
  {
  }

  lemma SteadyIsWellFormed(t: R.Tables, logs: seq<R.Log>, close: nat -> nat)
    requires Steady(t, logs, close) && forall e | e in t.rounds :: t.rounds[e].schedule.close == close(e)
    ensures Replay.WellFormed(t, logs, close)
  {
    forall i | 0 <= i < |logs|
      ensures Replay.GoodLog(t, logs, i, close)
    {
      assert Replay.Applicable(R.Fold(t, logs[..i]), logs[i], close);
      if Replay.Needs(logs[i].event).Some? {
        RoundsComeFromStarts(t, logs[..i], Replay.Needs(logs[i].event).value);
      }
    }
  }

  /** Adding up one side's rows of a round is adding up that side of the round's ledger. */
  lemma {:induction false} SumIsTotal(column: map<R.BetKey, nat>, l: Book, e: nat, p: Position)
    requires forall k | k in column ::
      k.epoch == e && k.account in l && l[k.account].position == p && column[k] == l[k.account].amount
    requires forall a | a in l && l[a].position == p :: R.BetKey(e, a) in column
    ensures R.Sum(column) == Ledger.Total(Ledger.Side(p), l)
    decreases |l|
  {
    if l == map[] {
      assert column == map[];
    } else {
      var a :| a in l;
      Ledger.LessEntries(l, a);
      Ledger.TotalRemove(Ledger.Side(p), l, a);
      if l[a].position == p {
        Indexer.SumRemove(column, R.BetKey(e, a));
        SumIsTotal(column - {R.BetKey(e, a)}, l - {a}, e, p);
      } else {
        SumIsTotal(column, l - {a}, e, p);
      }
    }
  }

  /** The read model's round totals are the contract's pools. */
  lemma TotalsAreThePools(s: State, now: nat, t: R.Tables, e: nat)
    requires Inv(s, now) && Mirrors(s, t) && Replay.Derived(t) && 1 <= e <= s.currentEpoch
    ensures e in t.rounds
    ensures var r := s.RoundOf(e); t.rounds[e].totals == R.Totals(r.totalAmount, r.bullAmount, r.bearAmount)
  {
    assert EpochsOk(s) && RoundAtOk(s, e, now);
    var mine := R.BetsIn(t.bets, e);
    SideIsPool(s, t.bets, e, Position.Bull);
    SideIsPool(s, t.bets, e, Position.Bear);
  }

  lemma SideIsPool(s: State, bets: R.Bets, e: nat, p: Position)
    requires BetsMirror(s, bets)
    ensures R.Sum(R.Stakes(R.BetsIn(bets, e), {p.Bull?})) == Ledger.Total(Ledger.Side(p), s.BookOf(e))
  {
    SumIsTotal(R.Stakes(R.BetsIn(bets, e), {p.Bull?}), s.BookOf(e), e, p);
  }

  /** The tables after the logs of a run from deployment. */
  lemma IndexedRun(p: InitParams, now: nat, txs: seq<Tx>, logs: seq<R.Log>, close: nat -> nat)
    requires Construct(p).Ok? && Chronological(now, txs) && EventsOf(logs) == EmitRun(Construct(p).state, txs)
    requires Closes(Run(Construct(p).state, txs), close)
    ensures Inv(Run(Construct(p).state, txs), EndTime(now, txs))
    ensures Mirrors(Run(Construct(p).state, txs), R.Fold(R.Empty, logs)) && Replay.Derived(R.Fold(R.Empty, logs))
    ensures Replay.WellFormed(R.Empty, logs, close)
  {
    var s := Construct(p).state;
    ConstructInv(p, now);
    RunKeepsInv(s, now, txs);
    assert Mirrors(s, R.Empty);
    RunTracks(s, now, txs, R.Empty, logs, close);
    SteadyIsWellFormed(R.Empty, logs, close);
    Replay.EmptyIsDerived();
    Replay.FoldKeepsDerived(R.Empty, logs, close);
  }

  /** From deployment on: index the logs of any run of the market, whatever block, transaction and time
      each log carries, and the tables hold exactly the contract's rounds, pools, bets and payouts; and
      indexing any suffix of those logs again changes nothing. */
  lemma DatabaseIsTheChain(p: InitParams, now: nat, txs: seq<Tx>, x: State, logs: seq<R.Log>, k: nat)
    requires Construct(p).Ok? && Chronological(now, txs) && x == Run(Construct(p).state, txs)
    requires EventsOf(logs) == EmitRun(Construct(p).state, txs) && k <= |logs|
    ensures Mirrors(x, R.Fold(R.Empty, logs))
    ensures forall e | 1 <= e <= x.currentEpoch ::
      && e in R.Fold(R.Empty, logs).rounds
      && var r := x.RoundOf(e);
         R.Fold(R.Empty, logs).rounds[e].totals == R.Totals(r.totalAmount, r.bullAmount, r.bearAmount)
    ensures R.Fold(R.Empty, logs + logs[k..]) == R.Fold(R.Empty, logs)
  {
    var close := (e: nat) => x.RoundOf(e).closeTimestamp;
    IndexedRun(p, now, txs, logs, close);
    Replay.EmptyIsDerived();
    Replay.ReplayIsNoOp(R.Empty, logs, k, close);
    forall e | 1 <= e <= x.currentEpoch
      ensures e in R.Fold(R.Empty, logs).rounds
      ensures var r := x.RoundOf(e);
        R.Fold(R.Empty, logs).rounds[e].totals == R.Totals(r.totalAmount, r.bullAmount, r.bearAmount)
    {
      TotalsAreThePools(x, EndTime(now, txs), R.Fold(R.Empty, logs), e);
    }
  }

  // ---- the burn allocation ------------------------------------------------------------

  function FeeOf(event: R.Event): nat {
    match event case RoundSettled(_, _, _, _, _, _, _, burnFee) => burnFee case _ => 0
  }

  function SweepOf(event: R.Event): nat {
    match event case BurnSwept(_, amount) => amount case _ => 0
  }

  /** What a list of events adds up to. */
  function Added(events: seq<R.Event>, weigh: R.Event -> nat): nat {
    if events == [] then 0 else Added(events[..|events| - 1], weigh) + weigh(events[|events| - 1])
  }

  lemma {:induction false} AddedConcat(xs: seq<R.Event>, ys: seq<R.Event>, weigh: R.Event -> nat)
    ensures Added(xs + ys, weigh) == Added(xs, weigh) + Added(ys, weigh)
    decreases |ys|
  {
    if ys == [] {
      assert xs + ys == xs;
    } else {
      assert (xs + ys)[..|xs + ys| - 1] == xs + ys[..|ys| - 1];
      AddedConcat(xs, ys[..|ys| - 1], weigh);
    }
  }

  /** From one state to another the allocation grows by the fees and shrinks by the sweeps of the events. */
  ghost predicate Accounts(s: State, events: seq<R.Event>, s': State) {
    s'.burnAllocated + Added(events, SweepOf) == s.burnAllocated + Added(events, FeeOf)
  }

  lemma AccountsThen(s: State, xs: seq<R.Event>, s1: State, ys: seq<R.Event>, s2: State)
    requires Accounts(s, xs, s1) && Accounts(s1, ys, s2)
    ensures Accounts(s, xs + ys, s2)
  {
    AddedConcat(xs, ys, SweepOf);
    AddedConcat(xs, ys, FeeOf);
  }

  lemma AccountsOne(s: State, event: R.Event, s': State)
    requires s'.burnAllocated + SweepOf(event) == s.burnAllocated + FeeOf(event)
    ensures Accounts(s, [event], s')
  {
    assert [event][..0] == [];
    assert Added([event], SweepOf) == Added([], SweepOf) + SweepOf(event);
    assert Added([event], FeeOf) == Added([], FeeOf) + FeeOf(event);
  }

  lemma {:induction false} PaymentsMoveNoFees(s: State, sender: Address, epochs: seq<nat>)
    requires MarkAll(s, sender, epochs).Marked?
    ensures Accounts(s, PaidEvents(s, sender, epochs), MarkAll(s, sender, epochs).state)
    decreases |epochs|
  {
    hide Entitlement, Accounts;
    if epochs == [] {
      assert Accounts(s, [], s) by { NothingAccounts(s, s); }
    } else {
      var m := MarkOne(s, sender, epochs[0]);
      var event := R.Paid(epochs[0], sender, KindOf(Entitlement(s, epochs[0], sender).value), m.amount);
      AccountsOne(s, event, m.state);
      PaymentsMoveNoFees(m.state, sender, epochs[1..]);
      AccountsThen(s, [event], m.state, PaidEvents(m.state, sender, epochs[1..]), MarkAll(s, sender, epochs).state);
    }
  }

  lemma NothingAccounts(s: State, s': State)
    requires s'.burnAllocated == s.burnAllocated
    ensures Accounts(s, [], s')
  {
  }

  lemma OneAccounts(s: State, now: nat, tx: Tx)
    requires Inv(s, now) && now <= tx.world.now && History.Flat(tx) && !tx.call.ExecuteRound?
    ensures Accounts(s, EmitOne(s, tx), Step(s, tx))
  {
    hide Accounts, InvWithDebt, CreateRound, MarkAll;
    LaterInv(s, now, tx.world.now);
    match Apply(s, tx) {
      case Revert(_) => NothingAccounts(s, s);
      case Ok(s') =>
        if IsConfiguration(tx.call) {
          ConfigureKeepsRounds(s, tx.world, tx.roles, tx.call);
          AccountsOne(s, ConfigEvent(tx.call), s');
        } else if tx.call.Claim? {
          ClaimAccounts(s, tx, s');
        } else {
          EventAccounts(s, tx, s');
        }
    }
  }

  lemma ClaimAccounts(s: State, tx: Tx, s': State)
    requires History.Flat(tx) && tx.call.Claim? && Apply(s, tx) == Ok(s')
    ensures Accounts(s, EmitOne(s, tx), s')
  {
    hide MarkAll, PaidEvents, Added;
    PaymentsMoveNoFees(s, tx.sender, tx.call.epochs);
    assert s'.burnAllocated == MarkAll(s, tx.sender, tx.call.epochs).state.burnAllocated;
  }

  lemma EventAccounts(s: State, tx: Tx, s': State)
    requires Inv(s, tx.world.now) && History.Flat(tx) && Apply(s, tx) == Ok(s')
    requires !tx.call.ExecuteRound? && !tx.call.Claim? && !IsConfiguration(tx.call)
    ensures Accounts(s, EmitOne(s, tx), s')
  {
    hide Accounts, InvWithDebt, Pricing.Recorded;
    if tx.call.SettleRound? {
      SettledFee(s, tx.world, s', tx.call.epoch);
    }
    if EmitOne(s, tx) == [] {
      NothingAccounts(s, s');
    } else {
      AccountsOne(s, EmitOne(s, tx)[0], s');
    }
  }

  lemma {:induction false} EachAccounts(s: State, now: nat, txs: seq<Tx>)
    requires Inv(s, now) && Chronological(now, txs) && Plain(txs)
    ensures Accounts(s, EmitEach(s, txs), Run(s, txs))
    decreases |txs|
  {
    hide Accounts, InvWithDebt, EmitOne, Step;
    if txs == [] {
      NothingAccounts(s, s);
    } else {
      var s1 := Step(s, txs[0]);
      OneAccounts(s, now, txs[0]);
      StepKeepsInv(s, now, txs[0]);
      EachAccounts(s1, txs[0].world.now, txs[1..]);
      AccountsThen(s, EmitOne(s, txs[0]), s1, EmitEach(s1, txs[1..]), Run(s1, txs[1..]));
    }
  }

  lemma FlatAccounts(s: State, now: nat, tx: Tx)
    requires Inv(s, now) && now <= tx.world.now && History.Flat(tx)
    ensures Accounts(s, EmitFlat(s, tx), Step(s, tx))
  {
    hide Accounts, EmitOne, EmitEach, Step, InvWithDebt;
    LaterInv(s, now, tx.world.now);
    if !tx.call.ExecuteRound? {
      OneAccounts(s, now, tx);
    } else if OnExecute(s, tx.world).Revert? {
      ExecuteRefuses(s, tx);
      NothingAccounts(s, s);
    } else {
      var all := ExecuteUnfolds(s, tx);
      EachAccounts(s, tx.world.now, all);
    }
  }

  lemma {:induction false} FlatsAccount(s: State, now: nat, txs: seq<Tx>)
    requires Inv(s, now) && Chronological(now, txs) && History.AllFlat(txs)
    ensures Accounts(s, EmitFlats(s, txs), Run(s, txs))
    decreases |txs|
  {
    hide Accounts, InvWithDebt, EmitFlat, Step;
    if txs == [] {
      NothingAccounts(s, s);
    } else {
      var s1 := Step(s, txs[0]);
      FlatAccounts(s, now, txs[0]);
      StepKeepsInv(s, now, txs[0]);
      FlatsAccount(s1, txs[0].world.now, txs[1..]);
      AccountsThen(s, EmitFlat(s, txs[0]), s1, EmitFlats(s1, txs[1..]), Run(s1, txs[1..]));
    }
  }

  /** Over every run, reentrant calls included, the burn allocation is what it was plus the fees of the
      settlements logged less the sweeps logged. */
  lemma {:induction false} RunAccounts(s: State, now: nat, txs: seq<Tx>)
    requires Inv(s, now) && Chronological(now, txs)
    ensures Accounts(s, EmitRun(s, txs), Run(s, txs))
    decreases |txs|
  {
    hide Accounts, InvWithDebt, EmitFlats, Step, History.CallsOf;
    if txs == [] {
      NothingAccounts(s, s);
    } else {
      var s1, t1 := Step(s, txs[0]), txs[0].world.now;
      var flat := History.CallsOf(s, txs[0]);
      History.CallsOfRun(s, txs[0]);
      History.SameTimeIsChronological(now, flat, t1);
      FlatsAccount(s, now, flat);
      StepKeepsInv(s, now, txs[0]);
      RunAccounts(s1, t1, txs[1..]);
      AccountsThen(s, EmitFlats(s, flat), s1, EmitRun(s1, txs[1..]), Run(s1, txs[1..]));
    }
  }

  /** The amounts of one kind of burn row. */
  function FeeColumn(rows: map<R.BurnKey, R.BurnEventRow>): map<R.BurnKey, nat> {
    map k | k in rows && rows[k].kind.FeeAccrued? && rows[k].amount.Some? :: rows[k].amount.value
  }

  function SweepColumn(rows: map<R.BurnKey, R.BurnEventRow>): map<R.BurnKey, nat> {
    map k | k in rows && rows[k].kind.SweptToBurner? && rows[k].amount.Some? :: rows[k].amount.value
  }

  /** No two logs share a transaction and an index. */
  predicate Distinct(logs: seq<R.Log>) {
    forall i, j | 0 <= i < j < |logs| :: logs[i].tx != logs[j].tx || logs[i].index != logs[j].index
  }

  lemma {:induction false} RowsComeFromLogs(logs: seq<R.Log>, k: R.BurnKey)
    requires k in R.Fold(R.Empty, logs).burnEvents
    ensures exists i | 0 <= i < |logs| :: R.BurnKey(logs[i].tx, logs[i].index) == k
  {
    if logs != [] {
      var n := |logs| - 1;
      var before := R.Fold(R.Empty, logs[..n]);
      if k in before.burnEvents {
        RowsComeFromLogs(logs[..n], k);
        var i :| 0 <= i < n && R.BurnKey(logs[..n][i].tx, logs[..n][i].index) == k;
        assert R.BurnKey(logs[i].tx, logs[i].index) == k;
      } else {
        assert R.BurnKey(logs[n].tx, logs[n].index) == k;
      }
    }
  }

  lemma NewRowAdds(rows: map<R.BurnKey, R.BurnEventRow>, log: R.Log)
    requires R.BurnKey(log.tx, log.index) !in rows
    ensures var rows' := R.BurnEventsAfter(rows, log);
      && R.Sum(FeeColumn(rows')) == R.Sum(FeeColumn(rows)) + FeeOf(log.event)
      && R.Sum(SweepColumn(rows')) == R.Sum(SweepColumn(rows)) + SweepOf(log.event)
  {
    var k, rows' := R.BurnKey(log.tx, log.index), R.BurnEventsAfter(rows, log);
    ColumnGrows(FeeColumn(rows), FeeColumn(rows'), k);
    ColumnGrows(SweepColumn(rows), SweepColumn(rows'), k);
  }

  lemma ColumnGrows(column: map<R.BurnKey, nat>, column': map<R.BurnKey, nat>, k: R.BurnKey)
    requires k !in column && column' - {k} == column
    ensures R.Sum(column') == R.Sum(column) + (if k in column' then column'[k] else 0)
  {
    if k in column' {
      Indexer.SumRemove(column', k);
    } else {
      assert column' == column' - {k};
    }
  }

  lemma {:induction false} RowsAddUp(logs: seq<R.Log>)
    requires Distinct(logs)
    ensures var rows := R.Fold(R.Empty, logs).burnEvents;
      && R.Sum(FeeColumn(rows)) == Added(EventsOf(logs), FeeOf)
      && R.Sum(SweepColumn(rows)) == Added(EventsOf(logs), SweepOf)
  {
    if logs == [] {
      assert FeeColumn(map[]) == map[] && SweepColumn(map[]) == map[];
    } else {
      var n := |logs| - 1;
      var rows := R.Fold(R.Empty, logs[..n]).burnEvents;
      RowsAddUp(logs[..n]);
      if R.BurnKey(logs[n].tx, logs[n].index) in rows {
        RowsComeFromLogs(logs[..n], R.BurnKey(logs[n].tx, logs[n].index));
        assert false;
      }
      NewRowAdds(rows, logs[n]);
      assert EventsOf(logs)[..n] == EventsOf(logs[..n]);
    }
  }

  /** From deployment on, over every run: the read model's fee rows less its sweep rows are exactly the
      burn allocation the contract still holds. */
  lemma BurnRowsAreTheAllocation(p: InitParams, now: nat, txs: seq<Tx>, logs: seq<R.Log>)
    requires Construct(p).Ok? && Chronological(now, txs) && Distinct(logs)
    requires EventsOf(logs) == EmitRun(Construct(p).state, txs)
    ensures var rows := R.Fold(R.Empty, logs).burnEvents;
      Run(Construct(p).state, txs).burnAllocated + R.Sum(SweepColumn(rows)) == R.Sum(FeeColumn(rows))
  {
    hide InvWithDebt, EmitRun, Run;
    ConstructInv(p, now);
    RunAccounts(Construct(p).state, now, txs);
    RowsAddUp(logs);
  }
}
