/** Each external call of the market as a function from a state to its next state or a revert. */
module MarketSpec {
  import opened Util
  import opened MarketTypes

  // ---- construction -------------------------------------------------------------------

  predicate IntervalInBounds(v: nat) { MIN_INTERVAL <= v <= MAX_INTERVAL }
  predicate WindowInBounds(v: nat) { MIN_TWAP_WINDOW <= v <= MAX_TWAP_WINDOW }
  predicate BufferInBounds(v: nat) { MIN_BUFFER_SECONDS <= v <= MAX_BUFFER_SECONDS }

  predicate ToleranceFitsScan(buffer: nat, interval: nat)
    requires interval > 0
  {
    3 + buffer / interval <= MAX_SCAN_ROUNDS
  }

  function Construct(p: InitParams): Result {
    if p.admin == 0 || p.burner == 0 || p.oracle == 0 then Revert(ZeroAddress)
    else if !IntervalInBounds(p.interval) || !WindowInBounds(p.twapWindow) || !BufferInBounds(p.bufferSeconds) then
      Revert(OutOfBounds)
    else if !ToleranceFitsScan(p.bufferSeconds, p.interval) then Revert(ToleranceExceedsScanWindow)
    else if p.burnFeeBps > MAX_BURN_FEE_BPS then Revert(FeeTooHigh)
    else if p.maximumBet != 0 && p.maximumBet < p.minimumBet then Revert(InvalidBetLimits)
    else Ok(State(0, p.oracle, p.burner, p.interval, p.twapWindow, p.bufferSeconds, p.burnFeeBps,
                  p.minimumBet, p.maximumBet, p.maximumRoundPool, 0, 0, map[], map[], map[],
                  0, 0, 0, 0, false, 0, 0))
  }

  // ---- entering -----------------------------------------------------------------------

  function AddStake(r: Round, position: Position, amount: nat): Round {
    r.(totalAmount := r.totalAmount + amount,
       bullAmount := if position.Bull? then r.bullAmount + amount else r.bullAmount,
       bearAmount := if position.Bull? then r.bearAmount else r.bearAmount + amount)
  }

  function OnEnter(s: State, w: World, sender: Address, epoch: nat, position: Position, amount: nat): Result {
    var r := s.RoundOf(epoch);
    if s.paused then Revert(EnforcedPause)
    else if r.status.Pending? then Revert(RoundNotFound)
    else if !r.status.Open? then Revert(RoundNotOpen)
    else if w.now >= r.lockTimestamp then Revert(EntriesClosed)
    else if w.now < r.startTimestamp then Revert(RoundNotOpen)
    else if amount < s.minimumBet then Revert(StakeBelowMinimum)
    else if s.maximumBet != 0 && amount > s.maximumBet then Revert(StakeAboveMaximum)
    else if s.BetOf(epoch, sender).amount != 0 then Revert(AlreadyEntered)
    else if s.maximumRoundPool != 0 && r.totalAmount + amount > s.maximumRoundPool then Revert(RoundPoolExceeded)
    else
      var bet := s.BetOf(epoch, sender).(position := position, amount := amount);
      Ok(s.(rounds := s.rounds[epoch := AddStake(r, position, amount)],
            ledger := s.ledger[epoch := s.BookOf(epoch)[sender := bet]],
            totalLiabilities := s.totalLiabilities + amount,
            balance := s.balance + amount))
  }

  // ---- round lifecycle ----------------------------------------------------------------

  /** Writing a round's terms reads the oracle's version, and only a caught failure of that is recorded as 0. */
  predicate CreateBreaks(s: State, w: World) { w.version(s.oracle).BadVersion? }

  function CreateRound(s: State, w: World, epoch: nat, start: nat, lock: nat, close: nat): State {
    var r := s.RoundOf(epoch).(epoch := epoch, startTimestamp := start, lockTimestamp := lock,
                               closeTimestamp := close, status := Status.Open);
    var version := match w.version(s.oracle) case Version(v) => v case _ => 0;
    var t := s.TermsOf(epoch).(oracle := s.oracle, twapWindow := s.twapWindow, burnFeeBps := s.burnFeeBps,
                               oracleVersion := version);
    s.(rounds := s.rounds[epoch := r], terms := s.terms[epoch := t])
  }

  function OnGenesis(s: State, w: World, roles: set<Role>): Result {
    if Operator !in roles then Revert(Unauthorized)
    else if s.paused then Revert(EnforcedPause)
    else if s.currentEpoch != 0 then Revert(AlreadyStarted)
    else if CreateBreaks(s, w) then Revert(UndecodableAnswer)
    else Ok(CreateRound(s, w, 1, w.now, w.now + s.interval, w.now + 2 * s.interval).(currentEpoch := 1))
  }

  /** The next round's times come from the head's stored schedule, never from the clock. */
  function OpenNext(s: State, w: World): State {
    var head := s.RoundOf(s.currentEpoch);
    var next := s.currentEpoch + 1;
    if !s.RoundOf(next).status.Pending? then s
    else
      CreateRound(s, w, next, head.lockTimestamp, head.closeTimestamp, head.closeTimestamp + s.interval)
        .(currentEpoch := next)
  }

  predicate OpenBreaks(s: State, w: World) {
    s.RoundOf(s.currentEpoch + 1).status.Pending? && CreateBreaks(s, w)
  }

  function OnStartNext(s: State, w: World): Result {
    if s.paused then Revert(EnforcedPause)
    else if s.currentEpoch == 0 then Revert(NotStarted)
    else if w.now < s.RoundOf(s.currentEpoch).lockTimestamp then Revert(NotYetLockable)
    else if OpenBreaks(s, w) then Revert(UndecodableAnswer)
    else Ok(OpenNext(s, w))
  }

  /** A reverting oracle and a zero price both mean "no price yet"; so, to this function, does an answer
      that does not decode. */
  function QuoteOf(w: World, t: Terms, instant: nat): Option<(nat, int)> {
    match w.quote(t.oracle, instant, t.twapWindow)
    case Reverted => None
    case BadQuote => None
    case Quoted(price, tick) => if price == 0 then None else Some((price, tick))
  }

  predicate QuoteIsBad(w: World, t: Terms, instant: nat) {
    w.quote(t.oracle, instant, t.twapWindow).BadQuote?
  }

  /** The probe says yes. */
  predicate ProbeOf(w: World, t: Terms, instant: nat) {
    w.probe(t.oracle, instant, t.twapWindow).Yes?
  }

  predicate SaysNo(w: World, t: Terms, instant: nat) {
    w.probe(t.oracle, instant, t.twapWindow).No?
  }

  predicate ProbeIsBad(w: World, t: Terms, instant: nat) {
    w.probe(t.oracle, instant, t.twapWindow).BadProbe?
  }

  /** Why a call that found no price reverts: its own quote, or the reason it then asks the probe for,
      did not decode; or it says that the price is unavailable. */
  function NoPrice(w: World, t: Terms, instant: nat): Error {
    if QuoteIsBad(w, t, instant) || ProbeIsBad(w, t, instant) then UndecodableAnswer else PriceUnavailable
  }

  function TryLock(s: State, w: World, epoch: nat): Option<State> {
    var r, t := s.RoundOf(epoch), s.TermsOf(epoch);
    match QuoteOf(w, t, r.lockTimestamp)
    case None => None
    case Some((price, tick)) =>
      Some(s.(rounds := s.rounds[epoch := r.(lockPrice := price, status := Status.Locked)],
              terms := s.terms[epoch := t.(lockTick := tick, lockedAt := w.now)]))
  }

  datatype Resolution = Resolution(outcome: Outcome, fee: nat, rewardBase: nat, reward: nat)

  /** The branches of settlement: who won, what is burned and what is shared out. */
  function Resolve(r: Round, feeBps: nat, price: nat): Resolution
    requires feeBps <= MAX_BPS
  {
    if r.totalAmount == 0 then Resolution(Outcome.NoContest, 0, r.rewardBaseAmount, r.rewardAmount)
    else if price == r.lockPrice then Resolution(Outcome.Tie, 0, r.rewardBaseAmount, r.rewardAmount)
    else
      var bullWins := price > r.lockPrice;
      var winningPool := if bullWins then r.bullAmount else r.bearAmount;
      var losingPool := if bullWins then r.bearAmount else r.bullAmount;
      if winningPool == 0 then Resolution(Outcome.AllLost, r.totalAmount, r.rewardBaseAmount, r.rewardAmount)
      else if losingPool == 0 then Resolution(Outcome.NoContest, 0, r.rewardBaseAmount, r.rewardAmount)
      else
        var fee := (r.totalAmount * feeBps) / MAX_BPS;
        FeeAtMostTotal(r.totalAmount, feeBps);
        Resolution(if bullWins then Outcome.Bull else Outcome.Bear, fee, winningPool, r.totalAmount - fee)
  }

  lemma FeeAtMostTotal(total: nat, feeBps: nat)
    requires feeBps <= MAX_BPS
    ensures (total * feeBps) / MAX_BPS <= total
  {
    MulMono(feeBps, MAX_BPS, total);
    DivBounds(total * feeBps, MAX_BPS);
  }

  /** A fee above 100% cannot be stored; the subtraction it would underflow reverts. */
  function TrySettle(s: State, w: World, epoch: nat): Result {
    var r, t := s.RoundOf(epoch), s.TermsOf(epoch);
    match QuoteOf(w, t, r.closeTimestamp)
    case None => Revert(if QuoteIsBad(w, t, r.closeTimestamp) then UndecodableAnswer else PriceUnavailable)
    case Some((price, tick)) =>
      if t.burnFeeBps > MAX_BPS then Revert(Panic)
      else
        var v := Resolve(r, t.burnFeeBps, price);
        if v.fee > s.totalLiabilities then Revert(Panic)
        else
          Ok(s.(rounds := s.rounds[epoch := r.(closePrice := price, rewardBaseAmount := v.rewardBase,
                                               rewardAmount := v.reward, status := Status.Settled)],
                terms := s.terms[epoch := t.(closeTick := tick, settledAt := w.now, outcome := v.outcome)],
                burnAllocated := s.burnAllocated + v.fee,
                totalLiabilities := s.totalLiabilities - v.fee))
  }

  function OnLock(s: State, w: World, epoch: nat): Result {
    var r := s.RoundOf(epoch);
    if !r.status.Open? then Revert(RoundNotOpen)
    else if w.now < r.lockTimestamp then Revert(NotYetLockable)
    else match TryLock(s, w, epoch)
      case None => Revert(NoPrice(w, s.TermsOf(epoch), r.lockTimestamp))
      case Some(s') => Ok(s')
  }

  function OnSettle(s: State, w: World, epoch: nat): Result {
    var r := s.RoundOf(epoch);
    if !r.status.Locked? then Revert(NotYetSettleable)
    else if w.now < r.closeTimestamp then Revert(NotYetSettleable)
    else match TrySettle(s, w, epoch)
      case Ok(s') => Ok(s')
      case Revert(e) =>
        Revert(if e.PriceUnavailable? then NoPrice(w, s.TermsOf(epoch), r.closeTimestamp) else e)
  }

  /** How far back the helpers look: three rounds plus the tolerance in intervals, clamped. */
  function ScanSpan(s: State): nat
    requires s.interval > 0
  {
    var span := 3 + s.bufferSeconds / s.interval;
    if span > MAX_SCAN_ROUNDS then MAX_SCAN_ROUNDS else span
  }

  function OldestUnresolved(s: State): nat
    requires s.interval > 0
  {
    if s.currentEpoch > ScanSpan(s) then s.currentEpoch - ScanSpan(s) else 1
  }

  /** The loop of executeRound: lock what is due, then settle what is due, oldest first. */
  function Scan(s: State, w: World, epoch: nat, last: nat): Result
    decreases last + 1 - epoch
  {
    if epoch > last then Ok(s)
    else
      var r := s.RoundOf(epoch);
      var due := r.status.Open? && w.now >= r.lockTimestamp;
      if due && QuoteIsBad(w, s.TermsOf(epoch), r.lockTimestamp) then Revert(UndecodableAnswer)
      else
        var s1 := if due && TryLock(s, w, epoch).Some? then TryLock(s, w, epoch).value else s;
        var r1 := s1.RoundOf(epoch);
        if r1.status.Locked? && w.now >= r1.closeTimestamp then
          match TrySettle(s1, w, epoch)
          case Ok(s2) => Scan(s2, w, epoch + 1, last)
          case Revert(e) => if !e.PriceUnavailable? then Revert(e) else Scan(s1, w, epoch + 1, last)
        else Scan(s1, w, epoch + 1, last)
  }

  function OnExecute(s: State, w: World): Result {
    if s.paused then Revert(EnforcedPause)
    else if s.currentEpoch == 0 then Revert(NotStarted)
    else if s.interval == 0 then Revert(Panic)
    else match Scan(s, w, OldestUnresolved(s), s.currentEpoch)
      case Revert(e) => Revert(e)
      case Ok(s1) =>
        if w.now < s1.RoundOf(s1.currentEpoch).lockTimestamp then Ok(s1)
        else if OpenBreaks(s1, w) then Revert(UndecodableAnswer)
        else Ok(OpenNext(s1, w))
  }

  /** The instant whose price an unresolved round needs next. */
  function DueInstant(r: Round): nat {
    if r.status.Open? then r.lockTimestamp else r.closeTimestamp
  }

  predicate Unresolved(r: Round) { r.status.Open? || r.status.Locked? }

  /** Unresolved past the due instant plus the tolerance: the one case in which the probe is asked. */
  predicate Overdue(s: State, w: World, epoch: nat) {
    Unresolved(s.RoundOf(epoch)) && w.now > DueInstant(s.RoundOf(epoch)) + s.bufferSeconds
  }

  predicate IsCancellable(s: State, w: World, epoch: nat) {
    Overdue(s, w, epoch) && SaysNo(w, s.TermsOf(epoch), DueInstant(s.RoundOf(epoch)))
  }

  predicate CancelBreaks(s: State, w: World, epoch: nat) {
    Overdue(s, w, epoch) && ProbeIsBad(w, s.TermsOf(epoch), DueInstant(s.RoundOf(epoch)))
  }

  function Void(s: State, epoch: nat): State {
    s.(rounds := s.rounds[epoch := s.RoundOf(epoch).(status := Status.Cancelled)])
  }

  function OnCancel(s: State, w: World, epoch: nat): Result {
    if CancelBreaks(s, w, epoch) then Revert(UndecodableAnswer)
    else if !IsCancellable(s, w, epoch) then Revert(RoundNotCancellable)
    else Ok(Void(s, epoch))
  }

  function OnEmergencyCancel(s: State, w: World, roles: set<Role>, epoch: nat): Result {
    var r, t := s.RoundOf(epoch), s.TermsOf(epoch);
    if Pauser !in roles then Revert(Unauthorized)
    else if r.status.Pending? then Revert(RoundNotFound)
    else if r.status.Settled? || r.status.Cancelled? then Revert(RoundNotCancellable)
    else if r.status.Open? && w.now < r.lockTimestamp then Ok(Void(s, epoch))
    else
      var instant := DueInstant(r);
      if w.now < instant then Revert(RoundNotCancellable)
      else
        match w.probe(t.oracle, instant, t.twapWindow)
        case Yes => Revert(RoundNotCancellable)
        case BadProbe => Revert(UndecodableAnswer)
        case No => Ok(Void(s, epoch))
  }

  // ---- claims -------------------------------------------------------------------------

  predicate Backs(position: Position, outcome: Outcome) {
    (outcome.Bull? && position.Bull?) || (outcome.Bear? && position.Bear?)
  }

  datatype Entitled = Entitled(won: bool, amount: nat)

  /** What one entry may still collect from its round; None is a division by zero. */
  function EntitlementOf(r: Round, outcome: Outcome, bet: Bet): Option<Entitled> {
    if bet.amount == 0 || bet.claimed then Some(Entitled(false, 0))
    else if r.status.Cancelled? then Some(Entitled(false, bet.amount))
    else if !r.status.Settled? then Some(Entitled(false, 0))
    else if outcome.Tie? || outcome.NoContest? then Some(Entitled(false, bet.amount))
    else if !Backs(bet.position, outcome) then Some(Entitled(false, 0))
    else if r.rewardBaseAmount == 0 then None
    else Some(Entitled(true, (bet.amount * r.rewardAmount) / r.rewardBaseAmount))
  }

  function Entitlement(s: State, epoch: nat, account: Address): Option<Entitled> {
    EntitlementOf(s.RoundOf(epoch), s.TermsOf(epoch).outcome, s.BetOf(epoch, account))
  }

  datatype Marked = Marked(state: State, amount: nat) | Refused(error: Error)

  /** One turn of the claim loop: check the entry, then mark it claimed. */
  function MarkOne(s: State, sender: Address, epoch: nat): Marked {
    var bet := s.BetOf(epoch, sender);
    if bet.amount == 0 then Refused(NothingToClaim)
    else if bet.claimed then Refused(AlreadyClaimed)
    else match Entitlement(s, epoch, sender)
      case None => Refused(Panic)
      case Some(e) =>
        if e.amount == 0 then Refused(NothingToClaim)
        else Marked(s.(ledger := s.ledger[epoch := s.BookOf(epoch)[sender := bet.(claimed := true)]]), e.amount)
  }

  function MarkAll(s: State, sender: Address, epochs: seq<nat>): Marked
    decreases |epochs|
  {
    if epochs == [] then Marked(s, 0)
    else match MarkOne(s, sender, epochs[0])
      case Refused(e) => Refused(e)
      case Marked(s1, amount) =>
        match MarkAll(s1, sender, epochs[1..])
        case Refused(e) => Refused(e)
        case Marked(s2, rest) => Marked(s2, amount + rest)
  }

  /** Taking the marked total off the books and off the balance. */
  function PayOut(m: Marked): Result {
    match m
    case Refused(e) => Revert(e)
    case Marked(s, payout) =>
      if payout > s.totalLiabilities then Revert(Panic)
      else if payout > s.balance then Revert(TransferFailed)
      else Ok(s.(totalLiabilities := s.totalLiabilities - payout, balance := s.balance - payout))
  }

  /** Every storage effect of a claim and the ETH leaving, before the receiver runs. */
  function ClaimEffects(s: State, sender: Address, epochs: seq<nat>): Result {
    PayOut(MarkAll(s, sender, epochs))
  }

  function SweepEffects(s: State): Result {
    if s.burnAllocated == 0 then Revert(BurnSweepOverdraw)
    else if s.burnAllocated > s.balance then Revert(TransferFailed)
    else Ok(s.(burnAllocated := 0, balance := s.balance - s.burnAllocated))
  }

  // ---- configuration ------------------------------------------------------------------

  predicate IsConfiguration(call: Call) {
    call.Pause? || call.Unpause? || call.ProposeBurnFee? || call.CommitBurnFee? || call.CancelPendingFee? ||
    call.ProposeOracle? || call.CommitOracle? || call.CancelPendingOracle? || call.SetInterval? ||
    call.SetTwapWindow? || call.SetBufferSeconds? || call.SetMinimumBet? || call.SetMaximumBet? ||
    call.SetMaximumRoundPool? || call.SetBurner?
  }

  function RoleFor(call: Call): Role {
    if call.Pause? || call.Unpause? then Pauser else if call.SetBurner? then Admin else Config
  }

  function Configure(s: State, w: World, roles: set<Role>, call: Call): Result
    requires IsConfiguration(call)
  {
    if RoleFor(call) !in roles then Revert(Unauthorized)
    else
      match call
      case Pause => if s.paused then Revert(EnforcedPause) else Ok(s.(paused := true))
      case Unpause => if !s.paused then Revert(ExpectedPause) else Ok(s.(paused := false))
      case SetBurner(next) => if next == 0 then Revert(ZeroAddress) else Ok(s.(burner := next))
      case ProposeBurnFee(bps) =>
        if bps > MAX_BURN_FEE_BPS then Revert(FeeTooHigh)
        else Ok(s.(pendingFeeBps := bps, pendingFeeReadyAt := w.now + CONFIG_TIMELOCK))
      case CommitBurnFee =>
        if s.pendingFeeReadyAt == 0 then Revert(NoPendingChange)
        else if w.now < s.pendingFeeReadyAt then Revert(TimelockNotElapsed)
        else Ok(s.(burnFeeBps := s.pendingFeeBps, pendingFeeReadyAt := 0))
      case CancelPendingFee => Ok(s.(pendingFeeReadyAt := 0))
      case ProposeOracle(next) =>
        if next == 0 then Revert(ZeroAddress)
        else if !w.version(next).Version? then Revert(OracleReverted)
        else Ok(s.(pendingOracle := next, pendingOracleReadyAt := w.now + CONFIG_TIMELOCK))
      case CommitOracle =>
        if s.pendingOracleReadyAt == 0 then Revert(NoPendingChange)
        else if w.now < s.pendingOracleReadyAt then Revert(TimelockNotElapsed)
        else if w.version(s.pendingOracle).BadVersion? then Revert(UndecodableAnswer)
        else Ok(s.(oracle := s.pendingOracle, pendingOracleReadyAt := 0))
      case CancelPendingOracle => Ok(s.(pendingOracleReadyAt := 0))
      case SetInterval(v) =>
        if !IntervalInBounds(v) then Revert(OutOfBounds)
        else if !ToleranceFitsScan(s.bufferSeconds, v) then Revert(ToleranceExceedsScanWindow)
        else Ok(s.(interval := v))
      case SetTwapWindow(v) =>
        if !WindowInBounds(v) then Revert(OutOfBounds) else Ok(s.(twapWindow := v))
      case SetBufferSeconds(v) =>
        if !BufferInBounds(v) then Revert(OutOfBounds)
        else if s.interval == 0 then Revert(Panic)
        else if !ToleranceFitsScan(v, s.interval) then Revert(ToleranceExceedsScanWindow)
        else Ok(s.(bufferSeconds := v))
      case SetMinimumBet(v) =>
        if s.maximumBet != 0 && v > s.maximumBet then Revert(InvalidBetLimits) else Ok(s.(minimumBet := v))
      case SetMaximumBet(v) =>
        if v != 0 && v < s.minimumBet then Revert(InvalidBetLimits) else Ok(s.(maximumBet := v))
      case SetMaximumRoundPool(v) => Ok(s.(maximumRoundPool := v))
  }

  // ---- dispatch -----------------------------------------------------------------------

  /** The three calls that hold the reentrancy guard. */
  predicate Guarded(call: Call) {
    call.Enter? || call.Claim? || call.SweepToBurner?
  }

  function ApplyUnguarded(s: State, tx: Tx): Result
    requires !Guarded(tx.call)
  {
    if IsConfiguration(tx.call) then Configure(s, tx.world, tx.roles, tx.call)
    else match tx.call
    case GenesisStartRound => OnGenesis(s, tx.world, tx.roles)
    case ExecuteRound => OnExecute(s, tx.world)
    case StartNextRound => OnStartNext(s, tx.world)
    case LockRound(epoch) => OnLock(s, tx.world, epoch)
    case SettleRound(epoch) => OnSettle(s, tx.world, epoch)
    case CancelRound(epoch) => OnCancel(s, tx.world, epoch)
    case EmergencyCancelRound(epoch) => OnEmergencyCancel(s, tx.world, tx.roles, epoch)
    case ForceEther(amount) => Ok(s.(balance := s.balance + amount, forced := s.forced + amount))
  }

  /** A call made while ETH is being sent: same block, and guarded calls revert. */
  function Reenter(s: State, now: nat, tx: Tx): State {
    if Guarded(tx.call) then s
    else match ApplyUnguarded(s, tx.(world := tx.world.(now := now)))
      case Ok(s') => s'
      case Revert(_) => s
  }

  function ReenterAll(s: State, now: nat, inner: seq<Tx>): State
    decreases |inner|
  {
    if inner == [] then s else ReenterAll(Reenter(s, now, inner[0]), now, inner[1..])
  }

  /** The external ETH transfer that ends a claim or a sweep. */
  function Deliver(r: Result, now: nat, receiver: Receiver): Result {
    match r
    case Revert(e) => Revert(e)
    case Ok(s1) => if receiver.accepts then Ok(ReenterAll(s1, now, receiver.inner)) else Revert(TransferFailed)
  }

  function Apply(s: State, tx: Tx): Result {
    match tx.call
    case Enter(epoch, position, amount) => OnEnter(s, tx.world, tx.sender, epoch, position, amount)
    case Claim(epochs, receiver) => Deliver(ClaimEffects(s, tx.sender, epochs), tx.world.now, receiver)
    case SweepToBurner(receiver) => Deliver(SweepEffects(s), tx.world.now, receiver)
    case _ => ApplyUnguarded(s, tx)
  }

  /** A reverted transaction leaves no trace. */
  function Step(s: State, tx: Tx): State {
    match Apply(s, tx) case Ok(s') => s' case Revert(_) => s
  }

  function Run(s: State, txs: seq<Tx>): State
    decreases |txs|
  {
    if txs == [] then s else Run(Step(s, txs[0]), txs[1..])
  }

  /** Block times never go backwards. */
  predicate Chronological(now: nat, txs: seq<Tx>)
    decreases |txs|
  {
    txs == [] || (now <= txs[0].world.now && Chronological(txs[0].world.now, txs[1..]))
  }

  function EndTime(now: nat, txs: seq<Tx>): nat {
    if txs == [] then now else txs[|txs| - 1].world.now
  }

  // ---- views --------------------------------------------------------------------------

  /** The derived phase; None is a revert. */
  function PhaseOf(s: State, w: World, epoch: nat): Option<Phase> {
    var r := s.RoundOf(epoch);
    match r.status
    case Pending => Some(Phase.Pending)
    case Cancelled => Some(Phase.Cancelled)
    case Settled => Some(Phase.Settled)
    case _ =>
      if CancelBreaks(s, w, epoch) then None
      else if IsCancellable(s, w, epoch) then Some(Phase.Cancellable)
      else if r.status.Open? then Some(if w.now < r.lockTimestamp then Phase.Open else Phase.AwaitingLock)
      else Some(if w.now < r.closeTimestamp then Phase.Live else Phase.AwaitingSettle)
  }

  datatype Work = Lock | Settle | Cancel | Nothing

  /** What a keeper could usefully do about one epoch right now. */
  function WorkFor(s: State, w: World, epoch: nat): Work {
    var r, t := s.RoundOf(epoch), s.TermsOf(epoch);
    if IsCancellable(s, w, epoch) then Work.Cancel
    else if r.status.Open? && w.now >= r.lockTimestamp && ProbeOf(w, t, r.lockTimestamp) then Work.Lock
    else if r.status.Locked? && w.now >= r.closeTimestamp && ProbeOf(w, t, r.closeTimestamp) then Work.Settle
    else Work.Nothing
  }

  /** The work scan asks the probe of every due round. */
  predicate WorkBreaks(s: State, w: World, epoch: nat) {
    var r := s.RoundOf(epoch);
    Unresolved(r) && w.now >= DueInstant(r) && ProbeIsBad(w, s.TermsOf(epoch), DueInstant(r))
  }

  /** The epochs from `first` up to but not including `end` with one kind of work, in order. */
  function WorkList(s: State, w: World, work: Work, first: nat, end: nat): seq<nat>
    decreases end
  {
    if end <= first then []
    else WorkList(s, w, work, first, end - 1) + (if WorkFor(s, w, end - 1) == work then [end - 1] else [])
  }
}
