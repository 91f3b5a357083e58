/** The stored entities of the prediction market and the transactions that reach it. */
module MarketTypes {
  import opened Util

  type Address = nat

  const MAX_BURN_FEE_BPS: nat := 1_000
  const MIN_INTERVAL: nat := 60
  const MAX_INTERVAL: nat := 86_400
  const MIN_TWAP_WINDOW: nat := 30
  const MAX_TWAP_WINDOW: nat := 86_400
  const MIN_BUFFER_SECONDS: nat := 900
  const MAX_BUFFER_SECONDS: nat := 604_800
  const CONFIG_TIMELOCK: nat := 172_800
  const MAX_SCAN_ROUNDS: nat := 64

  datatype Position = Bull | Bear

  datatype Status = Pending | Open | Locked | Settled | Cancelled

  datatype Outcome = Undecided | Bull | Bear | Tie | NoContest | AllLost

  datatype Phase =
    | Pending | Open | AwaitingLock | Live | AwaitingSettle | Settled | Cancelled | Cancellable

  datatype Round = Round(
    epoch: nat,
    startTimestamp: nat,
    lockTimestamp: nat,
    closeTimestamp: nat,
    lockPrice: nat,
    closePrice: nat,
    totalAmount: nat,
    bullAmount: nat,
    bearAmount: nat,
    rewardBaseAmount: nat,
    rewardAmount: nat,
    status: Status)

  datatype Terms = Terms(
    oracle: Address,
    twapWindow: nat,
    burnFeeBps: nat,
    oracleVersion: nat,
    lockTick: int,
    closeTick: int,
    lockedAt: nat,
    settledAt: nat,
    outcome: Outcome)

  datatype Bet = Bet(position: Position, amount: nat, claimed: bool)

  /** What an unwritten storage slot reads as. */
  const EmptyRound := Round(0, 0, 0, 0, 0, 0, 0, 0, 0, 0, 0, Status.Pending)
  const EmptyTerms := Terms(0, 0, 0, 0, 0, 0, 0, 0, Outcome.Undecided)
  const EmptyBet := Bet(Position.Bull, 0, false)

  type Book = map<Address, Bet>

  /** The contract's storage, with its ETH balance and the part of it that was forced in. */
  datatype State = State(
    currentEpoch: nat,
    oracle: Address,
    burner: Address,
    interval: nat,
    twapWindow: nat,
    bufferSeconds: nat,
    burnFeeBps: nat,
    minimumBet: nat,
    maximumBet: nat,
    maximumRoundPool: nat,
    burnAllocated: nat,
    totalLiabilities: nat,
    rounds: map<nat, Round>,
    terms: map<nat, Terms>,
    ledger: map<nat, Book>,
    pendingFeeBps: nat,
    pendingFeeReadyAt: nat,
    pendingOracle: Address,
    pendingOracleReadyAt: nat,
    paused: bool,
    balance: nat,
    forced: nat)
  {
    function RoundOf(epoch: nat): Round {
      if epoch in rounds then rounds[epoch] else EmptyRound
    }

    function TermsOf(epoch: nat): Terms {
      if epoch in terms then terms[epoch] else EmptyTerms
    }

    function BookOf(epoch: nat): Book {
      if epoch in ledger then ledger[epoch] else map[]
    }

    function BetOf(epoch: nat, account: Address): Bet {
      if account in BookOf(epoch) then BookOf(epoch)[account] else EmptyBet
    }
  }

  /** What comes of asking an oracle for a price at an instant: a revert, which the market catches, a price,
      or data that does not decode as one, which reverts the market's own call. */
  datatype Quote = Reverted | Quoted(price: nat, tick: int) | BadQuote

  /** What comes of asking whether it could quote; a caught revert counts as a no. */
  datatype Probe = Yes | No | BadProbe

  /** What comes of asking for its version. */
  datatype Version = NoVersion | Version(number: nat) | BadVersion

  /** Everything outside the contract that a call may read: the clock and the oracles. */
  datatype World = World(
    now: nat,
    quote: (Address, nat, nat) -> Quote,
    probe: (Address, nat, nat) -> Probe,
    version: Address -> Version)

  datatype Role = Admin | Operator | Pauser | Config

  datatype Error =
    | ZeroAddress | AlreadyStarted | NotStarted | RoundNotFound | RoundNotOpen | EntriesClosed
    | AlreadyEntered | StakeBelowMinimum | StakeAboveMaximum | RoundPoolExceeded
    | NotYetLockable | NotYetSettleable | PriceUnavailable | RoundNotCancellable
    | NothingToClaim | AlreadyClaimed | TransferFailed | FeeTooHigh | OutOfBounds
    | InvalidBetLimits | NoPendingChange | TimelockNotElapsed | BurnSweepOverdraw
    | ToleranceExceedsScanWindow | OracleReverted | UndecodableAnswer
    | EnforcedPause | ExpectedPause | Unauthorized | ReentrantCall | Panic

  datatype Result = Ok(state: State) | Revert(error: Error)

  datatype Call =
    | Enter(epoch: nat, position: Position, amount: nat)
    | GenesisStartRound
    | ExecuteRound
    | StartNextRound
    | LockRound(epoch: nat)
    | SettleRound(epoch: nat)
    | CancelRound(epoch: nat)
    | EmergencyCancelRound(epoch: nat)
    | Claim(epochs: seq<nat>, receiver: Receiver)
    | SweepToBurner(receiver: Receiver)
    | ForceEther(amount: nat)
    | Pause
    | Unpause
    | ProposeBurnFee(bps: nat)
    | CommitBurnFee
    | CancelPendingFee
    | ProposeOracle(next: Address)
    | CommitOracle
    | CancelPendingOracle
    | SetInterval(value: nat)
    | SetTwapWindow(value: nat)
    | SetBufferSeconds(value: nat)
    | SetMinimumBet(value: nat)
    | SetMaximumBet(value: nat)
    | SetMaximumRoundPool(value: nat)
    | SetBurner(next: Address)

  /** Code that runs when ETH arrives: whether it accepts, and what it calls back. */
  datatype Receiver = Receiver(accepts: bool, inner: seq<Tx>)

  datatype Tx = Tx(sender: Address, roles: set<Role>, world: World, call: Call)

  const Passive := Receiver(true, [])

  datatype InitParams = InitParams(
    admin: Address, burner: Address, oracle: Address, interval: nat, twapWindow: nat,
    bufferSeconds: nat, burnFeeBps: nat, minimumBet: nat, maximumBet: nat, maximumRoundPool: nat)
}
