# Verified model of the PONS prediction market

A Dafny model of a parimutuel prediction market on the PONS price, of the oracle stack that prices
its rounds, of the burner that spends its fees, and of the client and indexer mirrors of its state.
`dafny verify dfyconfig.toml` checks all of it.

## What is modelled

**The market** (`MarketTypes`, `MarketSpec`, `Ledger`, `MarketInvariant`, `MarketHistory`,
`MarketPricing`, `MarketLiveness`, `MarketClaims`, `MarketAcceptance`, `MarketGovernance`,
`PonsPrediction`). Every external call of `PonsPrediction.sol` is a transition on a state value that
includes the ETH balance and the part of it that was forced in. A transaction carries its sender,
roles, clock and what every oracle would answer: a value, a revert that is caught, or data that does
not decode, which is not. A receiver of ETH may call back any number of times; lifecycle and configuration calls are unguarded and take
effect, guarded ones revert. `MarketAcceptance` states, without the transitions' own vocabulary, when
each call is accepted and what it changes; `MarketGovernance` carries timelocks and pauses over runs.
`PonsPrediction.Market` is the contract as a class whose methods update the storage fields step by
step; each is proved to be its transition, with the books balanced at the point where ETH leaves.

**The oracle stack** (`TickPriceMath`, `ObservationPool`, `PoolHistory`, `MockUniswapV3Pool`,
`UniswapV3PonsOracle`, `Median`, `CompositePonsOracle`, `CompositeProperties`, `OracleFeeds`). The
pool's observation ring, with its write, grow, search and interpolation rules, is proved to summarise
the sequence of ticks that each second ended with (sections 5.1 and 6.1 of the Uniswap v3 Core
whitepaper describe the rules). Oracle answers are then functions of that sequence, which discharges
the market's assumption that a price is a function of instant and window. The tick table is taken to
be non-decreasing with values in its published range, and `mulDiv` to be the floored product quotient.

**The burner** (`BurnerSpec`, `BurnerInvariant`, `BurnerTargets`, `BurnerFloor`, `PonsBuybackBurner`).
Allocation of received ETH, the tumbling spending limit, and buybacks around a swap that may call back
and may return any amount.

**The mirrors** (`Sdk`, `ReadModel`, `Indexer`, `Replay`, `ChainMirror`, `UserMirror`). The client
library's payout arithmetic, the indexer's upserts as transitions on tables, and the two together: the logs of every
run of the market rebuild its storage.

## Where the code and its text differ

The code is followed in each case.

- The accounting and round-lifecycle documents describe an earlier version: a 5% fee cap, and a refund
  whenever one side is empty. The code caps the fee at 10% and burns the whole pot when every entry lost.
- The comment in the burner's `receive` gives the rounding remainder to the first target; the code
  gives it to the second (`BurnerInvariant.SplitMatchesSdk`).
- The oracle document says an unsealed reading of a past instant depends on the live tick and so can
  differ between callers. Under the pool's write rule it cannot: any swap that would move it first
  records the old tick (`UniswapV3PonsOracle.SealingFixesNothingNew`). Sealing decides when an instant
  may be quoted, not its value.
- The comment at `_quote` and the oracle document say a broken or hostile oracle leaves a round
  refundable. It does exactly when the pinned oracle gives a usable price or its probe says no
  (`MarketLiveness.MovesUnlessJammed`). Otherwise nobody can lock, settle or cancel the round, and there
  are three ways to get there: a window whose price is zero, which the adapter's probe promises
  (`OracleFeeds.PoolsMoveRounds` gives the condition over pools, `OracleFeeds.PoolsCanStickMoney` a run);
  a malformed accumulator, which the document says ends in a refund and which the single-pool probe never
  reads (`UniswapV3PonsOracle.MalformedPoolJams`); and answers that do not decode, which a `try` does not
  catch (`MarketLiveness.BrokenOracleTrapsMoney`). The last also stops `executeRound` for every other
  round while the round is scanned (`MarketLiveness.BrokenOracleBlocksAll`).
- The comment at the version read says it cannot halt the schedule. A version that does not decode does
  (`MarketLiveness.StartsUnlessVersionBreaks`).
- Scan completeness can fail after the interval is raised
  (`MarketLiveness.RaisingTheIntervalHidesLiveRounds`). It holds exactly while the newest unresolved round
  below the scan is past its close plus the tolerance (`MarketLiveness.ScanCompleteExactly`), a condition
  that can be tested before the change (`MarketLiveness.RaiseHidesExactly`) and that holds in every run
  that raises no interval (`MarketLiveness.ScanIsCompleteUntilRaised`).
- A winner can be refused: the claim of a winning stake succeeds exactly when its floored share is not
  zero (`MarketClaims.WinnerCollectsUnlessFlooredAway`, `MarketClaims.OneWeiCanFloorAway`).
- The burner's floor is taken on the amount narrowed to 128 bits. The quote behind it is the quote for
  the whole amount exactly when the amount is below 2^128 (`TickPriceMath.NarrowingExactly`), and a
  multiple of 2^128 has no floor (`BurnerInvariant.MultipleHasNoFloor`).

## Model

| member | source | states |
|---|---|---|
| MarketInvariant.RunKeepsInv | packages/contracts/src/PonsPrediction.sol:289-694 | Over every run of calls, by anyone and nested in any way, liabilities equal the sum over rounds of what each still owes, the balance is exactly liabilities plus burn allocation plus forced ETH, and every round stays consistent with its ledger and its neighbours. |
| MarketInvariant.StepKeepsInv | packages/contracts/src/PonsPrediction.sol:289-694 | One transaction, including everything its receiver calls back, keeps that invariant. |
| MarketInvariant.SolventAtEverySend | packages/contracts/src/PonsPrediction.sol:663-666 | At the moment ETH leaves and after each prefix of the calls the receiver makes, the books balance. |
| MarketInvariant.ConstructInv | packages/contracts/src/PonsPrediction.sol:250-278 | A deployment with accepted parameters satisfies the invariant. |
| MarketInvariant.EnterKeepsInv | packages/contracts/src/PonsPrediction.sol:289-326 | An accepted entry keeps the invariant: pools, ledger, liabilities and balance move together. |
| MarketInvariant.CreateKeepsInv | packages/contracts/src/PonsPrediction.sol:435-477 | Appending a round that takes its times from the head keeps the invariant, with rounds existing exactly for 1 to the new head and linked. |
| MarketInvariant.LockKeepsInv | packages/contracts/src/PonsPrediction.sol:479-491 | Recording a lock price keeps the invariant. |
| MarketInvariant.SettleKeepsRound | packages/contracts/src/PonsPrediction.sol:503-534 | Settlement records the outcome derived from pools and prices and leaves the round owing exactly its pot less the fee. |
| MarketInvariant.SettleKeepsInv | packages/contracts/src/PonsPrediction.sol:493-545 | On a due locked round settlement succeeds exactly when the close price is available; the fee never underflows the liabilities. |
| MarketInvariant.VoidKeepsInv | packages/contracts/src/PonsPrediction.sol:400-429 | Cancelling an open or locked round keeps the invariant, the round now owing every unclaimed stake. |
| MarketInvariant.ScanTurnKeepsInv | packages/contracts/src/PonsPrediction.sol:350-358 | One turn of the execute loop keeps the invariant and is one step of the scan. |
| MarketInvariant.ScanKeepsInv | packages/contracts/src/PonsPrediction.sol:350-358 | The execute loop fails if and only if some scanned round needs a price answer that does not decode, and otherwise keeps the invariant. |
| MarketInvariant.ExecuteKeepsInv | packages/contracts/src/PonsPrediction.sol:345-365 | Once a round exists and the market is not paused, the whole execute call fails if and only if a due round in the scan needs a price answer that does not decode, or the next round is due and the oracle's version does not; otherwise it keeps the invariant. |
| MarketInvariant.ClaimMovesOwed | packages/contracts/src/PonsPrediction.sol:643-661 | Marking one entry claimed lowers what its round owes by exactly the amount paid. |
| MarketInvariant.ClaimKeepsInv | packages/contracts/src/PonsPrediction.sol:604-627 | A claim that passes its checks can always be paid: neither liabilities nor balance underflow. |
| MarketInvariant.SweepKeepsInv | packages/contracts/src/PonsPrediction.sol:687-693 | A sweep can be paid exactly when the burn allocation is positive, and keeps what is owed to users covered. |
| MarketInvariant.ConfigureKeepsInv | packages/contracts/src/PonsPrediction.sol:699-796 | No configuration change can break the invariant. |
| MarketInvariant.FeeWithinTotal | packages/contracts/src/PonsPrediction.sol:530-532 | A fee within the cap is at most a tenth of the pot. |
| Ledger.DustBelowWinners | packages/contracts/src/PonsPrediction.sol:654-660 | Winners' floored shares sum to at most the reward and fall short by less than the number of winners. |
| Ledger.PaidPlusDue | packages/contracts/src/PonsPrediction.sol:604-660 | What winners have collected plus what they can still collect is the sum of all their shares. |
| Ledger.TotalUpdate | packages/contracts/src/PonsPrediction.sol:302-316 | Changing one entry changes a ledger sum by the difference of its weights. |
| MarketHistory.ReentrancyAddsNothing | packages/contracts/src/PonsPrediction.sol:604-694 | A call whose receiver calls back reaches a state that plain calls in the same block reach. |
| MarketHistory.FlattenRun | packages/contracts/src/PonsPrediction.sol:604-694 | Every run with reentrancy ends where some chronological run without it ends. |
| MarketHistory.CallsRun | packages/contracts/src/PonsPrediction.sol:604-694 | Every run is its calls, reentrant ones included, made one after another as plain calls in time order. |
| MarketHistory.RunEvolves | packages/contracts/src/PonsPrediction.sol:289-545 | Over any run: schedule, oracle, window and fee stay as pinned; statuses follow Pending, Open, Locked, Settled with Cancelled from the middle two; pools and stakes are frozen from the lock time on; settled results never change; claims are never undone. |
| MarketHistory.ContestedRewardIsNinetyPercent | packages/contracts/src/PonsPrediction.sol:528-533 | A contested round's reward is at least nine tenths of its pot. |
| MarketHistory.OnlyConfigurationChangesSettings | packages/contracts/src/PonsPrediction.sol:699-796 | No call but a configuration call changes any setting. |
| MarketHistory.ChangesWereProposedTwoDaysEarlier | packages/contracts/src/PonsPrediction.sol:707-743 | Whenever a call of a run, reentrant ones included, changes the fee or the oracle, an earlier call of the run proposed exactly that value at least 172,800 seconds before, succeeded, and came from an account with the configuration role. |
| MarketHistory.ScheduleIncreases | packages/contracts/src/PonsPrediction.sol:435-449 | For epochs m < n every time of n is later than the same time of m, and neighbours share their boundaries. |
| MarketHistory.ScheduleCannotDrift | packages/contracts/src/PonsPrediction.sol:334-339 | Over every run in which no call, reentrant ones included, sets the interval, round n locks exactly n intervals after genesis and closes one later, however late calls land. |
| MarketHistory.NewRoundTakesSettings | packages/contracts/src/PonsPrediction.sol:435-477 | A call opens at most one round, one interval long and pinned to the oracle, window and fee in force. |
| MarketHistory.EtherIsConserved | packages/contracts/src/PonsPrediction.sol:289-694 | Over every run, reentrant calls counted, the balance is what it was plus all ETH that came in less all paid out, and it is exactly forced ETH plus what is owed plus the burn allocation. |
| MarketHistory.OthersKeepRounds | packages/contracts/src/PonsPrediction.sol:604-796 | Claims, sweeps, forced ETH and configuration never touch a round, its terms or the head. |
| MarketAcceptance.ConstructExactly | packages/contracts/src/PonsPrediction.sol:250-278 | Deployment is accepted if and only if no address is zero, the bounds, the 64-round scan, the tenth fee cap and the order of the stake limits hold; storage is then exactly the parameters. |
| MarketAcceptance.EnterExactly | packages/contracts/src/PonsPrediction.sol:289-326 | An entry is accepted if and only if the market runs, the round is open with the clock in [start, lock), the stake is within the limits and is the account's first; it adds to its side, its account, the liabilities and the balance and to nothing else. |
| MarketAcceptance.EnterRefusals | packages/contracts/src/PonsPrediction.sol:289-307 | Which of its conditions a refused entry names. |
| MarketAcceptance.GenesisExactly | packages/contracts/src/PonsPrediction.sol:334-339 | Round 1 opens if and only if the operator starts a running market that has no round and whose oracle's version decodes or is caught; its times are the clock and one and two intervals later, its terms those in force. |
| MarketAcceptance.StartExactly | packages/contracts/src/PonsPrediction.sol:370-374 | Any account opens the next round if and only if the market runs, the head has reached its lock time and the version decodes or is caught; its times are the head's lock and close and one interval more. |
| MarketAcceptance.LockExactly | packages/contracts/src/PonsPrediction.sol:377-385 | A lock is accepted if and only if the round is open, its lock time has come and its own oracle gives a positive price for that time and its own window; it stores that price, tick and time. |
| MarketAcceptance.SettleExactly | packages/contracts/src/PonsPrediction.sol:388-396 | A settlement is accepted if and only if the round is locked, its close time has come and its own oracle gives a positive price for it; it changes nothing beyond the round, its terms and what moves from the liabilities to the burn allocation. |
| MarketAcceptance.SettleDecides | packages/contracts/src/PonsPrediction.sol:503-534 | From pools and prices alone: a side wins if and only if the price moved its way and both sides are staked; what is burned, the reward and its base follow for each outcome. |
| MarketAcceptance.PriceRefusals | packages/contracts/src/PonsPrediction.sol:377-396 | Why a lock or a settlement is refused: too early, undecodable, or no price yet. |
| MarketAcceptance.CancelExactly | packages/contracts/src/PonsPrediction.sol:582-595 | Anyone voids a round if and only if more than the whole tolerance has passed since its due instant and its own probe for that instant says no; the Cancellable phase is exactly that condition. |
| MarketAcceptance.EmergencyExactly | packages/contracts/src/PonsPrediction.sol:413-429 | An emergency cancel is accepted if and only if the sender is a pauser and the round is open before its lock time, or the price that is due is denied by its own probe. |
| MarketAcceptance.PhaseExactly | packages/contracts/src/PonsPrediction.sol:866-879 | Every other phase, and when the view fails, from the status, the times and the probe. |
| MarketAcceptance.WorkExactly | packages/contracts/src/PonsPrediction.sol:902-918 | Which work a keeper is told of for an epoch, and when the view fails, from the status, the times and the probe. |
| MarketAcceptance.ClaimExactly | packages/contracts/src/PonsPrediction.sol:604-661 | A claim of one round is accepted if and only if something is due, read off the round and the entry, and the receiver takes it; it marks the entry and pays exactly that. |
| MarketAcceptance.ClaimRefusals | packages/contracts/src/PonsPrediction.sol:604-627 | Why a claim is refused: claimed before, nothing due, or ETH not taken. |
| MarketAcceptance.RefusedTransferLeavesNoTrace | packages/contracts/src/PonsPrediction.sol:663-666 | A claim or a sweep whose receiver refuses the ETH changes nothing. |
| MarketAcceptance.SweepExactly | packages/contracts/src/PonsPrediction.sol:687-693 | A sweep is accepted if and only if something is allocated and the burner takes it, and pays out the whole allocation. |
| MarketAcceptance.PauseExactly | packages/contracts/src/PonsPrediction.sol:699-705 | The pauser alone pauses a running market and unpauses a paused one; nothing else changes. |
| MarketAcceptance.BoundedSettersExactly | packages/contracts/src/PonsPrediction.sol:755-773 | Interval, window and tolerance: the role, the bounds as numbers, the one field set. |
| MarketAcceptance.LimitSettersExactly | packages/contracts/src/PonsPrediction.sol:775-796 | Stake limits and burner: the role, the condition, the one field set. |
| MarketAcceptance.FeeSettersExactly | packages/contracts/src/PonsPrediction.sol:707-748 | Proposing, committing and cancelling a fee: the role, the tenth cap, the two days, and what each changes. |
| MarketAcceptance.OracleSettersExactly | packages/contracts/src/PonsPrediction.sol:723-753 | The same for an oracle, which must give a version when it is proposed. |
| MarketGovernance.FeeCommitExactly | packages/contracts/src/PonsPrediction.sol:707-748 | At any point of any run, reentrant calls included, a fee commit succeeds if and only if the sender has the role and the last successful proposal, not replaced, committed or cancelled since, is at least 172,800 seconds old; the fee is then the proposed one. |
| MarketGovernance.OracleCommitExactly | packages/contracts/src/PonsPrediction.sol:723-753 | The same for the oracle, whose version must besides decode or be caught at the commit. |
| MarketGovernance.PauseHolds | packages/contracts/src/PonsPrediction.sol:699-705 | From an accepted pause on, through every run in which the pauser does not unpause, no entry is taken and no round opened, by a call of the run, a reentrant one or any call after it. |
| MarketGovernance.PauseStopsNothingElse | packages/contracts/src/PonsPrediction.sol:699-705 | Every other call, locks, settlements, cancels, claims, sweeps and settings, is accepted while paused exactly when it would be without the pause. |
| MarketGovernance.LimitsNeverCross | packages/contracts/src/PonsPrediction.sol:775-785 | Over every run from deployment the largest stake, if set, is no smaller than the smallest. |
| MarketPricing.ExecuteIsTheIndividualCalls | packages/contracts/src/PonsPrediction.sol:341-365 | Whenever it succeeds, the execute call reaches exactly the state of locking and settling each scanned epoch in turn, skipping calls that revert, and then one start call. |
| MarketPricing.RunSettlesAsForetold | packages/contracts/src/PonsPrediction.sol:479-545 | Whatever a run does, a round it leaves settled, whether it existed before the run or not, carries the verdict computed from its pools, schedule, pinned terms and the oracle alone. |
| MarketPricing.ResultIsFixedOnceEntriesClose | packages/contracts/src/PonsPrediction.sol:479-545 | From the lock time on, the verdict a round will settle with is already determined, whoever calls, when, in what order and however nested. |
| MarketPricing.Confluence | packages/contracts/src/PonsPrediction.sol:345-545 | Two runs from one state that settle a round on the same schedule and rules with the same stakes record the same prices, outcome, reward base, reward and fee, even when the round is opened only by the runs. |
| MarketPricing.ConfluenceOnceOpen | packages/contracts/src/PonsPrediction.sol:345-545 | For a round that exists when the runs begin, the same stakes alone are enough. |
| MarketPricing.ConfluenceFromDeployment | packages/contracts/src/PonsPrediction.sol:334-339 | Two runs that begin before any round exists, make no call that sets the interval, the window, the fee or the oracle, and start round 1 at the same time give every round the same schedule and rules, so with the same stakes the same verdict. |
| MarketPricing.RulesFixSchedule | packages/contracts/src/PonsPrediction.sol:334-449 | In such a run round n starts, locks and closes n - 1, n and n + 1 intervals after genesis and is pinned to the settings the run began with. |
| MarketPricing.SameStakesSameTotals | packages/contracts/src/PonsPrediction.sol:310-318 | Ledgers with the same stakes have the same side totals. |
| MarketLiveness.PhasePredictsCalls | packages/contracts/src/PonsPrediction.sol:866-879 | Cancelling succeeds exactly in the Cancellable phase; phase and probe predict the lock and settle calls if and only if the round is not due or its own oracle, for its own instant and window, says yes exactly when it delivers a price. |
| MarketLiveness.EntryOnlyWhileOpen | packages/contracts/src/PonsPrediction.sol:289-296 | An entry is accepted exactly when the phase is Open, the market is not paused, the limits hold and the account has no stake in the round. |
| MarketLiveness.WorkListIsExact | packages/contracts/src/PonsPrediction.sol:902-922 | A work list is strictly increasing and holds exactly the scanned epochs of its kind. |
| MarketLiveness.WorkIsTheCallThatSucceeds | packages/contracts/src/PonsPrediction.sol:902-918 | The work named for an epoch is exactly the individual call that would succeed on it, if and only if the round is not due or its own probe and quote agree. |
| MarketLiveness.MovesUnlessJammed | packages/contracts/src/PonsPrediction.sol:377-429 | Past its due instant plus the tolerance, some call by an account without roles moves an unresolved round on if and only if its pinned oracle gives a usable price for that instant or its probe says no. |
| MarketLiveness.JammedRoundStays | packages/contracts/src/PonsPrediction.sol:377-429 | While a due round's oracle does neither, no run of calls, by whatever role and nested in whatever way, changes the round. |
| MarketLiveness.NextCallProgresses | packages/contracts/src/PonsPrediction.sol:377-406 | Once the head is past its close and tolerance, and every price still needed is given or denied, some permissionless call strictly lowers the number of missing status moves, paused or not. |
| MarketLiveness.EveryRoundResolves | packages/contracts/src/PonsPrediction.sol:377-406 | From any reachable state with time past the head's close and tolerance, finitely many lock, settle and cancel calls by anyone take every round to Settled or Cancelled, when each price that an unresolved round still needs is given or its probe says no. |
| MarketLiveness.MoneyCanBeStuck | packages/contracts/src/PonsPrediction.sol:547-572 | From deployment, genesis and one entry: over every run in which the pinned oracle gives no lock price and its probe does not say no, the round stays open, its stake owed and nothing claimable. |
| MarketLiveness.BrokenOracleBlocksAll | packages/contracts/src/PonsPrediction.sol:549-569 | While neither the quote nor the probe of a due round decodes, its lock or settle, cancel and emergency cancel calls revert for every role, and so does the execute call as long as the round is scanned. |
| MarketLiveness.BrokenOracleTrapsMoney | packages/contracts/src/PonsPrediction.sol:723-743 | A run that proposes, adopts and enters under an oracle with a version and nothing else that decodes; over every later run in which it stays so the round stays open with its stake owed and nothing claimable. |
| MarketLiveness.StartsUnlessVersionBreaks | packages/contracts/src/PonsPrediction.sol:464-474 | The next round opens if and only if the market runs, the head has stopped taking entries and the oracle's version decodes or is caught; otherwise the due execute call reverts as well. |
| MarketLiveness.StepVoidsExactly | packages/contracts/src/PonsPrediction.sol:400-429 | A call voids a round if and only if it cancels it more than the tolerance after the due instant while the round's own probe says no, or is an emergency cancel by the pauser before the lock time or while the due price is denied. |
| MarketLiveness.VoidingNeedsGrounds | packages/contracts/src/PonsPrediction.sol:400-429 | In any run a round is voided only if some call, as it takes effect, has one of those two grounds: a call without the pauser role never voids a round before the whole tolerance has passed. |
| MarketLiveness.PricedRoundIsNeverVoided | packages/contracts/src/PonsPrediction.sol:400-429 | From its lock time on, a round whose own probe never says no to the price it needs at that moment, the lock price while open and the close price once locked, is cancelled by nobody, whatever their role, in any run. |
| MarketLiveness.ClampNeverCuts | packages/contracts/src/PonsPrediction.sol:574-580 | The 64-round clamp never shortens the scan. |
| MarketLiveness.ScanMissesNothing | packages/contracts/src/PonsPrediction.sol:574-580 | While no older round is shorter than the interval, every unresolved round below the scan is already past its close plus tolerance. |
| MarketLiveness.ScanIsCompleteUntilRaised | packages/contracts/src/PonsPrediction.sol:574-580 | From deployment, over every run in which no call, reentrant ones included, raises the interval, each round the scan no longer reaches is strictly past its close plus tolerance. |
| MarketLiveness.ScanCompleteExactly | packages/contracts/src/PonsPrediction.sol:574-580 | In any reachable state every unresolved round below the scan is past its close plus tolerance if and only if the newest such round is; and every round at all is, if and only if the one just below the scan is. |
| MarketLiveness.RaiseHidesExactly | packages/contracts/src/PonsPrediction.sol:755-760 | An interval change leaves the scan complete if and only if, with the span of the new value, the newest unresolved round below the new scan start is past its close plus tolerance. |
| MarketLiveness.RaisingTheIntervalHidesLiveRounds | packages/contracts/src/PonsPrediction.sol:755-760 | A concrete run that breaks that condition: raising the interval leaves a round out of the scan with ten minutes of its tolerance left. |
| MarketClaims.EveryEntitlementIsPayable | packages/contracts/src/PonsPrediction.sol:643-661 | Every positive entitlement is covered by what its round owes, so claiming it alone succeeds. |
| MarketClaims.WinnerCollectsUnlessFlooredAway | packages/contracts/src/PonsPrediction.sol:604-627 | A winner's claim succeeds exactly when the floored share is positive. |
| MarketClaims.OneWeiCanFloorAway | packages/contracts/src/PonsPrediction.sol:604-660 | A run from deployment, of entries of one and eighteen wei against one, a lock and a settlement at the ten per cent fee, whose one-wei winner is refused with NothingToClaim. |
| MarketClaims.WinnersArePaidUpToDust | packages/contracts/src/PonsPrediction.sol:654-660 | In any settled contested round winners' entitlements and payments together stay within the reward and within one wei per winner of it. |
| MarketClaims.DuplicateEpochsAreRejected | packages/contracts/src/PonsPrediction.sol:607-616 | A claim that names an epoch twice reverts. |
| MarketClaims.BatchingDoesNotMatter | packages/contracts/src/PonsPrediction.sol:604-627 | Claiming two lists at once succeeds if and only if claiming one and then the other does, and leaves the same state. |
| MarketClaims.OrderDoesNotMatter | packages/contracts/src/PonsPrediction.sol:604-627 | Any two orders of the same epochs, as multisets, are accepted or refused alike and leave the same state. |
| MarketClaims.SdkDerivesTheRecordedOutcome | packages/sdk/src/tokenomics.ts:95-110 | The library's outcome, derived from a round alone, is the one settlement recorded. |
| MarketClaims.SdkPayoutIsTheEntitlement | packages/sdk/src/payout.ts:71-84 | For an unclaimed entry the library's payout is the contract's winnings to the wei, and its refund test holds exactly when the stake is handed back. |
| MarketClaims.SettledStakeCollects | packages/sdk/src/payout.ts:58-68 | An unclaimed stake on the side the price moved to is owed the estimate made from the final pools less itself. |
| MarketClaims.EstimateIsExactForTheLastEntrant | packages/sdk/src/payout.ts:58-68 | Over every run after a positive stake enters that ends with the round settled, no further stake in it and the price moved to its side, the unclaimed stake is owed exactly the estimate made at entry, one-sided refunds included. |
| PonsPrediction.Market.constructor | packages/contracts/src/PonsPrediction.sol:250-278 | Deployment reaches the specified initial state, which satisfies the invariant. |
| PonsPrediction.Market.CheckEntry | packages/contracts/src/PonsPrediction.sol:289-308 | The entry guards refuse in the source's order and exactly when the specified transition does. |
| PonsPrediction.Market.Enter | packages/contracts/src/PonsPrediction.sol:280-326 | Entering is the specified transition, or reverts without trace. |
| PonsPrediction.Market.CreateRound | packages/contracts/src/PonsPrediction.sol:451-477 | Writes the schedule and pins the oracle, window, fee and version of a new round, and leaves no trace when the version does not decode. |
| PonsPrediction.Market.GenesisStartRound | packages/contracts/src/PonsPrediction.sol:334-339 | Opens round 1 from the clock, once, by the operator. |
| PonsPrediction.Market.OpenNext | packages/contracts/src/PonsPrediction.sol:435-449 | Opens the round after the head from the head's stored times, unless the version does not decode. |
| PonsPrediction.Market.StartNextRound | packages/contracts/src/PonsPrediction.sol:370-374 | The guarded public form of opening the next round. |
| PonsPrediction.Market.TryLock | packages/contracts/src/PonsPrediction.sol:479-491 | Records a lock price exactly when the oracle gives one, and reports a quote that does not decode. |
| PonsPrediction.Market.Decide | packages/contracts/src/PonsPrediction.sol:503-534 | The outcome is the one the client library derives from the round; fee and reward make up the pot of a contested round, the fee being its floored share; the whole pot is taken when every stake lost and nothing otherwise. |
| PonsPrediction.Market.TrySettle | packages/contracts/src/PonsPrediction.sol:493-545 | Settles exactly when the oracle gives a close price, booking the fee, and reports a quote that does not decode. |
| PonsPrediction.Market.LockRound | packages/contracts/src/PonsPrediction.sol:377-385 | The public lock call, with its guards. |
| PonsPrediction.Market.SettleRound | packages/contracts/src/PonsPrediction.sol:388-396 | The public settle call, with its guards. |
| PonsPrediction.Market.OldestUnresolved | packages/contracts/src/PonsPrediction.sol:574-580 | The scan starts at an existing round, reaches back at most 64 rounds, and unless cut to that or begun at round 1 reaches back more than two intervals beyond the tolerance, by at most one interval. |
| PonsPrediction.Market.Turn | packages/contracts/src/PonsPrediction.sol:350-358 | One turn of the execute loop, reporting exactly what it locked and settled, or that an answer did not decode. |
| PonsPrediction.Market.ScanRounds | packages/contracts/src/PonsPrediction.sol:350-358 | The loop over the scan window; its flags say exactly whether anything was locked or settled, or that an answer did not decode. |
| PonsPrediction.Market.ExecuteRound | packages/contracts/src/PonsPrediction.sol:345-365 | The execute call is the specified transition, its three flags are exact, and an answer that does not decode undoes all of it. |
| PonsPrediction.Market.CancelRound | packages/contracts/src/PonsPrediction.sol:400-406 | The permissionless void; MarketAcceptance.CancelExactly says when it is accepted. |
| PonsPrediction.Market.EmergencyCancelRound | packages/contracts/src/PonsPrediction.sol:413-429 | The pauser's void, refused wherever a price could decide the round; MarketAcceptance.EmergencyExactly says when it is accepted. |
| PonsPrediction.Market.Mark | packages/contracts/src/PonsPrediction.sol:607-617 | One turn of the claim loop. |
| PonsPrediction.Market.MarkEach | packages/contracts/src/PonsPrediction.sol:604-623 | The claim loop marks each epoch in turn and sums the specified amounts. |
| PonsPrediction.Market.TakeOff | packages/contracts/src/PonsPrediction.sol:604-625 | The storage effects of a claim: marks, then liabilities. |
| PonsPrediction.Market.Claim | packages/contracts/src/PonsPrediction.sol:604-627 | Guard, effects, then one ETH transfer during which the receiver may call back; the result is the specified transition. |
| PonsPrediction.Market.SweepToBurner | packages/contracts/src/PonsPrediction.sol:687-693 | The burn allocation leaves in full, with the same transfer rules. |
| PonsPrediction.Market.Send | packages/contracts/src/PonsPrediction.sol:663-666 | The transfer: the books balance when control leaves, and calls made meanwhile act as specified. |
| PonsPrediction.Market.Dispatch | packages/contracts/src/PonsPrediction.sol:377-429 | A call that arrives during a transfer acts as the specified reentrant call. |
| PonsPrediction.Market.SetInterval | packages/contracts/src/PonsPrediction.sol:755-760 | Bounds and tolerance are checked before the interval changes. |
| PonsPrediction.Market.SetBufferSeconds | packages/contracts/src/PonsPrediction.sol:768-773 | Bounds and tolerance are checked before the buffer changes. |
| PonsPrediction.Market.ProposeBurnFee | packages/contracts/src/PonsPrediction.sol:707-712 | Starts the fee timelock within the cap, with the number in MarketAcceptance.FeeSettersExactly. |
| PonsPrediction.Market.CommitBurnFee | packages/contracts/src/PonsPrediction.sol:714-721 | Takes the pending fee only after its timelock; MarketGovernance.FeeCommitExactly says when that is. |
| PonsPrediction.Market.ProposeOracle | packages/contracts/src/PonsPrediction.sol:723-730 | Starts the oracle timelock for an oracle that gives a version, with the number in MarketAcceptance.OracleSettersExactly. |
| PonsPrediction.Market.CommitOracle | packages/contracts/src/PonsPrediction.sol:732-743 | Takes the pending oracle only after its timelock; MarketGovernance.OracleCommitExactly says when that is. |
| PonsPrediction.Market.Configure | packages/contracts/src/PonsPrediction.sol:699-796 | Every role-gated setter is its specified transition, whose role, condition and one changed field the setter lemmas of MarketAcceptance state. |
| PonsPrediction.Market.CollectWork | packages/contracts/src/PonsPrediction.sol:894-922 | Fills and trims the three arrays with exactly the epochs of each kind. |
| PonsPrediction.Market.PendingWork | packages/contracts/src/PonsPrediction.sol:882-925 | The three lists over the scan window, and whether the next round is due; it fails exactly when the probe of a due round there does not decode. |
| PonsPrediction.Market.Solvency | packages/contracts/src/PonsPrediction.sol:935-939 | Holdings and obligations agree with the sum over rounds, and holdings are enough. |
| TickPriceMath.QuoteNeverOverflows | packages/contracts/src/libraries/TickPriceMath.sol:28-47 | For every tick in the domain and every 128-bit amount neither branch overflows a word; outside the domain the conversion reverts. |
| TickPriceMath.QuoteWithinOneUnit | packages/contracts/src/libraries/TickPriceMath.sol:34-46 | Below the precision seam the quote is the exact floored quotient; above it, it is at most one unit off, low for a token0 base and high for a token1 base. |
| TickPriceMath.QuoteMonotoneInTick | packages/contracts/src/libraries/TickPriceMath.sol:19-27 | Over the whole domain and across the seam the quote never falls with the tick for a token0 base and never rises for a token1 base. |
| TickPriceMath.HighPrecision0 | packages/contracts/src/libraries/TickPriceMath.sol:41-45 | Dropping 64 bits of the ratio lowers a token0 quote by at most one unit. |
| TickPriceMath.HighPrecision1 | packages/contracts/src/libraries/TickPriceMath.sol:41-45 | Dropping 64 bits of the ratio raises a token1 quote by at most one unit. |
| TickPriceMath.SeamOrdered | packages/contracts/src/libraries/TickPriceMath.sol:34-46 | Any low-branch quote and any high-branch quote are on the right sides of each other. |
| TickPriceMath.MeanTickIsFloor | packages/contracts/src/libraries/TickPriceMath.sol:56-67 | The truncated quotient with its correction is the floor for either sign, refused exactly when that floor leaves the tick domain. |
| TickPriceMath.NarrowingExactly | packages/contracts/src/PonsBuybackBurner.sol:216-216 | At every tick the quote for an amount narrowed to 128 bits is the quote for the amount if and only if the amount is below 2^128. |
| ObservationPool.AfterIsModulo | packages/contracts/src/vendor/uniswap/Oracle.sol:111-112 | The next ring slot is the successor modulo the cardinality. |
| ObservationPool.WriteAppends | packages/contracts/src/vendor/uniswap/Oracle.sol:89-115 | A write appends one entry to the live observations and, once the ring is full and not growing, drops the oldest. |
| ObservationPool.GrowKeepsLive | packages/contracts/src/vendor/uniswap/Oracle.sol:121-136 | Growing the ring, to at most 65,535 slots, changes no live observation and only raises the next cardinality. |
| ObservationPool.EarliestIsOldestLive | packages/contracts/src/oracle/UniswapV3PonsOracle.sol:226-238 | Before the ring wraps, after it wraps and through growth, the reported earliest instant is the minimum over all initialised slots. |
| PoolHistory.CreatedSummarises | packages/contracts/src/mocks/MockUniswapV3Pool.sol:34-46 | A new pool is an exact summary of an empty history. |
| PoolHistory.StepKeepsSummary | packages/contracts/src/mocks/MockUniswapV3Pool.sol:56-74 | Waiting, swapping and growing keep every observation equal to the sum of end-of-second ticks before it. |
| PoolHistory.RunKeepsSummary | packages/contracts/src/mocks/MockUniswapV3Pool.sol:56-74 | Over every run the ring stays an exact summary, history only grows, and newest and earliest instants only move forward. |
| PoolHistory.DisplacementLeavesNoTrace | packages/contracts/src/mocks/MockUniswapV3Pool.sol:64-74 | Swaps and growth within a second that end on the tick they started from change no answer: after any later events the disturbed and the undisturbed pool have the same history and tick, and read the same at every instant both still reach. |
| PoolHistory.InterpolationIsExact | packages/contracts/src/vendor/uniswap/Oracle.sol:301-316 | Interpolating between neighbours, dividing before multiplying, loses nothing. |
| PoolHistory.CumulativeIsIntegral | packages/contracts/src/vendor/uniswap/Oracle.sol:266-318 | At every instant the ring still reaches the accumulator is exactly the sum of the ticks the earlier seconds ended with. |
| PoolHistory.ObserveIsIntegral | packages/contracts/src/vendor/uniswap/Oracle.sol:266-318 | What observe answers is that sum, or nothing exactly when the instant is older than the earliest observation. |
| PoolHistory.AccumulatorFitsItsWord | packages/contracts/src/vendor/uniswap/Oracle.sol:18-20 | For up to 2^32 seconds the accumulator stays within its 56-bit word. |
| MockUniswapV3Pool.Probe | packages/contracts/src/vendor/uniswap/Oracle.sol:184-204 | What one probe of the search proves about where the answer lies. |
| MockUniswapV3Pool.Unrolled | packages/contracts/src/vendor/uniswap/Oracle.sol:170-186 | Which live entry, if any, sits at each unrolled ring position. |
| MockUniswapV3Pool.PairReadsCumulative | packages/contracts/src/vendor/uniswap/Oracle.sol:294-316 | Reading a surrounding pair gives the accumulator, whichever end the target falls on. |
| MockUniswapV3Pool.UniswapV3Pool.constructor | packages/contracts/src/mocks/MockUniswapV3Pool.sol:34-46 | Starts the ring with one observation. |
| MockUniswapV3Pool.UniswapV3Pool.IncreaseObservationCardinalityNext | packages/contracts/src/mocks/MockUniswapV3Pool.sol:56-60 | The growth loop marks exactly the new slots and keeps the ring sound. |
| MockUniswapV3Pool.UniswapV3Pool.WriteObservation | packages/contracts/src/vendor/uniswap/Oracle.sol:89-115 | Writes in place at most once per second, growing when the ring is at its end. |
| MockUniswapV3Pool.UniswapV3Pool.SwapToTick | packages/contracts/src/mocks/MockUniswapV3Pool.sol:64-74 | A swap records the tick from before it and then moves the tick. |
| MockUniswapV3Pool.UniswapV3Pool.BinarySearch | packages/contracts/src/vendor/uniswap/Oracle.sol:170-206 | Ends on the adjacent live observations around the target, past uninitialised slots and around the ring. |
| MockUniswapV3Pool.UniswapV3Pool.SurroundingObservations | packages/contracts/src/vendor/uniswap/Oracle.sol:217-254 | Returns a pair the accumulator can be read from, or refuses exactly when the ring is too short. |
| MockUniswapV3Pool.UniswapV3Pool.ObserveSingle | packages/contracts/src/vendor/uniswap/Oracle.sol:266-318 | Computes the specified accumulator value. |
| MockUniswapV3Pool.UniswapV3Pool.Observe | packages/contracts/src/vendor/uniswap/Oracle.sol:331-358 | Answers every requested instant, or none as soon as one is too old. |
| UniswapV3PonsOracle.WindowReading | packages/contracts/src/oracle/UniswapV3PonsOracle.sol:298-316 | Over any remembered window the mean tick is the floor of the average end-of-second tick, and an honest pool never trips the domain check. |
| UniswapV3PonsOracle.ProbeExactly | packages/contracts/src/oracle/UniswapV3PonsOracle.sol:209-224 | The probe says yes if and only if the window is of a second to a week, ends by now, lies within the span of the live observations and began less than 2^32 seconds ago. |
| UniswapV3PonsOracle.QuoteAgreement | packages/contracts/src/oracle/UniswapV3PonsOracle.sol:209-322 | A price implies a positive probe; a positive probe gives the price of the floored average tick, failing only if that price is zero. |
| UniswapV3PonsOracle.SoundAgreement | packages/contracts/src/oracle/UniswapV3PonsOracle.sol:284-322 | On any sound ring, honest or not, a positive probe leaves the price to fail only by a mean tick outside the domain or a quote that is zero or does not fit. |
| UniswapV3PonsOracle.MalformedPoolJams | packages/contracts/src/oracle/UniswapV3PonsOracle.sol:209-224 | A ring with a malformed accumulator, which no honest pool reaches: the probe says yes and the price fails with MeanTickOutOfRange. |
| UniswapV3PonsOracle.AnswerDependsOnSealedHistoryOnly | packages/contracts/src/oracle/UniswapV3PonsOracle.sol:13-21 | Two pools whose seconds up to the target ended on the same ticks answer alike, whatever else differs. |
| UniswapV3PonsOracle.DisplacementMovesNoPrice | packages/contracts/src/oracle/UniswapV3PonsOracle.sol:13-21 | Nor do they change any price that both pools can quote, after any later events. |
| UniswapV3PonsOracle.SealedAnswerNeverChanges | packages/contracts/src/oracle/UniswapV3PonsOracle.sol:23-37 | Once quotable, every later reading after any run is the same, and stays available exactly until the ring forgets the window start or it is 2^32 seconds old. |
| UniswapV3PonsOracle.GetPriceIsSealed | packages/contracts/src/oracle/UniswapV3PonsOracle.sol:191-197 | The published price is for the newest quotable instant, which the pool has sealed. |
| UniswapV3PonsOracle.SealingFixesNothingNew | packages/contracts/src/oracle/UniswapV3PonsOracle.sol:23-37 | For a past instant the ring already extrapolates to the value that sealing will record, whatever swaps come first. |
| Median.InsertAt | packages/contracts/src/oracle/CompositePonsOracle.sol:416-424 | One in-place insertion is the functional insertion, leaving the rest alone. |
| Median.Median | packages/contracts/src/oracle/CompositePonsOracle.sol:414-432 | The in-place sort leaves the array sorted as specified and returns the specified median. |
| Median.SortSorts | packages/contracts/src/oracle/CompositePonsOracle.sol:416-424 | Sorting orders the values and keeps every one of them. |
| Median.MedianIsMiddle | packages/contracts/src/oracle/CompositePonsOracle.sol:425-431 | Against any sorted arrangement of the sources: the middle one for an odd count, the floored midpoint of the middle two for an even count. |
| Median.MedianIgnoresOrder | packages/contracts/src/oracle/CompositePonsOracle.sol:414-432 | The median does not depend on source order. |
| Median.MedianMonotone | packages/contracts/src/oracle/CompositePonsOracle.sol:414-432 | Raising any source never lowers the median. |
| Median.MedianBetween | packages/contracts/src/oracle/CompositePonsOracle.sol:414-432 | Bounds on every source bound the median. |
| Median.MedianOfTwo | packages/contracts/src/oracle/CompositePonsOracle.sol:426-431 | With two sources neither is further from the median than half the spread, rounded up. |
| CompositePonsOracle.PriceAt | packages/contracts/src/oracle/CompositePonsOracle.sol:319-351 | The loop over sources, gate, in-place median and quote compute the specified price or the specified failure. |
| CompositePonsOracle.CanQuote | packages/contracts/src/oracle/CompositePonsOracle.sol:192-208 | The probe loop computes the specified answer, and reverts exactly when the first source without a tick has a mean outside the tick domain. |
| CompositePonsOracle.NewestCommonObservation | packages/contracts/src/oracle/CompositePonsOracle.sol:396-403 | The oldest of the sources' newest observations. |
| CompositePonsOracle.GatherCounts | packages/contracts/src/oracle/CompositePonsOracle.sol:333-341 | Gathering succeeds exactly when every source gives a tick, and then holds each source's tick in order. |
| CompositePonsOracle.StoppedStaysStopped | packages/contracts/src/oracle/CompositePonsOracle.sol:333-341 | The first source that does not answer decides the failure. |
| CompositeProperties.SourceSays | packages/contracts/src/oracle/CompositePonsOracle.sol:357-384 | A reachable source answers exactly when the window is sealed and remembered, with the floored average tick turned to the base token's side. |
| CompositeProperties.GateIsPairwise | packages/contracts/src/oracle/CompositePonsOracle.sol:343-344 | The gate on the extremes is the gate on every pair of sources. |
| CompositeProperties.ProbeIsExact | packages/contracts/src/oracle/CompositePonsOracle.sol:192-208 | The probe says yes exactly when the window is of a second to a week and ends by now, every source has sealed and remembers the window, and every pair of ticks is within the gate. |
| CompositeProperties.CompositeAgreement | packages/contracts/src/oracle/CompositePonsOracle.sol:192-351 | A price implies a positive probe; beside a positive probe the quote fails only by being zero. |
| CompositeProperties.AnsweredQuoteIsNearEverySource | packages/contracts/src/oracle/CompositePonsOracle.sol:18-36 | An answered tick lies between the extremes and within the gate of every source; with two sources within half the gate, rounded up, of both. |
| CompositeProperties.AnswerMonotoneInEverySource | packages/contracts/src/oracle/CompositePonsOracle.sol:346-349 | Raising any source's tick never lowers the answered tick or price. |
| CompositeProperties.AnswerIgnoresSourceOrder | packages/contracts/src/oracle/CompositePonsOracle.sol:333-350 | Reordering the sources changes neither the answer nor the failure. |
| CompositeProperties.CompositeAnswerNeverChanges | packages/contracts/src/oracle/CompositePonsOracle.sol:184-190 | Readings at different times agree whenever the sources' seconds up to the target ended alike. |
| CompositeProperties.CompositeStaysQuotable | packages/contracts/src/oracle/CompositePonsOracle.sol:192-208 | Once quotable, an instant stays quotable, after any events in any of the pools, if and only if every source remembers the window's start and it is less than 2^32 seconds old; and then the answer is the same. |
| CompositeProperties.GetPrice | packages/contracts/src/oracle/CompositePonsOracle.sol:176-182 | The published price is for an instant every source has sealed, and no later instant could be quoted. |
| OracleFeeds.SingleFeedAnswers | packages/contracts/src/oracle/UniswapV3PonsOracle.sol:199-206 | A single-pool feed only ever answers with the price its pool's history fixes. |
| OracleFeeds.CompositeFeedAnswers | packages/contracts/src/oracle/CompositePonsOracle.sol:184-190 | A composite feed only ever answers with the price its pools' histories fix. |
| OracleFeeds.FeedsAreHonest | packages/contracts/src/PonsPrediction.sol:547-560 | Oracles over reachable pools satisfy the assumption on which the market's results rest. |
| OracleFeeds.PoolsDecideRounds | packages/contracts/src/PonsPrediction.sol:19-30 | End to end: after every run a settled round's prices, outcome and shares are those of its stakes, its pinned terms and the pools' end-of-second ticks, and were already when its entries closed. |
| OracleFeeds.FeedAgreement | packages/contracts/src/oracle/UniswapV3PonsOracle.sol:209-322 | A feed over reachable pools whose probe says yes remembers the window, and fails to answer exactly when the window's tick quotes to zero. |
| OracleFeeds.PoolsMoveRounds | packages/contracts/src/PonsPrediction.sol:377-429 | Over pools, past its due instant plus the tolerance, anyone can move an unresolved round on if and only if not both the probe says yes and the due window's floored-average tick, or the median of them, quotes to zero. |
| OracleFeeds.PoolsResolveEveryRound | packages/contracts/src/PonsPrediction.sol:377-406 | Over pools, unless a window still needed quotes to zero, finitely many calls by anyone resolve every round. |
| OracleFeeds.LowPoolJams | packages/contracts/src/oracle/UniswapV3PonsOracle.sol:209-322 | A reachable pool on the lowest tick whose probe says yes while its price is zero. |
| OracleFeeds.PoolsCanStickMoney | packages/contracts/src/PonsPrediction.sol:547-572 | From deployment, with such a window remembered, no run moves the entered round or releases its stake. |
| OracleFeeds.ZeroIsSeen | packages/contracts/src/oracle/UniswapV3PonsOracle.sol:209-224 | Feeds, tapes and a world that meet that condition, over the pool above. |
| OracleFeeds.CompositeProbeExactly | packages/contracts/src/oracle/CompositePonsOracle.sol:192-208 | With every source holding the window, the composite's probe says yes if and only if the pools' average ticks are pairwise within the gate. |
| OracleFeeds.PoolsKeepPricedRounds | packages/contracts/src/PonsPrediction.sol:400-429 | Over pools, from its lock time on a round is cancelled by nobody in any run, as long as whenever it is due the pools behind its oracle have sealed and remember the due window and agree on it. |
| BurnerInvariant.RunKeepsInv | packages/contracts/src/PonsBuybackBurner.sol:146-199 | Over every run each target's ETH ever received equals allocated plus spent, the balance equals both allocations plus forced ETH, and the reported totals are sums over the buybacks that happened. |
| BurnerInvariant.ConservedThroughoutSwap | packages/contracts/src/PonsBuybackBurner.sol:176-190 | At every point of the swap, whatever it calls back, the same holds with the amount in flight. |
| BurnerInvariant.BuybackIsAlwaysFunded | packages/contracts/src/PonsBuybackBurner.sol:167-178 | A buyback within allocation and limit never lacks ETH. |
| BurnerInvariant.SpendingIsPaced | packages/contracts/src/PonsBuybackBurner.sol:220-228 | With unchanged limits every half-open interval of one rate window contains spending of at most twice the cap. |
| BurnerInvariant.BoundIsTight | packages/contracts/src/PonsBuybackBurner.sol:220-228 | From any state with twice the cap allocated and priced, three buybacks go through whose spends within one window's length add up to twice the cap less one wei. |
| BurnerInvariant.OneWindow | packages/contracts/src/PonsBuybackBurner.sol:220-228 | An interval of one window's length meets at most two tumbling windows. |
| BurnerInvariant.SplitMatchesSdk | packages/sdk/src/tokenomics.ts:79-82 | The library's split is the contract's: a floored share to the first target, the remainder to the second, no wei lost. |
| BurnerInvariant.BoughtAboveFloor | packages/contracts/src/PonsBuybackBurner.sol:173-193 | A completed buyback burned at least the caller's floor and at least nine tenths of the pool's time-weighted quote for the amount narrowed to 128 bits, up to rounding. |
| BurnerInvariant.BuybackAcceptedExactly | packages/contracts/src/PonsBuybackBurner.sol:159-199 | A buyback goes through if and only if its target is configured, the amount is allocated and fits beside what the current window has spent, the pool's floored mean tick is in the domain and quotes the amount mod 2^128, and the swap returns at least that quote less the tolerance and the caller's floor. |
| BurnerInvariant.BuybackBooksExactly | packages/contracts/src/PonsBuybackBurner.sol:173-199 | What a buyback that nothing calls back into changes: the amount leaves allocation and balance for the spending total and the window, what the swap returned is added to the burned total, and nothing else moves. |
| BurnerInvariant.LimitExactly | packages/contracts/src/PonsBuybackBurner.sol:220-228 | A spend is let through if and only if it fits beside what the current window has spent, and restarts a window that has run out. |
| BurnerTargets.ConstructExactly | packages/contracts/src/PonsBuybackBurner.sol:127-141 | Deployment is accepted if and only if both addresses are set, the shares add up to 10,000 and both targets are acceptable: a window of a minute to a day, at most a tenth of slippage, and a pool, if any, of wrapped ether and the token. |
| BurnerTargets.SetTargetExactly | packages/contracts/src/PonsBuybackBurner.sol:230-259 | Replacing a target is accepted if and only if the role, the index and the same conditions hold; its share stays, its direction is whether the pool's first token is wrapped ether, and nothing else changes. |
| BurnerTargets.NestedExactly | packages/contracts/src/PonsBuybackBurner.sol:146-265 | What each call but a buyback does, alone or during a swap. |
| BurnerTargets.TargetsFollowTheirPools | packages/contracts/src/PonsBuybackBurner.sol:230-259 | Over every run from deployment, retargeting during swaps included, each target's direction is what its own pool reports and the shares never change. |
| BurnerTargets.BoughtAboveThePoolsQuote | packages/contracts/src/PonsBuybackBurner.sol:159-218 | A buyback completed at any point of any run from deployment burned at least the caller's floor and nine tenths of the time-weighted quote in the direction the target's pool reports. |
| BurnerInvariant.MultipleHasNoFloor | packages/contracts/src/PonsBuybackBurner.sol:210-218 | A buyback of any multiple of 2^128 wei is accepted whatever non-negative amount the swap returns. |
| BurnerFloor.FloorReadsThePool | packages/contracts/src/PonsBuybackBurner.sol:210-218 | On a reachable pool the floor is taken on the floored average of the last window's end-of-second ticks. |
| PonsBuybackBurner.Burner.constructor | packages/contracts/src/PonsBuybackBurner.sol:127-141 | An accepted deployment stores the checked targets; BurnerTargets.ConstructExactly says which are accepted and what is stored. |
| PonsBuybackBurner.Burner.Receive | packages/contracts/src/PonsBuybackBurner.sol:146-153 | Splits what arrives between the two targets. |
| PonsBuybackBurner.Burner.SetTarget | packages/contracts/src/PonsBuybackBurner.sol:249-259 | Replaces a target after its checks, never its share; BurnerTargets.SetTargetExactly says when and with what. |
| PonsBuybackBurner.Burner.SetRateLimit | packages/contracts/src/PonsBuybackBurner.sol:261-265 | Replaces the limits. |
| PonsBuybackBurner.Burner.ConsumeRateLimit | packages/contracts/src/PonsBuybackBurner.sol:220-228 | The tumbling window: restart, underflow of a lowered cap, refusal, spend. |
| PonsBuybackBurner.Burner.Prepare | packages/contracts/src/PonsBuybackBurner.sol:164-174 | Every check before control leaves, in order. |
| PonsBuybackBurner.Burner.CallBack | packages/contracts/src/PonsBuybackBurner.sol:182-189 | Calls arriving during the swap act as specified while the books stay balanced. |
| PonsBuybackBurner.Burner.SwapAndBook | packages/contracts/src/PonsBuybackBurner.sol:176-198 | Withdrawal, swap, floor and totals. |
| PonsBuybackBurner.Burner.BuyAndBurn | packages/contracts/src/PonsBuybackBurner.sol:159-199 | A buyback is the specified transition or leaves no trace; a nested one is refused. |
| Indexer.Store.RecomputeRoundTotals | apps/indexer/src/handlers.ts:253-268 | Totals of an existing round become the sums over its bets. |
| Indexer.Store.RecomputeUser | apps/indexer/src/handlers.ts:270-288 | A user's row becomes the roll-up of their bets and claims; UserMirror.UsersAreTheEntrants says what each column then holds. |
| Indexer.Store.OnRoundLocked | apps/indexer/src/handlers.ts:66-90 | Round, observation and execution rows of a lock. |
| Indexer.Store.OnRoundSettled | apps/indexer/src/handlers.ts:92-135 | Round, observation, burn, user and execution rows of a settlement. |
| Indexer.Store.OnBet | apps/indexer/src/handlers.ts:145-163 | The bet row, then totals and roll-up recomputed from the bets. |
| Indexer.Store.OnPaid | apps/indexer/src/handlers.ts:165-178 | The claim row, then the roll-up. |
| Indexer.Store.ApplyLog | apps/indexer/src/handlers.ts:32-240 | One log has exactly its specified effect on every table. |
| Indexer.Store.ApplyAll | apps/indexer/src/indexer.ts:318-318 | A batch of logs is the fold of their effects. |
| Indexer.Total | apps/indexer/src/handlers.ts:261-262 | Summing rows in any order gives the column's sum. |
| Indexer.SumRemove | apps/indexer/src/handlers.ts:261-262 | A column's sum does not depend on the order rows are taken in. |
| Replay.ReplayIsNoOp | apps/indexer/src/handlers.ts:4-14 | Over a well-formed stream, re-applying any suffix to the finished tables leaves every table unchanged, totals and roll-ups included. |
| Replay.StreamTwice | apps/indexer/src/handlers.ts:32-299 | Applying a well-formed stream twice leaves every table as applying it once. |
| Replay.FoldKeepsDerived | apps/indexer/src/handlers.ts:252-288 | After every log, totals and roll-ups are what recomputing them would give, for exactly the accounts with activity. |
| Replay.MarkingWinnersIsIdle | apps/indexer/src/handlers.ts:291-299 | Refreshing the winners never changes a row. |
| Replay.ColumnsStep | apps/indexer/src/handlers.ts:54-143 | Each column of a round is written by its own kinds of log. |
| Replay.OutOfOrderReplayDiffers | apps/indexer/src/handlers.ts:69-73 | A log that precedes its round's start is lost at first and applied by a replay, so the ordering condition is needed; the market itself emits no such stream (ChainMirror.RunTracks). |
| Replay.ExecutionsTwice | apps/indexer/src/handlers.ts:242-250 | Execution rows are written once per transaction, action and epoch, so a second pass adds none. |
| ChainMirror.DatabaseIsTheChain | apps/indexer/src/handlers.ts:4-14 | Index the logs of any run of the market from deployment: the tables hold exactly its rounds with their fees and cancellations, pools, bets and payouts, and replaying any suffix changes nothing. |
| ChainMirror.BurnRowsAreTheAllocation | apps/indexer/src/handlers.ts:92-135 | Over every run from deployment, the fee rows less the sweep rows of the tables are exactly the burn allocation the contract holds. |
| ChainMirror.RunAccounts | packages/contracts/src/PonsPrediction.sol:289-694 | Over every run, reentrant calls included, the burn allocation grows by the fees of the settlements logged and shrinks by the sweeps logged. |
| ChainMirror.RunTracks | packages/contracts/src/PonsPrediction.sol:289-694 | The logs of every run are well formed and keep the tables a mirror of storage, reentrant calls included. |
| ChainMirror.FlatTracks | packages/contracts/src/PonsPrediction.sol:345-365 | The logs of one plain call, the execute wrapper included, move the mirror to the state after it. |
| ChainMirror.TotalsAreThePools | apps/indexer/src/handlers.ts:253-268 | The read model's totals of a round are the contract's pools. |
| ChainMirror.EnterMirrors | packages/contracts/src/PonsPrediction.sol:302-325 | An entry and its log keep bets and ledger alike. |
| ChainMirror.MarkMirrors | packages/contracts/src/PonsPrediction.sol:607-622 | A marked entry and its log keep payouts and claims alike. |
| ChainMirror.SettleMirrors | packages/contracts/src/PonsPrediction.sol:536-543 | A settlement and its log keep the round's prices, outcome, rewards and fee alike. |
| ChainMirror.SettledFee | packages/contracts/src/PonsPrediction.sol:536-543 | What settlement adds to the burn allocation is the fee that can be read back from the round. |
| ChainMirror.LogsExactly | packages/contracts/src/PonsPrediction.sol:377-429 | What lock, settlement and cancel logs say beside the stored values: the instant the lock price is for, the fee burned, and why a round was cancelled. |
| UserMirror.UsersAreTheEntrants | apps/indexer/src/handlers.ts:270-288 | Over every run from deployment, exactly the accounts with an entry have a row: it counts the rounds entered and won, adds up over rounds their stakes, their floored winnings and the stakes handed back, and its two times are the least and greatest known times of their bets. |
| UserMirror.ClaimRows | packages/contracts/src/PonsPrediction.sol:607-622 | An account has a winnings row for a round if and only if its stake was paid a share of the reward, a refund row if and only if it was otherwise claimed, each with the amount the round implies. |
| UserMirror.SumByEpoch | apps/indexer/src/handlers.ts:272-283 | A column with at most one row per round adds up round by round. |

## Left out

- 256-bit overflow in the market and burner: amounts are sums of ETH, far below 2^128, so the checked additions never trip; fixed-point words are modelled where they matter, in `TickPriceMath`.
- 32-bit clock wrap in the pool: timestamps are unbounded, so nothing is said about dates after the year 2106.
- Seconds-per-liquidity accumulators and the pool's liquidity: no oracle reads them.
- Role administration: each transaction carries the set of roles its sender holds.
- `getUserEpochs`, `getVisibleRounds` and plain getters: they read storage and decide nothing.
- Adapter and composite construction checks, and descriptions built as strings: token order and decimals arrive as parameters already checked.
- The composite's `inspect`, spot price and aggregated observation state: display only.
- `PonsPrediction.Market.Send`: gas is not modelled, so a receiver that exhausts it is one that refuses, and an oracle that does is not considered.
- WETH, the swap's token movements and its callback: the swap may return any amount, revert, or call back.
- `multiplierX18` and all display formatting in the client library: derived from the reward pool, shown only.
- Indexer reorganisation rollback, cursors, polling and price sampling: `Replay.ReplayIsNoOp` is about an unchanged chain.
- `ChainMirror.DatabaseIsTheChain`: covers the market's own logs; the burner's are indexed by `Indexer.Store` but not tied to a run of the burner. Observation, execution and event rows are tied to the logs (`Replay`), not to storage.
- Event arguments of configuration logs: kept as opaque values, since no table but the audit trail holds them.
- Keeper, Redis lock, RPC pool, API, web application, deployment scripts: wiring and I/O.
