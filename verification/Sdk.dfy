/** The client library's mirror of the contract's arithmetic. */
module Sdk {
  import opened Util
  import opened MarketTypes

  function BurnFee(totalAmount: nat, feeBps: nat): nat {
    (totalAmount * feeBps) / MAX_BPS
  }

  /** The pool shared by the winning side; a fee above 100% makes it negative. */
  function RewardPool(bullAmount: nat, bearAmount: nat, feeBps: nat): int {
    if bullAmount == 0 || bearAmount == 0 then 0
    else
      var total := bullAmount + bearAmount;
      total - BurnFee(total, feeBps)
  }

  /** BigInt division truncates toward zero. */
  function EstimatePayout(stake: nat, side: nat, other: nat, feeBps: nat): int {
    var newSide := side + stake;
    var pool := RewardPool(newSide, other, feeBps);
    if pool == 0 || newSide == 0 then stake else TruncDiv(stake * pool, newSide)
  }

  function SettledPayout(round: Round, bet: Bet, outcome: Outcome): nat {
    if round.rewardBaseAmount == 0 then 0
    else if (outcome.Bull? && bet.position.Bull?) || (outcome.Bear? && bet.position.Bear?) then
      (bet.amount * round.rewardAmount) / round.rewardBaseAmount
    else 0
  }

  predicate IsRefundShaped(round: Round, outcome: Outcome) {
    round.status.Cancelled? || (round.status.Settled? && (outcome.Tie? || outcome.NoContest?))
  }

  function DeriveOutcome(round: Round): Outcome {
    if round.totalAmount == 0 then Outcome.NoContest
    else if round.closePrice == round.lockPrice then Outcome.Tie
    else
      var bullWins := round.closePrice > round.lockPrice;
      var winning := if bullWins then round.bullAmount else round.bearAmount;
      var losing := if bullWins then round.bearAmount else round.bullAmount;
      if winning == 0 then Outcome.AllLost
      else if losing == 0 then Outcome.NoContest
      else if bullWins then Outcome.Bull
      else Outcome.Bear
  }

  function SplitBurnAllocation(amount: nat, sharePonsBps: nat): (int, int) {
    var pons := (amount * sharePonsBps) / MAX_BPS;
    (pons, amount - pons)
  }
}
