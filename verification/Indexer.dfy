/** The log handlers: each log updates the tables in place, aggregates recomputed row by row. */
module Indexer {
  import opened Util
  import opened ReadModel

  // ---- aggregates, one row at a time --------------------------------------------------

  /** Rows may be added up in any order. */
  lemma {:induction false} SumRemove<K>(column: map<K, nat>, k: K)
    requires k in column
    ensures Sum(column) == column[k] + Sum(column - {k})
    decreases |column|
  {
    var c :| c in column && Sum(column) == column[c] + Sum(column - {c});
    if c != k {
      SumRemove(column - {c}, k);
      SumRemove(column - {k}, c);
      assert column - {c} - {k} == column - {k} - {c};
    }
  }

  method Total<K(==)>(column: map<K, nat>) returns (sum: nat)
    ensures sum == Sum(column)
  {
    sum := 0;
    var rest := column;
    while rest != map[]
      invariant rest.Keys <= column.Keys
      invariant sum + Sum(rest) == Sum(column)
      decreases |rest|
    {
      var k :| k in rest;
      SumRemove(rest, k);
      sum := sum + rest[k];
      rest := rest - {k};
    }
  }

  function Lesser(a: Option<nat>, b: Option<nat>): Option<nat> {
    match (a, b)
    case (None, _) => b
    case (_, None) => a
    case (Some(x), Some(y)) => Some(if x < y then x else y)
  }

  function Greater(a: Option<nat>, b: Option<nat>): Option<nat> {
    match (a, b)
    case (None, _) => b
    case (_, None) => a
    case (Some(x), Some(y)) => Some(if x > y then x else y)
  }

  /** Extremes, too, may be taken in any order. */
  lemma LeastRemove<K>(column: map<K, nat>, k: K)
    requires k in column
    ensures Least(column) == Lesser(Some(column[k]), Least(column - {k}))
  {
    var rest := column - {k};
    assert forall j | j in column :: j == k || j in rest;
  }

  lemma GreatestRemove<K>(column: map<K, nat>, k: K)
    requires k in column
    ensures Greatest(column) == Greater(Some(column[k]), Greatest(column - {k}))
  {
    var rest := column - {k};
    assert forall j | j in column :: j == k || j in rest;
  }

  method Smallest<K(==)>(column: map<K, nat>) returns (least: Option<nat>)
    ensures least == Least(column)
  {
    least := None;
    var rest: map<K, nat> := column;
    while rest != map[]
      invariant Lesser(least, Least(rest)) == Least(column)
      decreases |rest|
    {
      var k :| k in rest;
      LeastRemove(rest, k);
      if least.None? || rest[k] < least.value { least := Some(rest[k]); }
      rest := rest - {k};
    }
  }

  method Largest<K(==)>(column: map<K, nat>) returns (greatest: Option<nat>)
    ensures greatest == Greatest(column)
  {
    greatest := None;
    var rest: map<K, nat> := column;
    while rest != map[]
      invariant Greater(greatest, Greatest(rest)) == Greatest(column)
      decreases |rest|
    {
      var k :| k in rest;
      GreatestRemove(rest, k);
      if greatest.None? || rest[k] > greatest.value { greatest := Some(rest[k]); }
      rest := rest - {k};
    }
  }

  class Store {
    var events: map<EventKey, EventRow>
    var rounds: Rounds
    var observations: Observations
    var executions: map<ExecutionKey, ExecutionRow>
    var burnEvents: map<BurnKey, BurnEventRow>
    var burns: map<BurnKey, BurnRow>
    var bets: Bets
    var claims: Claims
    var users: map<Account, UserRow>

    function View(): Tables
      reads this
    {
      Tables(events, rounds, observations, executions, burnEvents, burns, bets, claims, users)
    }

    constructor ()
      ensures View() == Empty
    {
      events, rounds, observations, executions := map[], map[], map[], map[];
      burnEvents, burns, bets, claims, users := map[], map[], map[], map[], map[];
    }

    method RecordExecution(log: Log, action: Action, epoch: nat)
      modifies this`executions
      ensures executions == InsertOnce(old(executions), ExecutionKey(log.tx, action, epoch),
                                       ExecutionRow(log.block, log.sender, log.blockTime))
    {
      var k := ExecutionKey(log.tx, action, epoch);
      if k !in executions {
        executions := executions[k := ExecutionRow(log.block, log.sender, log.blockTime)];
      }
    }

    method RecomputeRoundTotals(epoch: nat)
      modifies this`rounds
      ensures rounds == RecomputeTotals(old(rounds), bets, epoch)
    {
      var bull := Total(Stakes(BetsIn(bets, epoch), {true}));
      var bear := Total(Stakes(BetsIn(bets, epoch), {false}));
      if epoch in rounds {
        rounds := rounds[epoch := rounds[epoch].(totals := Totals(bull + bear, bull, bear))];
      }
    }

    method RecomputeUser(account: Account)
      modifies this`users
      ensures users == old(users)[account := Rollup(bets, claims, account)]
    {
      var mine, won, back := BetsOf(bets, account), ClaimsOf(claims, account, Claim), ClaimsOf(claims, account, Refund);
      var staked := Total(Stakes(mine, {true, false}));
      var claimed := Total(Payments(won));
      var refunded := Total(Payments(back));
      var first := Smallest(Times(mine));
      var last := Largest(Times(mine));
      users := users[account := UserRow(|mine|, |won|, staked, claimed, refunded, first, last)];
    }

    method MarkWinners(epoch: nat, outcome: OutcomeName)
      modifies this`users
      ensures users == ReadModel.MarkWinners(old(users), bets, claims, epoch, outcome)
    {
      if outcome != Bull && outcome != Bear { return; }
      users := map a | a in users ::
        if BetKey(epoch, a) in bets then users[a].(won := |ClaimsOf(claims, a, Claim)|) else users[a];
    }

    method RecordObservation(epoch: nat, kind: ObservationKind, instant: nat, sample: Sample)
      modifies this`observations
      ensures var k, before := (epoch, kind), old(observations);
        observations == before[k := ObservationStep(Get(before, k), instant, sample)]
    {
      var k := (epoch, kind);
      if k in observations {
        observations := observations[k := observations[k].(sample := sample)];
      } else {
        observations := observations[k := ObservationRow(instant, sample)];
      }
    }

    method RecordBurnEvent(log: Log, kind: BurnKind, amount: Option<nat>)
      modifies this`burnEvents
      ensures burnEvents == InsertOnce(old(burnEvents), BurnKey(log.tx, log.index),
                                       BurnEventRow(log.block, kind, amount, log.blockTime))
    {
      var k := BurnKey(log.tx, log.index);
      if k !in burnEvents {
        burnEvents := burnEvents[k := BurnEventRow(log.block, kind, amount, log.blockTime)];
      }
    }

    method OnRoundStarted(epoch: nat, schedule: Schedule)
      modifies this`rounds
      ensures rounds == StepRounds(old(rounds), RoundStarted(epoch, schedule))
    {
      if epoch in rounds {
        rounds := rounds[epoch := rounds[epoch].(schedule := schedule)];
      } else {
        rounds := rounds[epoch := RoundRow(schedule, None, None, Status.Open, None, None, Totals(0, 0, 0))];
      }
    }

    method OnRoundLocked(log: Log)
      requires log.event.RoundLocked?
      modifies this
      ensures rounds == StepRounds(old(rounds), log.event)
      ensures observations == ObservationsAfter(old(observations), old(rounds), log)
      ensures executions == ExecutionsAfter(old(executions), log)
      ensures View() == old(View()).(rounds := rounds, observations := observations, executions := executions)
    {
      var e := log.event.epoch;
      var executedAt := log.event.executedAt;
      if e in rounds {
        rounds := rounds[e := rounds[e].(
          locked := Some(LockPart(log.event.lockPrice, log.event.lockTick, executedAt)), status := Status.Locked)];
      }
      RecordObservation(e, Lock, log.event.instant,
                        Sample(log.event.lockPrice, log.event.lockTick, executedAt, executedAt - log.event.instant,
                               log.tx));
      RecordExecution(log, LockAction, e);
    }

    method OnRoundSettled(log: Log)
      requires log.event.RoundSettled?
      modifies this
      ensures rounds == StepRounds(old(rounds), log.event)
      ensures observations == ObservationsAfter(old(observations), old(rounds), log)
      ensures executions == ExecutionsAfter(old(executions), log)
      ensures burnEvents == BurnEventsAfter(old(burnEvents), log)
      ensures users == UsersAfter(old(users), bets, claims, log.event)
      ensures View() == old(View()).(rounds := rounds, observations := observations, executions := executions,
                                     burnEvents := burnEvents, users := users)
    {
      var v := log.event;
      var instant := CloseOf(rounds, v.epoch);
      var outcome := OutcomeOf(v.outcome);
      if v.epoch in rounds {
        rounds := rounds[v.epoch := rounds[v.epoch].(
          settled := Some(SettlePart(v.closePrice, v.closeTick, v.executedAt, v.rewardBase, v.rewardAmount, v.burnFee)),
          status := Status.Settled, outcome := Some(outcome))];
      }
      if instant > 0 {
        RecordObservation(v.epoch, Close, instant,
                          Sample(v.closePrice, v.closeTick, v.executedAt, v.executedAt - instant, log.tx));
      }
      if v.burnFee > 0 {
        RecordBurnEvent(log, FeeAccrued(v.epoch), Some(v.burnFee));
      }
      MarkWinners(v.epoch, outcome);
      RecordExecution(log, SettleAction, v.epoch);
    }

    method OnRoundCancelled(log: Log)
      requires log.event.RoundCancelled?
      modifies this`rounds, this`executions
      ensures rounds == StepRounds(old(rounds), log.event)
      ensures executions == ExecutionsAfter(old(executions), log)
    {
      var e := log.event.epoch;
      if e in rounds {
        rounds := rounds[e := rounds[e].(
          status := Status.Cancelled, outcome := Some(Void), cancelReason := Some(log.event.reason))];
      }
      RecordExecution(log, CancelAction, e);
    }

    method OnBet(log: Log)
      requires log.event.BetPlaced?
      modifies this`bets, this`rounds, this`users
      ensures bets == BetsAfter(old(bets), log)
      ensures rounds == RoundsAfter(old(rounds), bets, log.event)
      ensures users == UsersAfter(old(users), bets, claims, log.event)
    {
      var k := BetKey(log.event.epoch, log.event.account);
      var main := BetMain(log.event.bull, log.event.amount, log.block, log.tx, log.index);
      bets := bets[k := if k in bets then bets[k].(main := main) else BetRow(main, log.blockTime)];
      RecomputeRoundTotals(log.event.epoch);
      RecomputeUser(log.event.account);
    }

    method OnPaid(log: Log)
      requires log.event.Paid?
      modifies this`claims, this`users
      ensures claims == ClaimsAfter(old(claims), log)
      ensures users == UsersAfter(old(users), bets, claims, log.event)
    {
      var k := ClaimKey(log.event.epoch, log.event.account, log.event.kind);
      var main := ClaimMain(log.event.amount, log.block, log.tx);
      claims := claims[k := if k in claims then claims[k].(main := main) else ClaimRow(main, log.index, log.blockTime)];
      RecomputeUser(log.event.account);
    }

    method OnBoughtAndBurned(log: Log)
      requires log.event.BoughtAndBurned?
      modifies this`burns
      ensures burns == BurnsAfter(old(burns), log)
    {
      var k, v := BurnKey(log.tx, log.index), log.event;
      if k !in burns {
        burns := burns[k := BurnRow(log.block, v.target, v.token, v.ethIn, v.burned, v.floor, log.blockTime)];
      }
    }

    method ApplyLog(log: Log)
      modifies this
      ensures View() == Apply(old(View()), log)
    {
      var k := EventKey(log.block, log.tx, log.index);
      if k !in events {
        events := events[k := EventRow(log.blockHash, log.event, log.blockTime)];
      }
      match log.event {
        case RoundStarted(epoch, schedule) => OnRoundStarted(epoch, schedule);
        case RoundLocked(_, _, _, _, _) => OnRoundLocked(log);
        case RoundSettled(_, _, _, _, _, _, _, _) => OnRoundSettled(log);
        case RoundCancelled(_, _) => OnRoundCancelled(log);
        case BetPlaced(_, _, _, _) => OnBet(log);
        case Paid(_, _, _, _) => OnPaid(log);
        case BurnSwept(to, amount) => RecordBurnEvent(log, SweptToBurner(to), Some(amount));
        case BoughtAndBurned(_, _, _, _, _) => OnBoughtAndBurned(log);
        case Configured(_, _) => RecordBurnEvent(log, ConfigChange(log.event), None);
        case Unhandled(_) =>
      }
    }

    /** A batch of logs in order; by the replay theorem, an overlapping batch changes nothing twice. */
    method ApplyAll(logs: seq<Log>)
      modifies this
      ensures View() == Fold(old(View()), logs)
    {
      var i := 0;
      while i < |logs|
        invariant 0 <= i <= |logs|
        invariant View() == Fold(old(View()), logs[..i])
      {
        assert logs[..i + 1][..i] == logs[..i];
        ApplyLog(logs[i]);
        i := i + 1;
      }
      assert logs[..i] == logs;
    }
  }
}
