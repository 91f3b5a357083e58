/** The indexer's tables and what each log does to them. */
module ReadModel {
  import opened Util

  type Account = nat
  type Hash = nat

  // ---- logs ---------------------------------------------------------------------------

  datatype Event =
    | RoundStarted(epoch: nat, schedule: Schedule)
    | RoundLocked(epoch: nat, lockPrice: nat, lockTick: int, instant: nat, executedAt: nat)
    | RoundSettled(epoch: nat, closePrice: nat, closeTick: int, executedAt: nat, outcome: nat,
                   rewardBase: nat, rewardAmount: nat, burnFee: nat)
    | RoundCancelled(epoch: nat, reason: nat)
    | BetPlaced(epoch: nat, account: Account, bull: bool, amount: nat)
    | Paid(epoch: nat, account: Account, kind: PaidKind, amount: nat)
    | BurnSwept(to: Account, amount: nat)
    | BoughtAndBurned(target: nat, token: Account, ethIn: nat, burned: nat, floor: nat)
    | Configured(name: nat, args: seq<nat>)
    | Unhandled(name: nat)

  datatype PaidKind = Claim | Refund

  datatype Log = Log(
    block: nat, blockHash: Hash, tx: Hash, index: nat, blockTime: Option<nat>, sender: Option<Account>, event: Event)

  // ---- tables -------------------------------------------------------------------------

  datatype Schedule = Schedule(start: nat, lock: nat, close: nat)

  datatype Status = Open | Locked | Settled | Cancelled

  datatype OutcomeName = Undecided | Bull | Bear | Tie | NoContest | AllLost | Void

  datatype LockPart = LockPart(price: nat, tick: int, at: nat)

  datatype SettlePart = SettlePart(price: nat, tick: int, at: nat, rewardBase: nat, rewardAmount: nat, burnFee: nat)

  datatype Totals = Totals(total: nat, bull: nat, bear: nat)

  datatype RoundRow = RoundRow(
    schedule: Schedule, locked: Option<LockPart>, settled: Option<SettlePart>, status: Status,
    outcome: Option<OutcomeName>, cancelReason: Option<nat>, totals: Totals)

  datatype ObservationKind = Lock | Close

  datatype Sample = Sample(price: nat, tick: int, executedAt: nat, lag: int, tx: Hash)

  datatype ObservationRow = ObservationRow(instant: nat, sample: Sample)

  datatype BetMain = BetMain(bull: bool, amount: nat, block: nat, tx: Hash, index: nat)

  datatype BetRow = BetRow(main: BetMain, blockTime: Option<nat>)

  datatype ClaimMain = ClaimMain(amount: nat, block: nat, tx: Hash)

  datatype ClaimRow = ClaimRow(main: ClaimMain, index: nat, blockTime: Option<nat>)

  datatype Action = LockAction | SettleAction | CancelAction

  datatype UserRow = UserRow(
    entered: nat, won: nat, staked: nat, claimed: nat, refunded: nat, firstSeen: Option<nat>, lastSeen: Option<nat>)

  datatype BurnKind = FeeAccrued(epoch: nat) | SweptToBurner(to: Account) | ConfigChange(event: Event)

  datatype BetKey = BetKey(epoch: nat, account: Account)
  datatype ClaimKey = ClaimKey(epoch: nat, account: Account, kind: PaidKind)
  datatype EventKey = EventKey(block: nat, tx: Hash, index: nat)
  datatype EventRow = EventRow(blockHash: Hash, event: Event, blockTime: Option<nat>)
  datatype ExecutionKey = ExecutionKey(tx: Hash, action: Action, epoch: nat)
  datatype ExecutionRow = ExecutionRow(block: nat, sender: Option<Account>, blockTime: Option<nat>)
  datatype BurnKey = BurnKey(tx: Hash, index: nat)
  datatype BurnEventRow = BurnEventRow(block: nat, kind: BurnKind, amount: Option<nat>, blockTime: Option<nat>)
  datatype BurnRow = BurnRow(block: nat, target: nat, token: Account, ethIn: nat, burned: nat, floor: nat,
                             blockTime: Option<nat>)

  type Bets = map<BetKey, BetRow>
  type Claims = map<ClaimKey, ClaimRow>
  type Rounds = map<nat, RoundRow>
  type Observations = map<(nat, ObservationKind), ObservationRow>

  datatype Tables = Tables(
    events: map<EventKey, EventRow>,
    rounds: Rounds,
    observations: Observations,
    executions: map<ExecutionKey, ExecutionRow>,
    burnEvents: map<BurnKey, BurnEventRow>,
    burns: map<BurnKey, BurnRow>,
    bets: Bets,
    claims: Claims,
    users: map<Account, UserRow>)

  const Empty := Tables(map[], map[], map[], map[], map[], map[], map[], map[], map[])

  function Get<K, V>(m: map<K, V>, k: K): Option<V> {
    if k in m then Some(m[k]) else None
  }

  /** ON CONFLICT DO NOTHING. */
  function InsertOnce<K, V>(m: map<K, V>, k: K, v: V): map<K, V> {
    if k in m then m else m[k := v]
  }

  // ---- aggregates ---------------------------------------------------------------------

  function BetsIn(bets: Bets, epoch: nat): Bets {
    map k | k in bets && k.epoch == epoch :: bets[k]
  }

  function BetsOf(bets: Bets, account: Account): Bets {
    map k | k in bets && k.account == account :: bets[k]
  }

  function ClaimsOf(claims: Claims, account: Account, kind: PaidKind): Claims {
    map k | k in claims && k.account == account && k.kind == kind :: claims[k]
  }

  function Stakes(bets: Bets, sides: set<bool>): map<BetKey, nat> {
    map k | k in bets && bets[k].main.bull in sides :: bets[k].main.amount
  }

  function Payments(claims: Claims): map<ClaimKey, nat> {
    map k | k in claims :: claims[k].main.amount
  }

  /** Missing block times are left out, as MIN and MAX leave out NULL. */
  function Times(bets: Bets): map<BetKey, nat> {
    map k | k in bets && bets[k].blockTime.Some? :: bets[k].blockTime.value
  }

  ghost function Sum<K>(column: map<K, nat>): nat
    decreases |column|
  {
    if column == map[] then 0
    else
      var k :| k in column;
      column[k] + Sum(column - {k})
  }

  ghost function Least<K>(column: map<K, nat>): (least: Option<nat>)
    ensures least.None? <==> column == map[]
    ensures least.Some? ==>
      (exists k | k in column :: column[k] == least.value) && forall k | k in column :: least.value <= column[k]
    decreases |column|
  {
    if column == map[] then None
    else
      var k :| k in column;
      var rest := column - {k};
      assert forall j | j in column :: j == k || j in rest;
      match Least(rest)
      case None => Some(column[k])
      case Some(t) => Some(if column[k] < t then column[k] else t)
  }

  ghost function Greatest<K>(column: map<K, nat>): (greatest: Option<nat>)
    ensures greatest.None? <==> column == map[]
    ensures greatest.Some? ==>
      (exists k | k in column :: column[k] == greatest.value) && forall k | k in column :: column[k] <= greatest.value
    decreases |column|
  {
    if column == map[] then None
    else
      var k :| k in column;
      var rest := column - {k};
      assert forall j | j in column :: j == k || j in rest;
      match Greatest(rest)
      case None => Some(column[k])
      case Some(t) => Some(if column[k] > t then column[k] else t)
  }

  /** Round totals, recomputed from the bets of the round. */
  ghost function TotalsOf(bets: Bets, epoch: nat): Totals {
    var bull, bear := Sum(Stakes(BetsIn(bets, epoch), {true})), Sum(Stakes(BetsIn(bets, epoch), {false}));
    Totals(bull + bear, bull, bear)
  }

  /** A user's roll-up, recomputed from the bets and claims of the account. */
  ghost function Rollup(bets: Bets, claims: Claims, account: Account): UserRow {
    var mine, won, back := BetsOf(bets, account), ClaimsOf(claims, account, Claim), ClaimsOf(claims, account, Refund);
    UserRow(|mine|, |won|, Sum(Stakes(mine, {true, false})), Sum(Payments(won)), Sum(Payments(back)),
            Least(Times(mine)), Greatest(Times(mine)))
  }

  // ---- what one log writes ------------------------------------------------------------

  function OutcomeOf(code: nat): OutcomeName {
    match code
    case 1 => Bull case 2 => Bear case 3 => Tie case 4 => NoContest case 5 => AllLost case _ => Undecided
  }

  /** One round's row; an UPDATE of a missing row does nothing. Totals are left as they are. */
  function RoundStep(row: Option<RoundRow>, event: Event, epoch: nat): Option<RoundRow> {
    match event
    case RoundStarted(e, schedule) =>
      if e != epoch then row
      else if row.None? then Some(RoundRow(schedule, None, None, Status.Open, None, None, Totals(0, 0, 0)))
      else Some(row.value.(schedule := schedule))
    case RoundLocked(e, price, tick, _, at) =>
      if e != epoch || row.None? then row
      else Some(row.value.(locked := Some(LockPart(price, tick, at)), status := Status.Locked))
    case RoundSettled(e, price, tick, at, outcome, rewardBase, rewardAmount, burnFee) =>
      if e != epoch || row.None? then row
      else Some(row.value.(settled := Some(SettlePart(price, tick, at, rewardBase, rewardAmount, burnFee)),
                           status := Status.Settled, outcome := Some(OutcomeOf(outcome))))
    case RoundCancelled(e, reason) =>
      if e != epoch || row.None? then row
      else Some(row.value.(status := Status.Cancelled, outcome := Some(Void), cancelReason := Some(reason)))
    case _ => row
  }

  function RoundEpoch(event: Event): Option<nat> {
    match event
    case RoundStarted(e, _) => Some(e)
    case RoundLocked(e, _, _, _, _) => Some(e)
    case RoundSettled(e, _, _, _, _, _, _, _) => Some(e)
    case RoundCancelled(e, _) => Some(e)
    case _ => None
  }

  function StepRounds(rounds: Rounds, event: Event): Rounds {
    match RoundEpoch(event)
    case None => rounds
    case Some(e) =>
      match RoundStep(Get(rounds, e), event, e)
      case None => rounds
      case Some(row) => rounds[e := row]
  }

  /** Recomputing totals touches a round only if its row exists. */
  ghost function RecomputeTotals(rounds: Rounds, bets: Bets, epoch: nat): Rounds {
    if epoch in rounds then rounds[epoch := rounds[epoch].(totals := TotalsOf(bets, epoch))] else rounds
  }

  ghost function RoundsAfter(rounds: Rounds, bets: Bets, event: Event): Rounds {
    if event.BetPlaced? then RecomputeTotals(rounds, bets, event.epoch) else StepRounds(rounds, event)
  }

  function ObservationStep(row: Option<ObservationRow>, instant: nat, sample: Sample): ObservationRow {
    match row case None => ObservationRow(instant, sample) case Some(r) => r.(sample := sample)
  }

  /** The scheduled instant a close price was for; zero when the round is unknown. */
  function CloseOf(rounds: Rounds, epoch: nat): nat {
    if epoch in rounds then rounds[epoch].schedule.close else 0
  }

  function ObservationsAfter(observations: Observations, rounds: Rounds, log: Log): Observations {
    match log.event
    case RoundLocked(e, price, tick, instant, at) =>
      var k := (e, Lock);
      observations[k := ObservationStep(Get(observations, k), instant, Sample(price, tick, at, at - instant, log.tx))]
    case RoundSettled(e, price, tick, at, _, _, _, _) =>
      var k, instant := (e, Close), CloseOf(rounds, e);
      if instant > 0 then
        observations[k := ObservationStep(Get(observations, k), instant, Sample(price, tick, at, at - instant, log.tx))]
      else observations
    case _ => observations
  }

  function BetsAfter(bets: Bets, log: Log): Bets {
    match log.event
    case BetPlaced(e, account, bull, amount) =>
      var k, main := BetKey(e, account), BetMain(bull, amount, log.block, log.tx, log.index);
      bets[k := if k in bets then bets[k].(main := main) else BetRow(main, log.blockTime)]
    case _ => bets
  }

  function ClaimsAfter(claims: Claims, log: Log): Claims {
    match log.event
    case Paid(e, account, kind, amount) =>
      var k, main := ClaimKey(e, account, kind), ClaimMain(amount, log.block, log.tx);
      claims[k := if k in claims then claims[k].(main := main) else ClaimRow(main, log.index, log.blockTime)]
    case _ => claims
  }

  /** After a decisive settlement, the win counts of everyone who bet on the round are refreshed. */
  ghost function MarkWinners(users: map<Account, UserRow>, bets: Bets, claims: Claims, epoch: nat,
                             outcome: OutcomeName): map<Account, UserRow> {
    if outcome != Bull && outcome != Bear then users
    else
      map a | a in users ::
        if BetKey(epoch, a) in bets then users[a].(won := |ClaimsOf(claims, a, Claim)|) else users[a]
  }

  ghost function UsersAfter(users: map<Account, UserRow>, bets: Bets, claims: Claims,
                            event: Event): map<Account, UserRow> {
    match event
    case BetPlaced(_, account, _, _) => users[account := Rollup(bets, claims, account)]
    case Paid(_, account, _, _) => users[account := Rollup(bets, claims, account)]
    case RoundSettled(e, _, _, _, outcome, _, _, _) => MarkWinners(users, bets, claims, e, OutcomeOf(outcome))
    case _ => users
  }

  function ExecutionsAfter(executions: map<ExecutionKey, ExecutionRow>, log: Log): map<ExecutionKey, ExecutionRow> {
    var row := ExecutionRow(log.block, log.sender, log.blockTime);
    match log.event
    case RoundLocked(e, _, _, _, _) => InsertOnce(executions, ExecutionKey(log.tx, LockAction, e), row)
    case RoundSettled(e, _, _, _, _, _, _, _) => InsertOnce(executions, ExecutionKey(log.tx, SettleAction, e), row)
    case RoundCancelled(e, _) => InsertOnce(executions, ExecutionKey(log.tx, CancelAction, e), row)
    case _ => executions
  }

  function BurnEventsAfter(burnEvents: map<BurnKey, BurnEventRow>, log: Log): map<BurnKey, BurnEventRow> {
    var k := BurnKey(log.tx, log.index);
    match log.event
    case RoundSettled(e, _, _, _, _, _, _, burnFee) =>
      if burnFee > 0
      then InsertOnce(burnEvents, k, BurnEventRow(log.block, FeeAccrued(e), Some(burnFee), log.blockTime))
      else burnEvents
    case BurnSwept(to, amount) =>
      InsertOnce(burnEvents, k, BurnEventRow(log.block, SweptToBurner(to), Some(amount), log.blockTime))
    case Configured(_, _) =>
      InsertOnce(burnEvents, k, BurnEventRow(log.block, ConfigChange(log.event), None, log.blockTime))
    case _ => burnEvents
  }

  function BurnsAfter(burns: map<BurnKey, BurnRow>, log: Log): map<BurnKey, BurnRow> {
    match log.event
    case BoughtAndBurned(target, token, ethIn, burned, floor) =>
      InsertOnce(burns, BurnKey(log.tx, log.index),
                 BurnRow(log.block, target, token, ethIn, burned, floor, log.blockTime))
    case _ => burns
  }

  function EventsAfter(events: map<EventKey, EventRow>, log: Log): map<EventKey, EventRow> {
    InsertOnce(events, EventKey(log.block, log.tx, log.index), EventRow(log.blockHash, log.event, log.blockTime))
  }

  ghost function Apply(t: Tables, log: Log): Tables {
    var bets, claims := BetsAfter(t.bets, log), ClaimsAfter(t.claims, log);
    Tables(EventsAfter(t.events, log),
           RoundsAfter(t.rounds, bets, log.event),
           ObservationsAfter(t.observations, t.rounds, log),
           ExecutionsAfter(t.executions, log),
           BurnEventsAfter(t.burnEvents, log),
           BurnsAfter(t.burns, log),
           bets, claims,
           UsersAfter(t.users, bets, claims, log.event))
  }

  ghost function Fold(t: Tables, logs: seq<Log>): Tables {
    if logs == [] then t else Apply(Fold(t, logs[..|logs| - 1]), logs[|logs| - 1])
  }
}
