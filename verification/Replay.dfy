/** Re-applying any suffix of a well-formed log stream to the finished read model changes nothing. */
module Replay {
  import opened Util
  import opened ReadModel

  // ---- last writer and first writer ---------------------------------------------------

  /** A column after a stream: the last write to it, or what it held before. */
  function LastOr<T>(before: T, logs: seq<Log>, write: Log -> Option<T>): T {
    if logs == [] then before
    else match write(logs[|logs| - 1])
      case Some(v) => v
      case None => LastOr(before, logs[..|logs| - 1], write)
  }

  /** A column written only while its row is being created. */
  function FirstOr<T>(before: Option<T>, logs: seq<Log>, write: Log -> Option<T>): Option<T> {
    if logs == [] then before
    else match FirstOr(before, logs[..|logs| - 1], write)
      case Some(v) => Some(v)
      case None => write(logs[|logs| - 1])
  }

  lemma {:induction false} LastTwice<T>(before: T, logs: seq<Log>, write: Log -> Option<T>)
    ensures LastOr(LastOr(before, logs, write), logs, write) == LastOr(before, logs, write)
  {
    if logs != [] {
      var front := logs[..|logs| - 1];
      if write(logs[|logs| - 1]).None? {
        LastTwice(before, front, write);
      }
    }
  }

  lemma {:induction false} FirstKeeps<T>(before: Option<T>, logs: seq<Log>, write: Log -> Option<T>)
    requires before.Some?
    ensures FirstOr(before, logs, write) == before
  {
    if logs != [] {
      FirstKeeps(before, logs[..|logs| - 1], write);
    }
  }

  lemma {:induction false} FirstTwice<T>(before: Option<T>, logs: seq<Log>, write: Log -> Option<T>)
    ensures FirstOr(FirstOr(before, logs, write), logs, write) == FirstOr(before, logs, write)
  {
    if FirstOr(before, logs, write).Some? {
      FirstKeeps(FirstOr(before, logs, write), logs, write);
    } else if logs != [] {
      FirstTwice(before, logs[..|logs| - 1], write);
    }
  }

  // ---- well-formed streams ------------------------------------------------------------

  /** The epoch whose round row a log needs: every log about a round except its start. */
  function Needs(event: Event): Option<nat> {
    match event
    case RoundLocked(e, _, _, _, _) => Some(e)
    case RoundSettled(e, _, _, _, _, _, _, _) => Some(e)
    case RoundCancelled(e, _) => Some(e)
    case BetPlaced(e, _, _, _) => Some(e)
    case _ => None
  }

  function Starts(event: Event): Option<nat> {
    match event case RoundStarted(e, _) => Some(e) case _ => None
  }

  predicate StartedIn(logs: seq<Log>, epoch: nat) {
    exists i | 0 <= i < |logs| :: Starts(logs[i].event) == Some(epoch)
  }

  /** A round's start precedes its other logs, and a round is only ever given one close time. */
  ghost predicate WellFormed(t: Tables, logs: seq<Log>, close: nat -> nat) {
    && (forall e | e in t.rounds :: t.rounds[e].schedule.close == close(e))
    && (forall i | 0 <= i < |logs| :: GoodLog(t, logs, i, close))
  }

  ghost predicate GoodLog(t: Tables, logs: seq<Log>, i: nat, close: nat -> nat)
    requires i < |logs|
  {
    && (Needs(logs[i].event).Some? ==>
          Needs(logs[i].event).value in t.rounds || StartedIn(logs[..i], Needs(logs[i].event).value))
    && (logs[i].event.RoundStarted? ==> logs[i].event.schedule.close == close(logs[i].event.epoch))
  }

  /** What one log needs of the tables it is applied to. */
  ghost predicate Applicable(t: Tables, log: Log, close: nat -> nat) {
    && (Needs(log.event).Some? ==> Needs(log.event).value in t.rounds)
    && (log.event.RoundStarted? ==> log.event.schedule.close == close(log.event.epoch))
    && (forall e | e in t.rounds :: t.rounds[e].schedule.close == close(e))
  }

  lemma RoundsStay(t: Tables, log: Log, e: nat)
    requires e in t.rounds || Starts(log.event) == Some(e)
    ensures e in Apply(t, log).rounds
  {
  }

  lemma ClosesStay(t: Tables, log: Log, close: nat -> nat)
    requires Applicable(t, log, close)
    ensures forall e | e in Apply(t, log).rounds :: Apply(t, log).rounds[e].schedule.close == close(e)
  {
  }

  ghost predicate Ready(t: Tables, t0: Tables, logs: seq<Log>, close: nat -> nat) {
    && (forall e | e in t0.rounds || StartedIn(logs, e) :: e in t.rounds)
    && (forall e | e in t.rounds :: t.rounds[e].schedule.close == close(e))
  }

  lemma StartedSplits(logs: seq<Log>, e: nat)
    requires StartedIn(logs, e)
    ensures logs != [] && (StartedIn(logs[..|logs| - 1], e) || Starts(logs[|logs| - 1].event) == Some(e))
  {
    var i :| 0 <= i < |logs| && Starts(logs[i].event) == Some(e);
    if i < |logs| - 1 {
      assert Starts(logs[..|logs| - 1][i].event) == Some(e);
    }
  }

  lemma {:induction false} FoldReady(t: Tables, logs: seq<Log>, close: nat -> nat)
    requires WellFormed(t, logs, close)
    ensures Ready(Fold(t, logs), t, logs, close)
  {
    if logs != [] {
      var n := |logs| - 1;
      PrefixWellFormed(t, logs, n, close);
      FoldReady(t, logs[..n], close);
      StepApplicable(t, logs, n, close);
      var s := Fold(t, logs[..n]);
      ClosesStay(s, logs[n], close);
      forall e | e in t.rounds || StartedIn(logs, e)
        ensures e in Fold(t, logs).rounds
      {
        if StartedIn(logs, e) {
          StartedSplits(logs, e);
        }
        RoundsStay(s, logs[n], e);
      }
    }
  }

  lemma PrefixWellFormed(t: Tables, logs: seq<Log>, n: nat, close: nat -> nat)
    requires WellFormed(t, logs, close) && n <= |logs|
    ensures WellFormed(t, logs[..n], close)
  {
    forall i | 0 <= i < n
      ensures GoodLog(t, logs[..n], i, close)
    {
      assert GoodLog(t, logs, i, close);
      assert logs[..n][..i] == logs[..i];
    }
  }

  lemma StepApplicable(t: Tables, logs: seq<Log>, n: nat, close: nat -> nat)
    requires WellFormed(t, logs, close) && n < |logs|
    requires Ready(Fold(t, logs[..n]), t, logs[..n], close)
    ensures Applicable(Fold(t, logs[..n]), logs[n], close)
  {
    assert GoodLog(t, logs, n, close);
  }

  lemma SuffixWellFormed(t: Tables, logs: seq<Log>, k: nat, close: nat -> nat)
    requires WellFormed(t, logs, close) && k <= |logs|
    ensures WellFormed(Fold(t, logs[..k]), logs[k..], close)
  {
    PrefixWellFormed(t, logs, k, close);
    FoldReady(t, logs[..k], close);
    var s := Fold(t, logs[..k]);
    forall i | 0 <= i < |logs| - k
      ensures GoodLog(s, logs[k..], i, close)
    {
      assert GoodLog(t, logs, k + i, close);
      if Needs(logs[k + i].event).Some? {
        var e := Needs(logs[k + i].event).value;
        if !(e in t.rounds) {
          var j :| 0 <= j < k + i && Starts(logs[..k + i][j].event) == Some(e);
          if j < k {
            assert Starts(logs[..k][j].event) == Some(e);
          } else {
            assert logs[k..][..i][j - k] == logs[j];
          }
        }
      }
    }
  }

  /** Tables already holding every round the stream starts accept the stream again. */
  lemma AgainWellFormed(t: Tables, logs: seq<Log>, close: nat -> nat)
    requires WellFormed(t, logs, close)
    ensures WellFormed(Fold(t, logs), logs, close)
  {
    FoldReady(t, logs, close);
    forall i | 0 <= i < |logs|
      ensures GoodLog(Fold(t, logs), logs, i, close)
    {
      assert GoodLog(t, logs, i, close);
    }
  }

  lemma {:induction false} FoldConcat(t: Tables, a: seq<Log>, b: seq<Log>)
    ensures Fold(t, a + b) == Fold(Fold(t, a), b)
    decreases |b|
  {
    if b == [] {
      assert a + b == a;
    } else {
      assert (a + b)[..|a + b| - 1] == a + b[..|b| - 1];
      FoldConcat(t, a, b[..|b| - 1]);
    }
  }

  // ---- cells --------------------------------------------------------------------------

  function Overwrite<T>(before: T, written: Option<T>): T {
    match written case Some(v) => v case None => before
  }

  function Keep<T>(before: Option<T>, written: Option<T>): Option<T> {
    match before case Some(v) => Some(v) case None => written
  }

  /** A cell of the tables that every log writes as `write` says, the last write winning. */
  ghost predicate LastCell<T(!new)>(cell: Tables -> T, write: Log -> Option<T>, close: nat -> nat) {
    forall t, log | Applicable(t, log, close) :: cell(Apply(t, log)) == Overwrite(cell(t), write(log))
  }

  /** A cell that only the first write fills. */
  ghost predicate FirstCell<T(!new)>(cell: Tables -> Option<T>, write: Log -> Option<T>, close: nat -> nat) {
    forall t, log | Applicable(t, log, close) :: cell(Apply(t, log)) == Keep(cell(t), write(log))
  }

  lemma {:induction false} LastCellFolds<T(!new)>(t: Tables, logs: seq<Log>, cell: Tables -> T,
                                                  write: Log -> Option<T>, close: nat -> nat)
    requires WellFormed(t, logs, close) && LastCell(cell, write, close)
    ensures cell(Fold(t, logs)) == LastOr(cell(t), logs, write)
  {
    if logs != [] {
      var n := |logs| - 1;
      PrefixWellFormed(t, logs, n, close);
      FoldReady(t, logs[..n], close);
      StepApplicable(t, logs, n, close);
      LastCellFolds(t, logs[..n], cell, write, close);
    }
  }

  lemma {:induction false} FirstCellFolds<T(!new)>(t: Tables, logs: seq<Log>, cell: Tables -> Option<T>,
                                                   write: Log -> Option<T>, close: nat -> nat)
    requires WellFormed(t, logs, close) && FirstCell(cell, write, close)
    ensures cell(Fold(t, logs)) == FirstOr(cell(t), logs, write)
  {
    if logs != [] {
      var n := |logs| - 1;
      PrefixWellFormed(t, logs, n, close);
      FoldReady(t, logs[..n], close);
      StepApplicable(t, logs, n, close);
      FirstCellFolds(t, logs[..n], cell, write, close);
    }
  }

  lemma LastCellTwice<T(!new)>(t: Tables, logs: seq<Log>, cell: Tables -> T, write: Log -> Option<T>, close: nat -> nat)
    requires WellFormed(t, logs, close) && LastCell(cell, write, close)
    ensures cell(Fold(Fold(t, logs), logs)) == cell(Fold(t, logs))
  {
    AgainWellFormed(t, logs, close);
    LastCellFolds(t, logs, cell, write, close);
    LastCellFolds(Fold(t, logs), logs, cell, write, close);
    LastTwice(cell(t), logs, write);
  }

  lemma FirstCellTwice<T(!new)>(t: Tables, logs: seq<Log>, cell: Tables -> Option<T>, write: Log -> Option<T>,
                                close: nat -> nat)
    requires WellFormed(t, logs, close) && FirstCell(cell, write, close)
    ensures cell(Fold(Fold(t, logs), logs)) == cell(Fold(t, logs))
  {
    AgainWellFormed(t, logs, close);
    FirstCellFolds(t, logs, cell, write, close);
    FirstCellFolds(Fold(t, logs), logs, cell, write, close);
    FirstTwice(cell(t), logs, write);
  }

  lemma SameTable<K(!new), V(!new)>(m: map<K, V>, m': map<K, V>)
    requires forall k :: Get(m, k) == Get(m', k)
    ensures m == m'
  {
    forall k
      ensures k in m <==> k in m'
      ensures k in m ==> m[k] == m'[k]
    {
      assert Get(m, k) == Get(m', k);
    }
  }

  // ---- the tables that ignore a conflict ----------------------------------------------

  function WriteIf<V>(condition: bool, v: V): Option<V> {
    if condition then Some(v) else None
  }

  lemma EventsTwice(t: Tables, logs: seq<Log>, close: nat -> nat)
    requires WellFormed(t, logs, close)
    ensures Fold(Fold(t, logs), logs).events == Fold(t, logs).events
  {
    forall k
      ensures Get(Fold(Fold(t, logs), logs).events, k) == Get(Fold(t, logs).events, k)
    {
      FirstCellTwice(t, logs, (s: Tables) => Get(s.events, k),
                     (log: Log) => WriteIf(EventKey(log.block, log.tx, log.index) == k,
                                           EventRow(log.blockHash, log.event, log.blockTime)), close);
    }
    SameTable(Fold(Fold(t, logs), logs).events, Fold(t, logs).events);
  }

  function ExecutionKeyOf(log: Log): Option<ExecutionKey> {
    match log.event
    case RoundLocked(e, _, _, _, _) => Some(ExecutionKey(log.tx, LockAction, e))
    case RoundSettled(e, _, _, _, _, _, _, _) => Some(ExecutionKey(log.tx, SettleAction, e))
    case RoundCancelled(e, _) => Some(ExecutionKey(log.tx, CancelAction, e))
    case _ => None
  }

  lemma ExecutionsTwice(t: Tables, logs: seq<Log>, close: nat -> nat)
    requires WellFormed(t, logs, close)
    ensures Fold(Fold(t, logs), logs).executions == Fold(t, logs).executions
  {
    forall k
      ensures Get(Fold(Fold(t, logs), logs).executions, k) == Get(Fold(t, logs).executions, k)
    {
      FirstCellTwice(t, logs, (s: Tables) => Get(s.executions, k),
                     (log: Log) => WriteIf(ExecutionKeyOf(log) == Some(k),
                                           ExecutionRow(log.block, log.sender, log.blockTime)),
                     close);
    }
    SameTable(Fold(Fold(t, logs), logs).executions, Fold(t, logs).executions);
  }

  function BurnEventOf(log: Log): Option<BurnEventRow> {
    match log.event
    case RoundSettled(e, _, _, _, _, _, _, burnFee) =>
      WriteIf(burnFee > 0, BurnEventRow(log.block, FeeAccrued(e), Some(burnFee), log.blockTime))
    case BurnSwept(to, amount) => Some(BurnEventRow(log.block, SweptToBurner(to), Some(amount), log.blockTime))
    case Configured(_, _) => Some(BurnEventRow(log.block, ConfigChange(log.event), None, log.blockTime))
    case _ => None
  }

  lemma BurnEventsTwice(t: Tables, logs: seq<Log>, close: nat -> nat)
    requires WellFormed(t, logs, close)
    ensures Fold(Fold(t, logs), logs).burnEvents == Fold(t, logs).burnEvents
  {
    forall k
      ensures Get(Fold(Fold(t, logs), logs).burnEvents, k) == Get(Fold(t, logs).burnEvents, k)
    {
      FirstCellTwice(t, logs, (s: Tables) => Get(s.burnEvents, k),
                     (log: Log) => if BurnKey(log.tx, log.index) == k then BurnEventOf(log) else None, close);
    }
    SameTable(Fold(Fold(t, logs), logs).burnEvents, Fold(t, logs).burnEvents);
  }

  function BurnOf(log: Log): Option<BurnRow> {
    match log.event
    case BoughtAndBurned(target, token, ethIn, burned, floor) =>
      Some(BurnRow(log.block, target, token, ethIn, burned, floor, log.blockTime))
    case _ => None
  }

  lemma BurnsTwice(t: Tables, logs: seq<Log>, close: nat -> nat)
    requires WellFormed(t, logs, close)
    ensures Fold(Fold(t, logs), logs).burns == Fold(t, logs).burns
  {
    forall k
      ensures Get(Fold(Fold(t, logs), logs).burns, k) == Get(Fold(t, logs).burns, k)
    {
      FirstCellTwice(t, logs, (s: Tables) => Get(s.burns, k),
                     (log: Log) => if BurnKey(log.tx, log.index) == k then BurnOf(log) else None, close);
    }
    SameTable(Fold(Fold(t, logs), logs).burns, Fold(t, logs).burns);
  }

  // ---- bets, claims and observations --------------------------------------------------

  function BetMainOf(log: Log, k: BetKey): Option<Option<BetMain>> {
    match log.event
    case BetPlaced(e, account, bull, amount) =>
      WriteIf(BetKey(e, account) == k, Some(BetMain(bull, amount, log.block, log.tx, log.index)))
    case _ => None
  }

  function BetTimeOf(log: Log, k: BetKey): Option<Option<nat>> {
    match log.event
    case BetPlaced(e, account, _, _) => WriteIf(BetKey(e, account) == k, log.blockTime)
    case _ => None
  }

  function Map<A, B>(o: Option<A>, f: A -> B): Option<B> {
    match o case None => None case Some(a) => Some(f(a))
  }

  lemma BetMainTwice(t: Tables, logs: seq<Log>, close: nat -> nat, k: BetKey)
    requires WellFormed(t, logs, close)
    ensures Map(Get(Fold(Fold(t, logs), logs).bets, k), (r: BetRow) => r.main)
         == Map(Get(Fold(t, logs).bets, k), (r: BetRow) => r.main)
  {
    LastCellTwice(t, logs, (s: Tables) => Map(Get(s.bets, k), (r: BetRow) => r.main),
                  (log: Log) => BetMainOf(log, k), close);
  }

  lemma BetTimeTwice(t: Tables, logs: seq<Log>, close: nat -> nat, k: BetKey)
    requires WellFormed(t, logs, close)
    ensures Map(Get(Fold(Fold(t, logs), logs).bets, k), (r: BetRow) => r.blockTime)
         == Map(Get(Fold(t, logs).bets, k), (r: BetRow) => r.blockTime)
  {
    FirstCellTwice(t, logs, (s: Tables) => Map(Get(s.bets, k), (r: BetRow) => r.blockTime),
                   (log: Log) => BetTimeOf(log, k), close);
  }

  lemma BetsTwice(t: Tables, logs: seq<Log>, close: nat -> nat)
    requires WellFormed(t, logs, close)
    ensures Fold(Fold(t, logs), logs).bets == Fold(t, logs).bets
  {
    var s, s' := Fold(t, logs), Fold(Fold(t, logs), logs);
    forall k
      ensures Get(s'.bets, k) == Get(s.bets, k)
    {
      BetMainTwice(t, logs, close, k);
      BetTimeTwice(t, logs, close, k);
    }
    SameTable(s'.bets, s.bets);
  }

  function ClaimMainOf(log: Log, k: ClaimKey): Option<Option<ClaimMain>> {
    match log.event
    case Paid(e, account, kind, amount) =>
      WriteIf(ClaimKey(e, account, kind) == k, Some(ClaimMain(amount, log.block, log.tx)))
    case _ => None
  }

  function ClaimOriginOf(log: Log, k: ClaimKey): Option<(nat, Option<nat>)> {
    match log.event
    case Paid(e, account, kind, _) => WriteIf(ClaimKey(e, account, kind) == k, (log.index, log.blockTime))
    case _ => None
  }

  lemma ClaimMainTwice(t: Tables, logs: seq<Log>, close: nat -> nat, k: ClaimKey)
    requires WellFormed(t, logs, close)
    ensures Map(Get(Fold(Fold(t, logs), logs).claims, k), (r: ClaimRow) => r.main)
         == Map(Get(Fold(t, logs).claims, k), (r: ClaimRow) => r.main)
  {
    LastCellTwice(t, logs, (s: Tables) => Map(Get(s.claims, k), (r: ClaimRow) => r.main),
                  (log: Log) => ClaimMainOf(log, k), close);
  }

  lemma ClaimOriginTwice(t: Tables, logs: seq<Log>, close: nat -> nat, k: ClaimKey)
    requires WellFormed(t, logs, close)
    ensures Map(Get(Fold(Fold(t, logs), logs).claims, k), (r: ClaimRow) => (r.index, r.blockTime))
         == Map(Get(Fold(t, logs).claims, k), (r: ClaimRow) => (r.index, r.blockTime))
  {
    FirstCellTwice(t, logs, (s: Tables) => Map(Get(s.claims, k), (r: ClaimRow) => (r.index, r.blockTime)),
                   (log: Log) => ClaimOriginOf(log, k), close);
  }

  lemma ClaimsTwice(t: Tables, logs: seq<Log>, close: nat -> nat)
    requires WellFormed(t, logs, close)
    ensures Fold(Fold(t, logs), logs).claims == Fold(t, logs).claims
  {
    var s, s' := Fold(t, logs), Fold(Fold(t, logs), logs);
    forall k
      ensures Get(s'.claims, k) == Get(s.claims, k)
    {
      ClaimMainTwice(t, logs, close, k);
      ClaimOriginTwice(t, logs, close, k);
    }
    SameTable(s'.claims, s.claims);
  }

  type ObservationKey = (nat, ObservationKind)

  /** Which observation a log records, for which instant, and the sample. */
  function ObservationOf(log: Log, close: nat -> nat): Option<(ObservationKey, nat, Sample)> {
    match log.event
    case RoundLocked(e, price, tick, instant, at) =>
      Some(((e, Lock), instant, Sample(price, tick, at, at - instant, log.tx)))
    case RoundSettled(e, price, tick, at, _, _, _, _) =>
      WriteIf(close(e) > 0, ((e, Close), close(e), Sample(price, tick, at, at - close(e), log.tx)))
    case _ => None
  }

  function InstantOf(log: Log, close: nat -> nat, k: ObservationKey): Option<nat> {
    match ObservationOf(log, close) case Some((k', instant, _)) => WriteIf(k' == k, instant) case None => None
  }

  function SampleOf(log: Log, close: nat -> nat, k: ObservationKey): Option<Option<Sample>> {
    match ObservationOf(log, close) case Some((k', _, sample)) => WriteIf(k' == k, Some(sample)) case None => None
  }

  lemma ObservationStepKnows(t: Tables, log: Log, close: nat -> nat)
    requires Applicable(t, log, close)
    ensures Apply(t, log).observations == match ObservationOf(log, close)
      case None => t.observations
      case Some((k, instant, sample)) => t.observations[k := ObservationStep(Get(t.observations, k), instant, sample)]
  {
  }

  lemma InstantTwice(t: Tables, logs: seq<Log>, close: nat -> nat, k: ObservationKey)
    requires WellFormed(t, logs, close)
    ensures Map(Get(Fold(Fold(t, logs), logs).observations, k), (r: ObservationRow) => r.instant)
         == Map(Get(Fold(t, logs).observations, k), (r: ObservationRow) => r.instant)
  {
    var cell := (s: Tables) => Map(Get(s.observations, k), (r: ObservationRow) => r.instant);
    var write := (log: Log) => InstantOf(log, close, k);
    forall s, log | Applicable(s, log, close)
      ensures cell(Apply(s, log)) == Keep(cell(s), write(log))
    {
      ObservationStepKnows(s, log, close);
    }
    FirstCellTwice(t, logs, cell, write, close);
  }

  lemma SampleTwice(t: Tables, logs: seq<Log>, close: nat -> nat, k: ObservationKey)
    requires WellFormed(t, logs, close)
    ensures Map(Get(Fold(Fold(t, logs), logs).observations, k), (r: ObservationRow) => r.sample)
         == Map(Get(Fold(t, logs).observations, k), (r: ObservationRow) => r.sample)
  {
    var cell := (s: Tables) => Map(Get(s.observations, k), (r: ObservationRow) => r.sample);
    var write := (log: Log) => SampleOf(log, close, k);
    forall s, log | Applicable(s, log, close)
      ensures cell(Apply(s, log)) == Overwrite(cell(s), write(log))
    {
      ObservationStepKnows(s, log, close);
    }
    LastCellTwice(t, logs, cell, write, close);
  }

  lemma ObservationsTwice(t: Tables, logs: seq<Log>, close: nat -> nat)
    requires WellFormed(t, logs, close)
    ensures Fold(Fold(t, logs), logs).observations == Fold(t, logs).observations
  {
    var s, s' := Fold(t, logs), Fold(Fold(t, logs), logs);
    forall k
      ensures Get(s'.observations, k) == Get(s.observations, k)
    {
      InstantTwice(t, logs, close, k);
      SampleTwice(t, logs, close, k);
    }
    SameTable(s'.observations, s.observations);
  }

  // ---- rounds -------------------------------------------------------------------------

  /** A round's columns other than its totals, with the defaults a missing row stands for. */
  datatype Columns = Columns(
    schedule: Option<Schedule>, locked: Option<LockPart>, settled: Option<SettlePart>, status: Status,
    outcome: Option<OutcomeName>, cancelReason: Option<nat>)

  function ColumnsOf(row: Option<RoundRow>): Columns {
    match row
    case None => Columns(None, None, None, Status.Open, None, None)
    case Some(r) => Columns(Some(r.schedule), r.locked, r.settled, r.status, r.outcome, r.cancelReason)
  }

  function ScheduleOf(event: Event, e: nat): Option<Option<Schedule>> {
    match event case RoundStarted(e', schedule) => WriteIf(e' == e, Some(schedule)) case _ => None
  }

  function LockedOf(event: Event, e: nat): Option<Option<LockPart>> {
    match event
    case RoundLocked(e', price, tick, _, at) => WriteIf(e' == e, Some(LockPart(price, tick, at)))
    case _ => None
  }

  function SettledOf(event: Event, e: nat): Option<Option<SettlePart>> {
    match event
    case RoundSettled(e', price, tick, at, _, rewardBase, rewardAmount, burnFee) =>
      WriteIf(e' == e, Some(SettlePart(price, tick, at, rewardBase, rewardAmount, burnFee)))
    case _ => None
  }

  function StatusOf(event: Event, e: nat): Option<Status> {
    match event
    case RoundLocked(e', _, _, _, _) => WriteIf(e' == e, Status.Locked)
    case RoundSettled(e', _, _, _, _, _, _, _) => WriteIf(e' == e, Status.Settled)
    case RoundCancelled(e', _) => WriteIf(e' == e, Status.Cancelled)
    case _ => None
  }

  function DecidedOf(event: Event, e: nat): Option<Option<OutcomeName>> {
    match event
    case RoundSettled(e', _, _, _, outcome, _, _, _) => WriteIf(e' == e, Some(OutcomeOf(outcome)))
    case RoundCancelled(e', _) => WriteIf(e' == e, Some(Void))
    case _ => None
  }

  function ReasonOf(event: Event, e: nat): Option<Option<nat>> {
    match event case RoundCancelled(e', reason) => WriteIf(e' == e, Some(reason)) case _ => None
  }

  /** Each column of a round is written by its own kinds of log. */
  lemma ColumnsStep(t: Tables, log: Log, close: nat -> nat, e: nat)
    requires Applicable(t, log, close)
    ensures var before, after := ColumnsOf(Get(t.rounds, e)), ColumnsOf(Get(Apply(t, log).rounds, e));
      && after.schedule == Overwrite(before.schedule, ScheduleOf(log.event, e))
      && after.locked == Overwrite(before.locked, LockedOf(log.event, e))
      && after.settled == Overwrite(before.settled, SettledOf(log.event, e))
      && after.status == Overwrite(before.status, StatusOf(log.event, e))
      && after.outcome == Overwrite(before.outcome, DecidedOf(log.event, e))
      && after.cancelReason == Overwrite(before.cancelReason, ReasonOf(log.event, e))
  {
    assert Needs(log.event) == Some(e) ==> e in t.rounds;
  }

  lemma ColumnTwice<T(!new)>(t: Tables, logs: seq<Log>, close: nat -> nat, e: nat, column: Columns -> T,
                             write: (Event, nat) -> Option<T>)
    requires WellFormed(t, logs, close)
    requires forall s, log | Applicable(s, log, close) ::
      column(ColumnsOf(Get(Apply(s, log).rounds, e)))
        == Overwrite(column(ColumnsOf(Get(s.rounds, e))), write(log.event, e))
    ensures column(ColumnsOf(Get(Fold(Fold(t, logs), logs).rounds, e)))
      == column(ColumnsOf(Get(Fold(t, logs).rounds, e)))
  {
    LastCellTwice(t, logs, (s: Tables) => column(ColumnsOf(Get(s.rounds, e))), (log: Log) => write(log.event, e),
                  close);
  }

  lemma ColumnsTwice(t: Tables, logs: seq<Log>, close: nat -> nat, e: nat)
    requires WellFormed(t, logs, close)
    ensures ColumnsOf(Get(Fold(Fold(t, logs), logs).rounds, e)) == ColumnsOf(Get(Fold(t, logs).rounds, e))
  {
    forall s, log | Applicable(s, log, close)
      ensures var before, after := ColumnsOf(Get(s.rounds, e)), ColumnsOf(Get(Apply(s, log).rounds, e));
        && after.schedule == Overwrite(before.schedule, ScheduleOf(log.event, e))
        && after.locked == Overwrite(before.locked, LockedOf(log.event, e))
        && after.settled == Overwrite(before.settled, SettledOf(log.event, e))
        && after.status == Overwrite(before.status, StatusOf(log.event, e))
        && after.outcome == Overwrite(before.outcome, DecidedOf(log.event, e))
        && after.cancelReason == Overwrite(before.cancelReason, ReasonOf(log.event, e))
    {
      ColumnsStep(s, log, close, e);
    }
    ColumnTwice(t, logs, close, e, (c: Columns) => c.schedule, ScheduleOf);
    ColumnTwice(t, logs, close, e, (c: Columns) => c.locked, LockedOf);
    ColumnTwice(t, logs, close, e, (c: Columns) => c.settled, SettledOf);
    ColumnTwice(t, logs, close, e, (c: Columns) => c.status, StatusOf);
    ColumnTwice(t, logs, close, e, (c: Columns) => c.outcome, DecidedOf);
    ColumnTwice(t, logs, close, e, (c: Columns) => c.cancelReason, ReasonOf);
  }

  // ---- derived columns ----------------------------------------------------------------

  ghost predicate TotalsCurrent(rounds: Rounds, bets: Bets) {
    && (forall k | k in bets :: k.epoch in rounds)
    && (forall e | e in rounds :: rounds[e].totals == TotalsOf(bets, e))
  }

  ghost predicate HasActivity(bets: Bets, claims: Claims, a: Account) {
    (exists e :: BetKey(e, a) in bets) || (exists e, kind :: ClaimKey(e, a, kind) in claims)
  }

  ghost predicate RollupsCurrent(users: map<Account, UserRow>, bets: Bets, claims: Claims) {
    && (forall a :: a in users <==> HasActivity(bets, claims, a))
    && (forall a | a in users :: users[a] == Rollup(bets, claims, a))
  }

  /** Totals and roll-ups are exactly what recomputing them from the bets and claims would give. */
  ghost predicate Derived(t: Tables) {
    TotalsCurrent(t.rounds, t.bets) && RollupsCurrent(t.users, t.bets, t.claims)
  }

  lemma EmptyIsDerived()
    ensures Derived(Empty)
  {
  }

  lemma NoBetsNoTotals(bets: Bets, epoch: nat)
    requires forall k | k in bets :: k.epoch != epoch
    ensures TotalsOf(bets, epoch) == Totals(0, 0, 0)
  {
    assert BetsIn(bets, epoch) == map[];
    assert Stakes(map[], {true}) == map[] && Stakes(map[], {false}) == map[];
  }

  lemma OtherRoundsKeepTotals(bets: Bets, k: BetKey, row: BetRow, epoch: nat)
    requires k.epoch != epoch
    ensures TotalsOf(bets[k := row], epoch) == TotalsOf(bets, epoch)
  {
    assert BetsIn(bets[k := row], epoch) == BetsIn(bets, epoch);
  }

  lemma OtherBettorsKeepRollup(bets: Bets, k: BetKey, row: BetRow, claims: Claims, a: Account)
    requires k.account != a
    ensures Rollup(bets[k := row], claims, a) == Rollup(bets, claims, a)
  {
    assert BetsOf(bets[k := row], a) == BetsOf(bets, a);
  }

  lemma OtherClaimantsKeepRollup(bets: Bets, claims: Claims, k: ClaimKey, row: ClaimRow, a: Account)
    requires k.account != a
    ensures Rollup(bets, claims[k := row], a) == Rollup(bets, claims, a)
  {
    assert ClaimsOf(claims[k := row], a, Claim) == ClaimsOf(claims, a, Claim);
    assert ClaimsOf(claims[k := row], a, Refund) == ClaimsOf(claims, a, Refund);
  }

  lemma BetKeepsTotals(rounds: Rounds, bets: Bets, k: BetKey, row: BetRow)
    requires TotalsCurrent(rounds, bets) && k.epoch in rounds
    ensures TotalsCurrent(RecomputeTotals(rounds, bets[k := row], k.epoch), bets[k := row])
  {
    var rounds' := RecomputeTotals(rounds, bets[k := row], k.epoch);
    forall e | e in rounds'
      ensures rounds'[e].totals == TotalsOf(bets[k := row], e)
    {
      if e != k.epoch {
        OtherRoundsKeepTotals(bets, k, row, e);
      }
    }
  }

  lemma BetKeepsRollups(users: map<Account, UserRow>, bets: Bets, claims: Claims, k: BetKey, row: BetRow)
    requires RollupsCurrent(users, bets, claims)
    ensures RollupsCurrent(users[k.account := Rollup(bets[k := row], claims, k.account)], bets[k := row], claims)
  {
    var bets' := bets[k := row];
    var users' := users[k.account := Rollup(bets', claims, k.account)];
    forall a
      ensures a in users' <==> HasActivity(bets', claims, a)
      ensures a in users' ==> users'[a] == Rollup(bets', claims, a)
    {
      if a != k.account {
        OtherBettorsKeepRollup(bets, k, row, claims, a);
        assert forall e :: BetKey(e, a) in bets' <==> BetKey(e, a) in bets;
        assert HasActivity(bets', claims, a) <==> HasActivity(bets, claims, a);
      } else {
        assert BetKey(k.epoch, a) in bets';
      }
    }
  }

  lemma PaidKeepsRollups(users: map<Account, UserRow>, bets: Bets, claims: Claims, k: ClaimKey, row: ClaimRow)
    requires RollupsCurrent(users, bets, claims)
    ensures RollupsCurrent(users[k.account := Rollup(bets, claims[k := row], k.account)], bets, claims[k := row])
  {
    var claims' := claims[k := row];
    var users' := users[k.account := Rollup(bets, claims', k.account)];
    forall a
      ensures a in users' <==> HasActivity(bets, claims', a)
      ensures a in users' ==> users'[a] == Rollup(bets, claims', a)
    {
      if a != k.account {
        OtherClaimantsKeepRollup(bets, claims, k, row, a);
        assert forall e, kind :: ClaimKey(e, a, kind) in claims' <==> ClaimKey(e, a, kind) in claims;
        assert HasActivity(bets, claims', a) <==> HasActivity(bets, claims, a);
      } else {
        assert ClaimKey(k.epoch, a, k.kind) in claims';
      }
    }
  }

  /** Refreshing the winners changes nothing: their win counts were already current. */
  lemma MarkingWinnersIsIdle(users: map<Account, UserRow>, bets: Bets, claims: Claims, epoch: nat, outcome: OutcomeName)
    requires RollupsCurrent(users, bets, claims)
    ensures MarkWinners(users, bets, claims, epoch, outcome) == users
  {
  }

  lemma RoundLogKeepsTotals(rounds: Rounds, bets: Bets, event: Event)
    requires TotalsCurrent(rounds, bets)
    ensures TotalsCurrent(StepRounds(rounds, event), bets)
  {
    var rounds' := StepRounds(rounds, event);
    forall e | e in rounds'
      ensures rounds'[e].totals == TotalsOf(bets, e)
    {
      if e !in rounds {
        NoBetsNoTotals(bets, e);
      }
    }
  }

  lemma BetKeepsDerived(t: Tables, log: Log, k: BetKey, row: BetRow)
    requires Derived(t) && log.event.BetPlaced? && k.epoch in t.rounds
    requires k == BetKey(log.event.epoch, log.event.account) && BetsAfter(t.bets, log) == t.bets[k := row]
    ensures Derived(Apply(t, log))
  {
    BetKeepsTotals(t.rounds, t.bets, k, row);
    BetKeepsRollups(t.users, t.bets, t.claims, k, row);
  }

  lemma PaidKeepsDerived(t: Tables, log: Log, k: ClaimKey, row: ClaimRow)
    requires Derived(t) && log.event.Paid?
    requires k == ClaimKey(log.event.epoch, log.event.account, log.event.kind)
    requires ClaimsAfter(t.claims, log) == t.claims[k := row]
    ensures Derived(Apply(t, log))
  {
    PaidKeepsRollups(t.users, t.bets, t.claims, k, row);
  }

  lemma RoundLogKeepsDerived(t: Tables, log: Log)
    requires Derived(t) && !log.event.BetPlaced? && !log.event.Paid?
    ensures Derived(Apply(t, log))
  {
    RoundLogKeepsTotals(t.rounds, t.bets, log.event);
    if log.event.RoundSettled? {
      MarkingWinnersIsIdle(t.users, t.bets, t.claims, log.event.epoch, OutcomeOf(log.event.outcome));
    }
  }

  lemma StepKeepsDerived(t: Tables, log: Log, close: nat -> nat)
    requires Derived(t) && Applicable(t, log, close)
    ensures Derived(Apply(t, log))
  {
    match log.event {
      case BetPlaced(e, account, _, _) =>
        BetKeepsDerived(t, log, BetKey(e, account), BetsAfter(t.bets, log)[BetKey(e, account)]);
      case Paid(e, account, kind, _) =>
        PaidKeepsDerived(t, log, ClaimKey(e, account, kind), ClaimsAfter(t.claims, log)[ClaimKey(e, account, kind)]);
      case _ =>
        RoundLogKeepsDerived(t, log);
    }
  }

  /** After every log of a well-formed stream, totals and roll-ups are current. */
  lemma {:induction false} FoldKeepsDerived(t: Tables, logs: seq<Log>, close: nat -> nat)
    requires Derived(t) && WellFormed(t, logs, close)
    ensures Derived(Fold(t, logs))
  {
    if logs != [] {
      var n := |logs| - 1;
      PrefixWellFormed(t, logs, n, close);
      FoldReady(t, logs[..n], close);
      StepApplicable(t, logs, n, close);
      FoldKeepsDerived(t, logs[..n], close);
      StepKeepsDerived(Fold(t, logs[..n]), logs[n], close);
    }
  }

  lemma DerivedRounds(s: Tables, s': Tables)
    requires Derived(s) && Derived(s') && s'.bets == s.bets
    requires forall e :: ColumnsOf(Get(s'.rounds, e)) == ColumnsOf(Get(s.rounds, e))
    ensures s'.rounds == s.rounds
  {
    forall e
      ensures Get(s'.rounds, e) == Get(s.rounds, e)
    {
      assert ColumnsOf(Get(s'.rounds, e)) == ColumnsOf(Get(s.rounds, e));
    }
    SameTable(s'.rounds, s.rounds);
  }

  lemma DerivedUsers(s: Tables, s': Tables)
    requires Derived(s) && Derived(s') && s'.bets == s.bets && s'.claims == s.claims
    ensures s'.users == s.users
  {
    forall a
      ensures Get(s'.users, a) == Get(s.users, a)
    {
      assert a in s'.users <==> HasActivity(s.bets, s.claims, a);
    }
    SameTable(s'.users, s.users);
  }

  /** Applying a well-formed stream twice over leaves every table as applying it once. */
  lemma StreamTwice(t: Tables, logs: seq<Log>, close: nat -> nat)
    requires Derived(t) && WellFormed(t, logs, close)
    ensures Fold(Fold(t, logs), logs) == Fold(t, logs)
  {
    EventsTwice(t, logs, close);
    ExecutionsTwice(t, logs, close);
    BurnEventsTwice(t, logs, close);
    BurnsTwice(t, logs, close);
    BetsTwice(t, logs, close);
    ClaimsTwice(t, logs, close);
    ObservationsTwice(t, logs, close);
    AgainWellFormed(t, logs, close);
    FoldKeepsDerived(t, logs, close);
    FoldKeepsDerived(Fold(t, logs), logs, close);
    forall e
      ensures ColumnsOf(Get(Fold(Fold(t, logs), logs).rounds, e)) == ColumnsOf(Get(Fold(t, logs).rounds, e))
    {
      ColumnsTwice(t, logs, close, e);
    }
    DerivedRounds(Fold(t, logs), Fold(Fold(t, logs), logs));
    DerivedUsers(Fold(t, logs), Fold(Fold(t, logs), logs));
  }

  /** Re-indexing any suffix of the logs, over the finished read model, is a no-op on every table. */
  lemma ReplayIsNoOp(t: Tables, logs: seq<Log>, k: nat, close: nat -> nat)
    requires Derived(t) && WellFormed(t, logs, close) && k <= |logs|
    ensures Fold(t, logs + logs[k..]) == Fold(t, logs)
  {
    var before := Fold(t, logs[..k]);
    PrefixWellFormed(t, logs, k, close);
    FoldKeepsDerived(t, logs[..k], close);
    SuffixWellFormed(t, logs, k, close);
    assert logs == logs[..k] + logs[k..];
    FoldConcat(t, logs[..k], logs[k..]);
    FoldConcat(t, logs, logs[k..]);
    StreamTwice(before, logs[k..], close);
  }

  lemma FoldTwoLogs(t: Tables, a: Log, b: Log)
    ensures Fold(t, [a, b]) == Apply(Apply(t, a), b)
  {
    assert [a, b][..1] == [a] && [a][..0] == [];
    assert Fold(t, [a]) == Apply(Fold(t, []), a);
  }

  /** The order is needed: a log about a round that arrives before its start is lost the first time and
      applied by the replay. No run of the market emits such a stream, as the mirror of its storage
      shows; it takes a source of logs that delivers them out of order. */
  lemma OutOfOrderReplayDiffers(schedule: Schedule, price: nat, at: nat)
    ensures var locked := Log(1, 0, 0, 0, None, None, RoundLocked(1, price, 0, 0, at));
      var started := Log(2, 0, 0, 1, None, None, RoundStarted(1, schedule));
      Fold(Empty, [locked, started] + [locked, started]) != Fold(Empty, [locked, started])
  {
    var locked := Log(1, 0, 0, 0, None, None, RoundLocked(1, price, 0, 0, at));
    var started := Log(2, 0, 0, 1, None, None, RoundStarted(1, schedule));
    var logs := [locked, started];
    FoldTwoLogs(Empty, locked, started);
    var once := Fold(Empty, logs);
    FoldTwoLogs(once, locked, started);
    FoldConcat(Empty, logs, logs);
    assert once.rounds[1].locked == None;
    assert Fold(once, logs).rounds[1].locked == Some(LockPart(price, 0, at));
  }
}
