/** What whole runs keep: frozen pools, pinned terms, the status graph, timelocks, the schedule,
    and the fact that reentrant calls add no behaviour of their own. */
module MarketHistory {
  import opened Util
  import opened MarketTypes
  import opened MarketSpec
  import opened MarketInvariant

  // ---- runs ---------------------------------------------------------------------------

  lemma {:induction false} RunConcat(s: State, xs: seq<Tx>, ys: seq<Tx>)
    ensures Run(s, xs + ys) == Run(Run(s, xs), ys)
    decreases |xs|
  {
    if xs == [] {
      assert xs + ys == ys;
    } else {
      assert (xs + ys)[1..] == xs[1..] + ys;
      RunConcat(Step(s, xs[0]), xs[1..], ys);
    }
  }

  lemma RunSnoc(s: State, txs: seq<Tx>, n: nat)
    requires n < |txs|
    ensures Run(s, txs[..n + 1]) == Step(Run(s, txs[..n]), txs[n])
  {
    assert txs[..n + 1] == txs[..n] + [txs[n]];
    RunConcat(s, txs[..n], [txs[n]]);
    assert [txs[n]][1..] == [];
    assert Run(Step(Run(s, txs[..n]), txs[n]), []) == Step(Run(s, txs[..n]), txs[n]);
  }

  lemma {:induction false} ChronologicalConcat(now: nat, xs: seq<Tx>, ys: seq<Tx>)
    requires Chronological(now, xs) && Chronological(EndTime(now, xs), ys)
    ensures Chronological(now, xs + ys)
    ensures EndTime(now, xs + ys) == EndTime(EndTime(now, xs), ys)
    decreases |xs|
  {
    if xs == [] {
      assert xs + ys == ys;
    } else {
      assert (xs + ys)[1..] == xs[1..] + ys;
      ChronologicalConcat(xs[0].world.now, xs[1..], ys);
    }
  }

  // ---- reentrancy ---------------------------------------------------------------------

  /** No receiver calls back. */
  predicate Flat(tx: Tx) {
    match tx.call
    case Claim(_, receiver) => receiver == Passive
    case SweepToBurner(receiver) => receiver == Passive
    case _ => true
  }

  /** `seen` holds of the world of the call and of every world its receiver may call back in. */
  ghost predicate EveryWorld(tx: Tx, seen: World -> bool) {
    && seen(tx.world)
    && (match tx.call
        case Claim(_, receiver) => SeenInside(receiver.inner, tx.world.now, seen)
        case SweepToBurner(receiver) => SeenInside(receiver.inner, tx.world.now, seen)
        case _ => true)
  }

  ghost predicate SeenInside(inner: seq<Tx>, now: nat, seen: World -> bool) {
    forall i | 0 <= i < |inner| :: seen(inner[i].world.(now := now))
  }

  ghost predicate FlatAt(txs: seq<Tx>, now: nat, seen: World -> bool) {
    forall i | 0 <= i < |txs| :: Flat(txs[i]) && txs[i].world.now == now && seen(txs[i].world)
  }

  ghost predicate AllFlat(txs: seq<Tx>) {
    forall i | 0 <= i < |txs| :: Flat(txs[i])
  }

  ghost predicate AllSeen(txs: seq<Tx>, seen: World -> bool) {
    forall i | 0 <= i < |txs| :: EveryWorld(txs[i], seen)
  }

  function Unnest(inner: seq<Tx>, now: nat): seq<Tx> {
    if inner == [] then []
    else
      (if Guarded(inner[0].call) then [] else [inner[0].(world := inner[0].world.(now := now))])
      + Unnest(inner[1..], now)
  }

  lemma {:induction false} UnnestRuns(s: State, inner: seq<Tx>, now: nat, seen: World -> bool)
    requires SeenInside(inner, now, seen)
    ensures FlatAt(Unnest(inner, now), now, seen)
    ensures Run(s, Unnest(inner, now)) == ReenterAll(s, now, inner)
    decreases |inner|
  {
    if inner != [] {
      UnnestRuns(Reenter(s, now, inner[0]), inner[1..], now, seen);
      if !Guarded(inner[0].call) {
        var tx := inner[0].(world := inner[0].world.(now := now));
        assert Unnest(inner, now) == [tx] + Unnest(inner[1..], now);
        assert ([tx] + Unnest(inner[1..], now))[1..] == Unnest(inner[1..], now);
        assert Step(s, tx) == Reenter(s, now, inner[0]);
      } else {
        assert Unnest(inner, now) == Unnest(inner[1..], now);
      }
    }
  }

  /** A transaction whose receiver calls back is a sequence of plain transactions in the
      same block: reentrancy reaches no state that separate calls could not reach. */
  lemma ReentrancyAddsNothing(s: State, tx: Tx, seen: World -> bool) returns (flat: seq<Tx>)
    requires EveryWorld(tx, seen)
    ensures FlatAt(flat, tx.world.now, seen)
    ensures Run(s, flat) == Step(s, tx)
  {
    hide ClaimEffects, SweepEffects, ApplyUnguarded, OnEnter, Reenter;
    if Apply(s, tx).Revert? {
      flat := [];
    } else {
      var now := tx.world.now;
      var outer, inner := tx, [];
      match tx.call {
        case Claim(epochs, receiver) =>
          outer, inner := tx.(call := Claim(epochs, Passive)), receiver.inner;
        case SweepToBurner(receiver) =>
          outer, inner := tx.(call := SweepToBurner(Passive)), receiver.inner;
        case _ =>
      }
      UnnestRuns(Step(s, outer), inner, now, seen);
      flat := [outer] + Unnest(inner, now);
      assert flat[1..] == Unnest(inner, now);
    }
  }

  lemma {:induction false} SameTimeIsChronological(now: nat, txs: seq<Tx>, t: nat)
    requires now <= t && forall i | 0 <= i < |txs| :: txs[i].world.now == t
    ensures Chronological(now, txs) && now <= EndTime(now, txs) <= t
    decreases |txs|
  {
    if txs != [] {
      SameTimeIsChronological(t, txs[1..], t);
    }
  }

  /** Every run with reentrancy ends where some run without it ends. */
  lemma {:induction false} FlattenRun(s: State, now: nat, txs: seq<Tx>, seen: World -> bool) returns (flat: seq<Tx>)
    requires Chronological(now, txs) && AllSeen(txs, seen)
    ensures AllFlat(flat) && Chronological(now, flat) && EndTime(now, flat) <= EndTime(now, txs)
    ensures forall i | 0 <= i < |flat| :: seen(flat[i].world)
    ensures Run(s, flat) == Run(s, txs)
    decreases |txs|
  {
    hide Step, Flat;
    if txs == [] {
      flat := [];
    } else {
      assert EveryWorld(txs[0], seen);
      var head := ReentrancyAddsNothing(s, txs[0], seen);
      var t := txs[0].world.now;
      SameTimeIsChronological(now, head, t);
      assert AllSeen(txs[1..], seen) by {
        assert forall i | 0 <= i < |txs[1..]| :: txs[1..][i] == txs[i + 1];
      }
      var tail := FlattenRun(Step(s, txs[0]), t, txs[1..], seen);
      WidenStart(EndTime(now, head), t, tail);
      flat := head + tail;
      ChronologicalConcat(now, head, tail);
      RunConcat(s, head, tail);
    }
  }

  lemma WidenStart(now: nat, t: nat, txs: seq<Tx>)
    requires Chronological(t, txs) && now <= t
    ensures Chronological(now, txs) && EndTime(now, txs) <= EndTime(t, txs)
  {
  }

  /** The plain calls a transaction amounts to: itself, then what its receiver calls back. */
  function CallsOf(s: State, tx: Tx): seq<Tx> {
    if Apply(s, tx).Revert? then []
    else match tx.call
      case Claim(epochs, receiver) =>
        [tx.(call := Claim(epochs, Passive))] + Unnest(receiver.inner, tx.world.now)
      case SweepToBurner(receiver) =>
        [tx.(call := SweepToBurner(Passive))] + Unnest(receiver.inner, tx.world.now)
      case _ => [tx]
  }

  lemma CallsOfRun(s: State, tx: Tx)
    ensures Run(s, CallsOf(s, tx)) == Step(s, tx) && AllFlat(CallsOf(s, tx))
    ensures forall i | 0 <= i < |CallsOf(s, tx)| :: CallsOf(s, tx)[i].world.now == tx.world.now
  {
    hide ClaimEffects, SweepEffects, ApplyUnguarded, OnEnter, Reenter;
    if Apply(s, tx).Ok? {
      var now := tx.world.now;
      var outer, inner := tx, [];
      match tx.call {
        case Claim(epochs, receiver) => outer, inner := tx.(call := Claim(epochs, Passive)), receiver.inner;
        case SweepToBurner(receiver) => outer, inner := tx.(call := SweepToBurner(Passive)), receiver.inner;
        case _ =>
      }
      UnnestRuns(Step(s, outer), inner, now, w => true);
      assert CallsOf(s, tx) == [outer] + Unnest(inner, now);
      assert CallsOf(s, tx)[1..] == Unnest(inner, now);
    }
  }

  /** Every call of a run in the order it takes effect, reentrant calls included. */
  function Calls(s: State, txs: seq<Tx>): seq<Tx>
    decreases |txs|
  {
    if txs == [] then [] else CallsOf(s, txs[0]) + Calls(Step(s, txs[0]), txs[1..])
  }

  /** A run is its calls, one after another. */
  lemma {:induction false} CallsRun(s: State, now: nat, txs: seq<Tx>)
    requires Chronological(now, txs)
    ensures Run(s, Calls(s, txs)) == Run(s, txs) && AllFlat(Calls(s, txs))
    ensures Chronological(now, Calls(s, txs)) && EndTime(now, Calls(s, txs)) <= EndTime(now, txs)
    decreases |txs|
  {
    hide CallsOf, Step;
    if txs != [] {
      var head, t, s1 := CallsOf(s, txs[0]), txs[0].world.now, Step(s, txs[0]);
      CallsOfRun(s, txs[0]);
      CallsRun(s1, t, txs[1..]);
      SameTimeIsChronological(now, head, t);
      WidenStart(EndTime(now, head), t, Calls(s1, txs[1..]));
      ChronologicalConcat(now, head, Calls(s1, txs[1..]));
      RunConcat(s, head, Calls(s1, txs[1..]));
    }
  }

  // ---- one round through time ---------------------------------------------------------

  /** Pending, Open, Locked, Settled in that order, with Cancelled reachable from the middle two. */
  predicate Leads(from: Status, to: Status) {
    match from
    case Pending => true
    case Open => !to.Pending?
    case Locked => to.Locked? || to.Settled? || to.Cancelled?
    case Settled => to.Settled?
    case Cancelled => to.Cancelled?
  }

  predicate SameStakes(l: Book, l': Book) {
    && l'.Keys == l.Keys
    && (forall a :: a in l ==> l'[a].position == l[a].position && l'[a].amount == l[a].amount)
  }

  predicate SamePins(t: Terms, t': Terms) {
    t'.oracle == t.oracle && t'.twapWindow == t.twapWindow && t'.burnFeeBps == t.burnFeeBps
    && t'.oracleVersion == t.oracleVersion
  }

  predicate SamePools(r: Round, r': Round) {
    r'.totalAmount == r.totalAmount && r'.bullAmount == r.bullAmount && r'.bearAmount == r.bearAmount
  }

  predicate SameSchedule(r: Round, r': Round) {
    r'.epoch == r.epoch && r'.startTimestamp == r.startTimestamp && r'.lockTimestamp == r.lockTimestamp
    && r'.closeTimestamp == r.closeTimestamp
  }

  /** Entries close on the clock, whether or not anyone has locked the round. */
  predicate Frozen(r: Round, now: nat) {
    now >= r.lockTimestamp || r.status.Locked? || r.status.Settled? || r.status.Cancelled?
  }

  /** How one existing round may change from time `now` on. */
  predicate RoundEvolves(r: Round, t: Terms, l: Book, r': Round, t': Terms, l': Book, now: nat) {
    && SameSchedule(r, r')
    && SamePins(t, t')
    && Leads(r.status, r'.status)
    && (Frozen(r, now) ==> SamePools(r, r') && SameStakes(l, l'))
    && (r.status.Locked? || r.status.Settled? ==>
          r'.lockPrice == r.lockPrice && t'.lockTick == t.lockTick && t'.lockedAt == t.lockedAt)
    && (r.status.Settled? || r.status.Cancelled? ==> r' == r && t' == t)
    && l.Keys <= l'.Keys
    && (forall a :: a in l ==> BetEvolves(l[a], l'[a]))
  }

  /** A claimed entry stays claimed and a placed stake is never altered. */
  predicate BetEvolves(b: Bet, b': Bet) {
    && (b.claimed ==> b'.claimed)
    && (b.amount > 0 ==> b'.position == b.position && b'.amount == b.amount)
  }

  predicate EvolvesAt(s: State, s': State, epoch: nat, now: nat) {
    RoundEvolves(s.RoundOf(epoch), s.TermsOf(epoch), s.BookOf(epoch),
                 s'.RoundOf(epoch), s'.TermsOf(epoch), s'.BookOf(epoch), now)
  }

  ghost predicate Evolves(s: State, s': State, now: nat) {
    && s.currentEpoch <= s'.currentEpoch
    && (forall e | 1 <= e <= s.currentEpoch :: EvolvesAt(s, s', e, now))
  }

  lemma EvolvesReflexive(s: State, s': State, now: nat)
    requires s'.rounds == s.rounds && s'.terms == s.terms && s'.ledger == s.ledger
    requires s.currentEpoch == s'.currentEpoch
    ensures Evolves(s, s', now)
  {
  }

  lemma RoundEvolvesTransitive(r: Round, t: Terms, l: Book, r1: Round, t1: Terms, l1: Book,
                               r2: Round, t2: Terms, l2: Book, now: nat, now1: nat)
    requires RoundEvolves(r, t, l, r1, t1, l1, now) && RoundEvolves(r1, t1, l1, r2, t2, l2, now1)
    requires now <= now1
    ensures RoundEvolves(r, t, l, r2, t2, l2, now)
  {
    forall a | a in l
      ensures BetEvolves(l[a], l2[a])
    {
      assert BetEvolves(l[a], l1[a]) && BetEvolves(l1[a], l2[a]);
    }
    if Frozen(r, now) {
      assert SameStakes(l, l1) && SameStakes(l1, l2);
      assert forall a :: a in l ==> l1[a].position == l[a].position && l2[a].position == l1[a].position;
    }
  }

  lemma EvolvesTransitive(s: State, s1: State, s2: State, now: nat, now1: nat)
    requires Evolves(s, s1, now) && Evolves(s1, s2, now1) && now <= now1
    ensures Evolves(s, s2, now)
  {
    forall e | 1 <= e <= s.currentEpoch
      ensures EvolvesAt(s, s2, e, now)
    {
      assert EvolvesAt(s, s1, e, now) && EvolvesAt(s1, s2, e, now1);
      RoundEvolvesTransitive(s.RoundOf(e), s.TermsOf(e), s.BookOf(e), s1.RoundOf(e), s1.TermsOf(e), s1.BookOf(e),
                             s2.RoundOf(e), s2.TermsOf(e), s2.BookOf(e), now, now1);
    }
  }

  lemma EnterEvolves(s: State, w: World, sender: Address, epoch: nat, position: Position, amount: nat)
    requires Inv(s, w.now) && OnEnter(s, w, sender, epoch, position, amount).Ok?
    ensures Evolves(s, OnEnter(s, w, sender, epoch, position, amount).state, w.now)
  {
    assert RoundAtOk(s, epoch, w.now);
  }

  lemma CreateEvolves(s: State, w: World, epoch: nat, start: nat, lock: nat, close: nat)
    requires epoch == s.currentEpoch + 1
    ensures Evolves(s, CreateRound(s, w, epoch, start, lock, close).(currentEpoch := epoch), w.now)
  {
  }

  lemma LockEvolves(s: State, w: World, epoch: nat)
    requires OnLock(s, w, epoch).Ok?
    ensures Evolves(s, OnLock(s, w, epoch).state, w.now)
  {
  }

  lemma SettleEvolves(s: State, w: World, epoch: nat)
    requires s.RoundOf(epoch).status.Locked? && TrySettle(s, w, epoch).Ok?
    ensures Evolves(s, TrySettle(s, w, epoch).state, w.now)
  {
  }

  lemma VoidEvolves(s: State, epoch: nat, now: nat)
    requires s.RoundOf(epoch).status.Open? || s.RoundOf(epoch).status.Locked?
    ensures Evolves(s, Void(s, epoch), now)
  {
  }

  lemma {:induction false} ScanEvolves(s: State, w: World, epoch: nat, last: nat)
    requires Scan(s, w, epoch, last).Ok?
    ensures Evolves(s, Scan(s, w, epoch, last).state, w.now)
    decreases last + 1 - epoch
  {
    if epoch > last {
      EvolvesReflexive(s, s, w.now);
    } else {
      var r := s.RoundOf(epoch);
      var due := r.status.Open? && w.now >= r.lockTimestamp && TryLock(s, w, epoch).Some?;
      var s1 := if due then TryLock(s, w, epoch).value else s;
      if due {
        LockEvolves(s, w, epoch);
      } else {
        EvolvesReflexive(s, s, w.now);
      }
      var s2 := s1;
      if s1.RoundOf(epoch).status.Locked? && w.now >= s1.RoundOf(epoch).closeTimestamp
         && TrySettle(s1, w, epoch).Ok? {
        SettleEvolves(s1, w, epoch);
        s2 := TrySettle(s1, w, epoch).state;
      } else {
        EvolvesReflexive(s1, s1, w.now);
      }
      ScanEvolves(s2, w, epoch + 1, last);
      EvolvesTransitive(s, s1, s2, w.now, w.now);
      EvolvesTransitive(s, s2, Scan(s, w, epoch, last).state, w.now, w.now);
    }
  }

  lemma ExecuteEvolves(s: State, w: World)
    requires Inv(s, w.now) && OnExecute(s, w).Ok?
    ensures Evolves(s, OnExecute(s, w).state, w.now)
  {
    var s1 := Scan(s, w, OldestUnresolved(s), s.currentEpoch).state;
    ScanEvolves(s, w, OldestUnresolved(s), s.currentEpoch);
    ScanKeepsInv(s, w, OldestUnresolved(s), s.currentEpoch);
    EvolvesReflexive(s1, s1, w.now);
    var head := s1.RoundOf(s1.currentEpoch);
    CreateEvolves(s1, w, s1.currentEpoch + 1, head.lockTimestamp, head.closeTimestamp,
                  head.closeTimestamp + s1.interval);
    EvolvesTransitive(s, s1, OnExecute(s, w).state, w.now, w.now);
  }

  lemma UnguardedEvolves(s: State, tx: Tx)
    requires Inv(s, tx.world.now) && !Guarded(tx.call) && ApplyUnguarded(s, tx).Ok?
    ensures Evolves(s, ApplyUnguarded(s, tx).state, tx.world.now)
  {
    var w, s' := tx.world, ApplyUnguarded(s, tx).state;
    if IsConfiguration(tx.call) {
      ConfigureKeepsRounds(s, w, tx.roles, tx.call);
      EvolvesReflexive(s, s', w.now);
    } else {
      match tx.call
      case GenesisStartRound =>
        CreateEvolves(s, w, 1, w.now, w.now + s.interval, w.now + 2 * s.interval);
      case ExecuteRound => ExecuteEvolves(s, w);
      case StartNextRound =>
        var head := s.RoundOf(s.currentEpoch);
        CreateEvolves(s, w, s.currentEpoch + 1, head.lockTimestamp, head.closeTimestamp,
                      head.closeTimestamp + s.interval);
      case LockRound(epoch) => LockEvolves(s, w, epoch);
      case SettleRound(epoch) => SettleEvolves(s, w, epoch);
      case CancelRound(epoch) => VoidEvolves(s, epoch, w.now);
      case EmergencyCancelRound(epoch) => VoidEvolves(s, epoch, w.now);
      case ForceEther(amount) => EvolvesReflexive(s, s', w.now);
    }
  }

  lemma {:induction false} MarkAllEvolves(s: State, sender: Address, epochs: seq<nat>, now: nat)
    requires MarkAll(s, sender, epochs).Marked?
    ensures Evolves(s, MarkAll(s, sender, epochs).state, now)
    decreases |epochs|
  {
    if epochs == [] {
      EvolvesReflexive(s, s, now);
    } else {
      var s1 := MarkOne(s, sender, epochs[0]).state;
      assert Evolves(s, s1, now);
      MarkAllEvolves(s1, sender, epochs[1..], now);
      EvolvesTransitive(s, s1, MarkAll(s, sender, epochs).state, now, now);
    }
  }

  lemma FlatStepEvolves(s: State, now: nat, tx: Tx)
    requires Inv(s, now) && now <= tx.world.now && Flat(tx)
    ensures Evolves(s, Step(s, tx), tx.world.now)
  {
    var t, s' := tx.world.now, Step(s, tx);
    LaterInv(s, now, t);
    if Apply(s, tx).Revert? {
      EvolvesReflexive(s, s, t);
    } else {
      match tx.call
      case Enter(epoch, position, amount) => EnterEvolves(s, tx.world, tx.sender, epoch, position, amount);
      case Claim(epochs, receiver) =>
        MarkAllEvolves(s, tx.sender, epochs, t);
        EvolvesReflexive(MarkAll(s, tx.sender, epochs).state, s', t);
        EvolvesTransitive(s, MarkAll(s, tx.sender, epochs).state, s', t, t);
      case SweepToBurner(_) => EvolvesReflexive(s, s', t);
      case _ => UnguardedEvolves(s, tx);
    }
  }

  lemma {:induction false} FlatRunEvolves(s: State, now: nat, txs: seq<Tx>)
    requires Inv(s, now) && Chronological(now, txs) && AllFlat(txs)
    ensures Evolves(s, Run(s, txs), now)
    decreases |txs|
  {
    if txs == [] {
      EvolvesReflexive(s, s, now);
    } else {
      var t, s1 := txs[0].world.now, Step(s, txs[0]);
      FlatStepEvolves(s, now, txs[0]);
      StepKeepsInv(s, now, txs[0]);
      FlatRunEvolves(s1, t, txs[1..]);
      EvolvesTransitive(s, s1, Run(s, txs), t, t);
      EvolvesEarlier(s, Run(s, txs), now, t);
    }
  }

  /** What has started later is frozen by at least what was frozen earlier. */
  lemma EvolvesEarlier(s: State, s': State, now: nat, t: nat)
    requires Evolves(s, s', t) && now <= t
    ensures Evolves(s, s', now)
  {
    forall e | 1 <= e <= s.currentEpoch
      ensures EvolvesAt(s, s', e, now)
    {
      assert EvolvesAt(s, s', e, t);
    }
  }

  /** Over any run: schedules and terms stay as pinned, statuses follow the graph, pools and stakes
      are frozen once the lock time has passed, and settled results never change. */
  lemma RunEvolves(s: State, now: nat, txs: seq<Tx>)
    requires Inv(s, now) && Chronological(now, txs)
    ensures Evolves(s, Run(s, txs), now)
  {
    var flat := FlattenRun(s, now, txs, w => true);
    FlatRunEvolves(s, now, flat);
  }

  /** A contested round pays back at least nine tenths of its pot. */
  lemma ContestedRewardIsNinetyPercent(s: State, now: nat, epoch: nat)
    requires Inv(s, now) && s.RoundOf(epoch).status.Settled?
    requires s.TermsOf(epoch).outcome.Bull? || s.TermsOf(epoch).outcome.Bear?
    ensures 10 * s.RoundOf(epoch).rewardAmount >= 9 * s.RoundOf(epoch).totalAmount
  {
    assert RoundAtOk(s, epoch, now);
    FeeWithinTotal(s.RoundOf(epoch).totalAmount, s.TermsOf(epoch).burnFeeBps);
  }

  // ---- calls that leave the rounds alone ----------------------------------------------

  predicate TouchesRounds(call: Call) {
    call.Enter? || call.GenesisStartRound? || call.ExecuteRound? || call.StartNextRound? || call.LockRound?
    || call.SettleRound? || call.CancelRound? || call.EmergencyCancelRound?
  }

  predicate SameRounds(s: State, s': State) {
    s'.rounds == s.rounds && s'.terms == s.terms && s'.currentEpoch == s.currentEpoch
  }

  lemma {:induction false} MarkAllKeepsRounds(s: State, sender: Address, epochs: seq<nat>)
    requires MarkAll(s, sender, epochs).Marked?
    ensures SameRounds(s, MarkAll(s, sender, epochs).state)
    decreases |epochs|
  {
    if epochs != [] {
      MarkAllKeepsRounds(MarkOne(s, sender, epochs[0]).state, sender, epochs[1..]);
    }
  }

  lemma OthersKeepRounds(s: State, tx: Tx)
    requires Flat(tx) && !TouchesRounds(tx.call)
    ensures SameRounds(s, Step(s, tx))
  {
    if Apply(s, tx).Ok? {
      if IsConfiguration(tx.call) {
        ConfigureKeepsRounds(s, tx.world, tx.roles, tx.call);
        assert Step(s, tx) == Configure(s, tx.world, tx.roles, tx.call).state;
      } else if tx.call.Claim? {
        MarkAllKeepsRounds(s, tx.sender, tx.call.epochs);
      }
    }
  }

  lemma StepKeepsEpoch(s: State, tx: Tx)
    requires Flat(tx) && !tx.call.StartNextRound? && !tx.call.ExecuteRound? && !tx.call.GenesisStartRound?
    ensures Step(s, tx).currentEpoch == s.currentEpoch
  {
    if !TouchesRounds(tx.call) {
      OthersKeepRounds(s, tx);
    }
  }

  // ---- timelocks ----------------------------------------------------------------------

  datatype Settings = Settings(
    oracle: Address, burner: Address, interval: nat, twapWindow: nat, bufferSeconds: nat, burnFeeBps: nat,
    pendingFeeBps: nat, pendingFeeReadyAt: nat, pendingOracle: Address, pendingOracleReadyAt: nat,
    minimumBet: nat, maximumBet: nat, maximumRoundPool: nat, paused: bool)

  function SettingsOf(s: State): Settings {
    Settings(s.oracle, s.burner, s.interval, s.twapWindow, s.bufferSeconds, s.burnFeeBps,
             s.pendingFeeBps, s.pendingFeeReadyAt, s.pendingOracle, s.pendingOracleReadyAt,
             s.minimumBet, s.maximumBet, s.maximumRoundPool, s.paused)
  }

  lemma {:induction false} ScanKeepsSettings(s: State, w: World, epoch: nat, last: nat)
    requires Scan(s, w, epoch, last).Ok?
    ensures SettingsOf(Scan(s, w, epoch, last).state) == SettingsOf(s)
    ensures Scan(s, w, epoch, last).state.balance == s.balance
    ensures Scan(s, w, epoch, last).state.forced == s.forced
    decreases last + 1 - epoch
  {
    if epoch <= last {
      ScanUnrolls(s, w, epoch, last);
      ScanKeepsSettings(ScanTurn(s, w, epoch), w, epoch + 1, last);
    }
  }

  lemma {:induction false} MarkAllKeepsSettings(s: State, sender: Address, epochs: seq<nat>)
    requires MarkAll(s, sender, epochs).Marked?
    ensures SettingsOf(MarkAll(s, sender, epochs).state) == SettingsOf(s)
    ensures MarkAll(s, sender, epochs).state.balance == s.balance
    ensures MarkAll(s, sender, epochs).state.forced == s.forced
    decreases |epochs|
  {
    if epochs != [] {
      MarkAllKeepsSettings(MarkOne(s, sender, epochs[0]).state, sender, epochs[1..]);
    }
  }

  /** Only the configuration calls touch the settings. */
  lemma OnlyConfigurationChangesSettings(s: State, tx: Tx)
    requires Flat(tx) && !IsConfiguration(tx.call)
    ensures SettingsOf(Step(s, tx)) == SettingsOf(s)
  {
    if Apply(s, tx).Ok? {
      if tx.call.ExecuteRound? {
        ScanKeepsSettings(s, tx.world, OldestUnresolved(s), s.currentEpoch);
      } else if tx.call.Claim? {
        MarkAllKeepsSettings(s, tx.sender, tx.call.epochs);
      }
    }
  }

  /** The j-th call is this proposal, made by an account with the role, and it succeeded. */
  ghost predicate Proposed(s: State, txs: seq<Tx>, j: nat, call: Call)
    requires j < |txs|
  {
    txs[j].call == call && Config in txs[j].roles && Apply(Run(s, txs[..j]), txs[j]).Ok?
  }

  /** One of the first `n` calls proposed the change that becomes ready at `readyAt`. */
  ghost predicate ProposedIn(s: State, txs: seq<Tx>, n: nat, call: Call, readyAt: nat)
    requires n <= |txs|
  {
    exists j :: 0 <= j < n && Proposed(s, txs, j, call) && txs[j].world.now + 172_800 == readyAt
  }

  /** How one transaction may touch the fee and its pending change. */
  ghost predicate FeeStep(x: State, tx: Tx, y: State) {
    && (y.pendingFeeReadyAt != 0 ==>
          || (y.pendingFeeReadyAt == x.pendingFeeReadyAt && y.pendingFeeBps == x.pendingFeeBps)
          || (tx.call == ProposeBurnFee(y.pendingFeeBps) && Config in tx.roles && Apply(x, tx).Ok?
              && tx.world.now + 172_800 == y.pendingFeeReadyAt))
    && (y.burnFeeBps != x.burnFeeBps ==>
          x.pendingFeeReadyAt != 0 && y.burnFeeBps == x.pendingFeeBps && x.pendingFeeReadyAt <= tx.world.now)
  }

  ghost predicate OracleStep(x: State, tx: Tx, y: State) {
    && (y.pendingOracleReadyAt != 0 ==>
          || (y.pendingOracleReadyAt == x.pendingOracleReadyAt && y.pendingOracle == x.pendingOracle)
          || (tx.call == ProposeOracle(y.pendingOracle) && Config in tx.roles && Apply(x, tx).Ok?
              && tx.world.now + 172_800 == y.pendingOracleReadyAt))
    && (y.oracle != x.oracle ==>
          x.pendingOracleReadyAt != 0 && y.oracle == x.pendingOracle && x.pendingOracleReadyAt <= tx.world.now)
  }

  lemma ConfigureStep(x: State, tx: Tx)
    requires IsConfiguration(tx.call) && Configure(x, tx.world, tx.roles, tx.call).Ok?
    requires Apply(x, tx) == Configure(x, tx.world, tx.roles, tx.call)
    ensures var y := Configure(x, tx.world, tx.roles, tx.call).state;
      FeeStep(x, tx, y) && OracleStep(x, tx, y)
  {
  }

  lemma SettingsStep(x: State, tx: Tx)
    requires Flat(tx)
    ensures FeeStep(x, tx, Step(x, tx)) && OracleStep(x, tx, Step(x, tx))
  {
    if IsConfiguration(tx.call) {
      assert Apply(x, tx) == Configure(x, tx.world, tx.roles, tx.call);
      if Apply(x, tx).Ok? {
        ConfigureStep(x, tx);
      }
    } else {
      OnlyConfigurationChangesSettings(x, tx);
      SameSettings(x, Step(x, tx), tx);
    }
  }

  lemma SameSettings(x: State, y: State, tx: Tx)
    requires SettingsOf(x) == SettingsOf(y)
    ensures FeeStep(x, tx, y) && OracleStep(x, tx, y)
  {
  }

  lemma {:induction false} PendingFeeWasProposed(s: State, txs: seq<Tx>, n: nat)
    requires AllFlat(txs) && n <= |txs| && s.pendingFeeReadyAt == 0
    ensures var x := Run(s, txs[..n]);
      x.pendingFeeReadyAt != 0 ==> ProposedIn(s, txs, n, ProposeBurnFee(x.pendingFeeBps), x.pendingFeeReadyAt)
  {
    if n > 0 {
      PendingFeeWasProposed(s, txs, n - 1);
      RunSnoc(s, txs, n - 1);
      SettingsStep(Run(s, txs[..n - 1]), txs[n - 1]);
    }
  }

  lemma {:induction false} PendingOracleWasProposed(s: State, txs: seq<Tx>, n: nat)
    requires AllFlat(txs) && n <= |txs| && s.pendingOracleReadyAt == 0
    ensures var x := Run(s, txs[..n]);
      x.pendingOracleReadyAt != 0 ==> ProposedIn(s, txs, n, ProposeOracle(x.pendingOracle), x.pendingOracleReadyAt)
  {
    if n > 0 {
      PendingOracleWasProposed(s, txs, n - 1);
      RunSnoc(s, txs, n - 1);
      SettingsStep(Run(s, txs[..n - 1]), txs[n - 1]);
    }
  }

  lemma FlatChangesWereProposed(s: State, txs: seq<Tx>, i: nat)
    requires s.pendingFeeReadyAt == 0 && s.pendingOracleReadyAt == 0
    requires AllFlat(txs) && i < |txs|
    ensures var before, after := Run(s, txs[..i]), Run(s, txs[..i + 1]);
      && (after.burnFeeBps != before.burnFeeBps ==>
            exists j :: 0 <= j < i && Proposed(s, txs, j, ProposeBurnFee(after.burnFeeBps))
                        && txs[j].world.now + 172_800 <= txs[i].world.now)
      && (after.oracle != before.oracle ==>
            exists j :: 0 <= j < i && Proposed(s, txs, j, ProposeOracle(after.oracle))
                        && txs[j].world.now + 172_800 <= txs[i].world.now)
  {
    PendingFeeWasProposed(s, txs, i);
    PendingOracleWasProposed(s, txs, i);
    RunSnoc(s, txs, i);
    SettingsStep(Run(s, txs[..i]), txs[i]);
  }

  /** A fee or oracle change takes effect only two days or more after a successful call of the same run,
      by an account with the role, proposed exactly that value. */
  lemma ChangesWereProposedTwoDaysEarlier(s: State, now: nat, txs: seq<Tx>, i: nat)
    requires s.pendingFeeReadyAt == 0 && s.pendingOracleReadyAt == 0
    requires Chronological(now, txs) && i < |Calls(s, txs)|
    ensures var calls := Calls(s, txs);
      var before, after := Run(s, calls[..i]), Run(s, calls[..i + 1]);
      && Run(s, calls) == Run(s, txs)
      && (after.burnFeeBps != before.burnFeeBps ==>
            exists j :: 0 <= j < i && Proposed(s, calls, j, ProposeBurnFee(after.burnFeeBps))
                        && calls[j].world.now + 172_800 <= calls[i].world.now)
      && (after.oracle != before.oracle ==>
            exists j :: 0 <= j < i && Proposed(s, calls, j, ProposeOracle(after.oracle))
                        && calls[j].world.now + 172_800 <= calls[i].world.now)
  {
    CallsRun(s, now, txs);
    FlatChangesWereProposed(s, Calls(s, txs), i);
  }

  // ---- schedule -----------------------------------------------------------------------

  /** Rounds follow each other without gap or overlap of their entry windows. */
  lemma {:induction false} ScheduleIncreases(s: State, now: nat, m: nat, n: nat)
    requires Inv(s, now) && 1 <= m < n <= s.currentEpoch
    ensures s.RoundOf(m).lockTimestamp <= s.RoundOf(n).startTimestamp < s.RoundOf(n).lockTimestamp
    ensures s.RoundOf(m).closeTimestamp <= s.RoundOf(n).lockTimestamp
    decreases n - m
  {
    assert RoundAtOk(s, m, now) && RoundAtOk(s, n, now) && Linked(s, m);
    if m + 1 < n {
      assert RoundAtOk(s, m + 1, now);
      ScheduleIncreases(s, now, m + 1, n);
    }
  }

  predicate PinnedAt(base: State, t: Terms) {
    t.oracle == base.oracle && t.twapWindow == base.twapWindow && t.burnFeeBps == base.burnFeeBps
  }

  predicate OneMoreAtMost(s: State, s': State) {
    && s.currentEpoch <= s'.currentEpoch <= s.currentEpoch + 1
    && (s'.currentEpoch > s.currentEpoch ==>
          && s'.RoundOf(s'.currentEpoch).closeTimestamp == s'.RoundOf(s'.currentEpoch).lockTimestamp + s.interval
          && PinnedAt(s, s'.TermsOf(s'.currentEpoch)))
  }

  lemma OpenNextTakesSettings(s: State, w: World)
    ensures OneMoreAtMost(s, OpenNext(s, w))
  {
  }

  lemma ExecuteTakesSettings(s: State, w: World)
    requires Inv(s, w.now) && OnExecute(s, w).Ok?
    ensures OneMoreAtMost(s, OnExecute(s, w).state)
  {
    hide InvWithDebt, OpenNext;
    assert s.interval > 0 by { ConfigGivesInterval(s, w.now); }
    ScanKeepsInv(s, w, OldestUnresolved(s), s.currentEpoch);
    ScanKeepsSettings(s, w, OldestUnresolved(s), s.currentEpoch);
    OpenNextTakesSettings(Scan(s, w, OldestUnresolved(s), s.currentEpoch).state, w);
  }

  lemma ConfigGivesInterval(s: State, now: nat)
    requires Inv(s, now)
    ensures s.interval > 0
  {
  }

  /** At most one round is opened by a call: one interval long, and pinned to the settings in force. */
  lemma NewRoundTakesSettings(s: State, now: nat, tx: Tx)
    requires Inv(s, now) && now <= tx.world.now && Flat(tx)
    ensures OneMoreAtMost(s, Step(s, tx))
  {
    hide InvWithDebt, OnExecute;
    LaterInv(s, now, tx.world.now);
    if tx.call.ExecuteRound? {
      if Apply(s, tx).Ok? {
        ExecuteTakesSettings(s, tx.world);
      }
    } else if tx.call.StartNextRound? {
      OpenNextTakesSettings(s, tx.world);
    } else if !tx.call.GenesisStartRound? {
      StepKeepsEpoch(s, tx);
    }
  }

  /** Every lock falls a whole number of intervals after genesis. */
  ghost predicate OnGrid(s: State) {
    forall e | 1 <= e <= s.currentEpoch ::
      && s.RoundOf(e).lockTimestamp == s.RoundOf(1).startTimestamp + e * s.interval
      && s.RoundOf(e).closeTimestamp == s.RoundOf(1).startTimestamp + (e + 1) * s.interval
  }

  lemma GridExtends(s: State, w: World)
    requires OnGrid(s) && s.currentEpoch > 0 && EpochsOk(s)
    ensures OnGrid(OpenNext(s, w))
  {
    var s' := OpenNext(s, w);
    var n := s.currentEpoch;
    assert forall e | 1 <= e <= n :: s'.RoundOf(e) == s.RoundOf(e);
    assert s.RoundOf(n).closeTimestamp == s.RoundOf(1).startTimestamp + (n + 1) * s.interval;
    assert (n + 2) * s.interval == (n + 1) * s.interval + s.interval;
  }

  lemma ExecuteKeepsGrid(s: State, w: World)
    requires Inv(s, w.now) && OnGrid(s) && OnExecute(s, w).Ok?
    ensures OnGrid(OnExecute(s, w).state)
  {
    var first := OldestUnresolved(s);
    ScanEvolves(s, w, first, s.currentEpoch);
    ScanKeepsInv(s, w, first, s.currentEpoch);
    ScanKeepsSettings(s, w, first, s.currentEpoch);
    var s1 := Scan(s, w, first, s.currentEpoch).state;
    GridFrame(s, s1, w.now);
    GridExtends(s1, w);
  }

  lemma FlatStepKeepsGrid(s: State, now: nat, tx: Tx)
    requires Inv(s, now) && now <= tx.world.now && Flat(tx) && OnGrid(s) && !tx.call.SetInterval?
    ensures OnGrid(Step(s, tx)) && Step(s, tx).interval == s.interval
  {
    var w := tx.world;
    LaterInv(s, now, w.now);
    IntervalKept(s, tx);
    if Apply(s, tx).Ok? {
      if tx.call.StartNextRound? {
        GridExtends(s, w);
      } else if tx.call.ExecuteRound? {
        ExecuteKeepsGrid(s, w);
      } else if !tx.call.GenesisStartRound? {
        FlatStepEvolves(s, now, tx);
        StepKeepsEpoch(s, tx);
        GridFrame(s, Step(s, tx), w.now);
      }
    }
  }

  lemma IntervalKept(s: State, tx: Tx)
    requires Flat(tx) && !tx.call.SetInterval?
    ensures Step(s, tx).interval == s.interval
  {
    if !IsConfiguration(tx.call) {
      OnlyConfigurationChangesSettings(s, tx);
    } else {
      assert Apply(s, tx) == Configure(s, tx.world, tx.roles, tx.call);
    }
  }

  lemma GridFrame(s: State, s': State, now: nat)
    requires OnGrid(s) && Evolves(s, s', now) && s'.currentEpoch == s.currentEpoch && s'.interval == s.interval
    ensures OnGrid(s')
  {
    forall e | 1 <= e <= s.currentEpoch
      ensures SameSchedule(s.RoundOf(e), s'.RoundOf(e)) && SameSchedule(s.RoundOf(1), s'.RoundOf(1))
    {
      assert EvolvesAt(s, s', e, now) && EvolvesAt(s, s', 1, now);
    }
  }

  lemma {:induction false} FlatScheduleCannotDrift(s: State, now: nat, txs: seq<Tx>)
    requires Inv(s, now) && OnGrid(s) && Chronological(now, txs) && AllFlat(txs)
    requires forall i | 0 <= i < |txs| :: !txs[i].call.SetInterval?
    ensures OnGrid(Run(s, txs))
    decreases |txs|
  {
    if txs != [] {
      FlatStepKeepsGrid(s, now, txs[0]);
      StepKeepsInv(s, now, txs[0]);
      FlatScheduleCannotDrift(Step(s, txs[0]), txs[0].world.now, txs[1..]);
    }
  }

  /** However late the calls land, the schedule of an unchanged interval cannot drift. */
  lemma ScheduleCannotDrift(s: State, now: nat, txs: seq<Tx>)
    requires Inv(s, now) && OnGrid(s) && Chronological(now, txs)
    requires forall i | 0 <= i < |Calls(s, txs)| :: !Calls(s, txs)[i].call.SetInterval?
    ensures OnGrid(Run(s, txs))
  {
    CallsRun(s, now, txs);
    FlatScheduleCannotDrift(s, now, Calls(s, txs));
  }

  // ---- conservation of ETH ------------------------------------------------------------

  /** ETH a successful transaction brings in. */
  function Inflow(s: State, tx: Tx): nat {
    if Apply(s, tx).Revert? then 0
    else match tx.call
      case Enter(_, _, amount) => amount
      case ForceEther(amount) => amount
      case _ => 0
  }

  /** ETH a successful transaction sends out. */
  function Outflow(s: State, tx: Tx): nat {
    if Apply(s, tx).Revert? then 0
    else match tx.call
      case Claim(epochs, _) => (match MarkAll(s, tx.sender, epochs) case Marked(_, n) => n case Refused(_) => 0)
      case SweepToBurner(_) => s.burnAllocated
      case _ => 0
  }

  function TotalIn(s: State, txs: seq<Tx>): nat
    decreases |txs|
  {
    if txs == [] then 0 else Inflow(s, txs[0]) + TotalIn(Step(s, txs[0]), txs[1..])
  }

  function TotalOut(s: State, txs: seq<Tx>): nat
    decreases |txs|
  {
    if txs == [] then 0 else Outflow(s, txs[0]) + TotalOut(Step(s, txs[0]), txs[1..])
  }

  lemma UnguardedFlow(s: State, tx: Tx)
    requires !Guarded(tx.call)
    ensures Step(s, tx).balance == s.balance + Inflow(s, tx)
  {
    if tx.call.ExecuteRound? && Apply(s, tx).Ok? {
      ScanKeepsSettings(s, tx.world, OldestUnresolved(s), s.currentEpoch);
    }
  }

  lemma FlowBalances(s: State, tx: Tx)
    requires Flat(tx)
    ensures Step(s, tx).balance + Outflow(s, tx) == s.balance + Inflow(s, tx)
  {
    match tx.call
    case Enter(_, _, _) =>
    case Claim(epochs, _) =>
      if Apply(s, tx).Ok? {
        MarkAllKeepsSettings(s, tx.sender, epochs);
      }
    case SweepToBurner(_) =>
    case _ => UnguardedFlow(s, tx);
  }

  /** ETH in equals ETH out plus what is still held; and what is held is what is owed,
      what is booked for burning and what was forced in. */
  lemma {:induction false} FlatEtherIsConserved(s: State, now: nat, txs: seq<Tx>)
    requires Inv(s, now) && Chronological(now, txs) && AllFlat(txs)
    ensures Run(s, txs).balance + TotalOut(s, txs) == s.balance + TotalIn(s, txs)
    ensures var x := Run(s, txs);
      x.balance == x.forced + OwedUpTo(x, x.currentEpoch) + x.burnAllocated
    decreases |txs|
  {
    if txs != [] {
      FlowBalances(s, txs[0]);
      StepKeepsInv(s, now, txs[0]);
      FlatEtherIsConserved(Step(s, txs[0]), txs[0].world.now, txs[1..]);
    }
  }

  /** The same for a run whose receivers call back, counting what those calls bring in and send out. */
  lemma EtherIsConserved(s: State, now: nat, txs: seq<Tx>)
    requires Inv(s, now) && Chronological(now, txs)
    ensures Run(s, txs).balance + TotalOut(s, Calls(s, txs)) == s.balance + TotalIn(s, Calls(s, txs))
    ensures var x := Run(s, txs);
      x.balance == x.forced + OwedUpTo(x, x.currentEpoch) + x.burnAllocated
  {
    CallsRun(s, now, txs);
    FlatEtherIsConserved(s, now, Calls(s, txs));
  }
}
