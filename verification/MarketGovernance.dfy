/** Governance over whole runs: when a proposed fee or oracle may be committed, what a pause stops, and that
    the limits on stakes never cross. */
module MarketGovernance {
  import opened Util
  import opened MarketTypes
  import opened MarketSpec
  import opened MarketInvariant
  import opened MarketHistory
  import opened MarketAcceptance

  /** The i-th of a sequence of calls is accepted. */
  ghost predicate Succeeds(s: State, txs: seq<Tx>, i: nat)
    requires i < |txs|
  {
    Apply(Run(s, txs[..i]), txs[i]).Ok?
  }

  // ---- the fee ------------------------------------------------------------------------

  predicate MovesFee(call: Call) { call.ProposeBurnFee? || call.CommitBurnFee? || call.CancelPendingFee? }

  /** The j-th call proposed a fee, and none since, up to the n-th, has replaced, committed or cancelled it. */
  ghost predicate FeeStands(s: State, txs: seq<Tx>, j: nat, n: nat)
    requires j < n <= |txs|
  {
    && txs[j].call.ProposeBurnFee? && Succeeds(s, txs, j)
    && forall m | j < m < n :: MovesFee(txs[m].call) ==> !Succeeds(s, txs, m)
  }

  lemma OthersLeaveFee(x: State, tx: Tx)
    requires Flat(tx) && (MovesFee(tx.call) ==> Apply(x, tx).Revert?)
    ensures var y := Step(x, tx);
      && y.pendingFeeReadyAt == x.pendingFeeReadyAt
      && (x.pendingFeeReadyAt != 0 ==> y.pendingFeeBps == x.pendingFeeBps)
  {
    if IsConfiguration(tx.call) {
      assert Apply(x, tx) == Configure(x, tx.world, tx.roles, tx.call);
    } else {
      hide Step;
      OnlyConfigurationChangesSettings(x, tx);
      assert SettingsOf(Step(x, tx)).pendingFeeReadyAt == SettingsOf(x).pendingFeeReadyAt;
      assert SettingsOf(Step(x, tx)).pendingFeeBps == SettingsOf(x).pendingFeeBps;
    }
  }

  /** What awaits its commit is the proposal that stands, and it becomes ready two days after it was made. */
  ghost predicate FeeAwaits(s: State, txs: seq<Tx>, n: nat)
    requires n <= |txs|
  {
    var x := Run(s, txs[..n]);
    && (x.pendingFeeReadyAt != 0 <==> exists j | 0 <= j < n :: FeeStands(s, txs, j, n))
    && forall j | 0 <= j < n && FeeStands(s, txs, j, n) ::
         x.pendingFeeReadyAt == txs[j].world.now + 172_800 && x.pendingFeeBps == txs[j].call.bps
  }

  lemma {:induction false} FeeAwaitsCommit(s: State, txs: seq<Tx>, n: nat)
    requires AllFlat(txs) && n <= |txs| && s.pendingFeeReadyAt == 0
    ensures FeeAwaits(s, txs, n)
  {
    hide Apply, Step;
    if n > 0 {
      var x, tx := Run(s, txs[..n - 1]), txs[n - 1];
      FeeAwaitsCommit(s, txs, n - 1);
      RunSnoc(s, txs, n - 1);
      assert Succeeds(s, txs, n - 1) <==> Apply(x, tx).Ok?;
      forall j | 0 <= j < n
        ensures FeeStands(s, txs, j, n) <==>
          if j == n - 1 then tx.call.ProposeBurnFee? && Apply(x, tx).Ok?
          else FeeStands(s, txs, j, n - 1) && !(MovesFee(tx.call) && Apply(x, tx).Ok?)
      {
      }
      if MovesFee(tx.call) && Apply(x, tx).Ok? {
        FeeSettersExactly(x, tx);
        assert tx.call.ProposeBurnFee? ==> FeeStands(s, txs, n - 1, n);
      } else {
        OthersLeaveFee(x, tx);
        var y := Run(s, txs[..n]);
        assert y == Step(x, tx) && y.pendingFeeReadyAt == x.pendingFeeReadyAt;
        forall j | 0 <= j < n && FeeStands(s, txs, j, n)
          ensures y.pendingFeeReadyAt == txs[j].world.now + 172_800 && y.pendingFeeBps == txs[j].call.bps
        {
          assert j < n - 1 && FeeStands(s, txs, j, n - 1);
        }
        if x.pendingFeeReadyAt != 0 {
          var j :| 0 <= j < n - 1 && FeeStands(s, txs, j, n - 1);
          assert FeeStands(s, txs, j, n);
        }
      }
    }
  }

  /** At any point of any run, a commit of the fee succeeds exactly when the sender has the role and the
      proposal that stands was made at least two days earlier; the fee is then the proposed one. */
  lemma FeeCommitExactly(s: State, now: nat, txs: seq<Tx>, tx: Tx)
    requires s.pendingFeeReadyAt == 0 && Chronological(now, txs) && tx.call.CommitBurnFee?
    ensures var x, calls := Run(s, txs), Calls(s, txs);
      && Run(s, calls) == x
      && (Apply(x, tx).Ok? <==>
            && Config in tx.roles
            && exists j | 0 <= j < |calls| ::
                 FeeStands(s, calls, j, |calls|) && calls[j].world.now + 172_800 <= tx.world.now)
      && (Apply(x, tx).Ok? ==>
            forall j | 0 <= j < |calls| && FeeStands(s, calls, j, |calls|) ::
              Step(x, tx) == x.(burnFeeBps := calls[j].call.bps, pendingFeeReadyAt := 0))
  {
    hide Apply, Step, FeeStands;
    var calls := Calls(s, txs);
    CallsRun(s, now, txs);
    FeeAwaitsCommit(s, calls, |calls|);
    assert calls[..|calls|] == calls;
    FeeSettersExactly(Run(s, txs), tx);
  }

  // ---- the oracle ---------------------------------------------------------------------

  predicate MovesOracle(call: Call) { call.ProposeOracle? || call.CommitOracle? || call.CancelPendingOracle? }

  ghost predicate OracleStands(s: State, txs: seq<Tx>, j: nat, n: nat)
    requires j < n <= |txs|
  {
    && txs[j].call.ProposeOracle? && Succeeds(s, txs, j)
    && forall m | j < m < n :: MovesOracle(txs[m].call) ==> !Succeeds(s, txs, m)
  }

  lemma OthersLeaveOracle(x: State, tx: Tx)
    requires Flat(tx) && (MovesOracle(tx.call) ==> Apply(x, tx).Revert?)
    ensures var y := Step(x, tx);
      && y.pendingOracleReadyAt == x.pendingOracleReadyAt
      && (x.pendingOracleReadyAt != 0 ==> y.pendingOracle == x.pendingOracle)
  {
    if IsConfiguration(tx.call) {
      assert Apply(x, tx) == Configure(x, tx.world, tx.roles, tx.call);
    } else {
      hide Step;
      OnlyConfigurationChangesSettings(x, tx);
      assert SettingsOf(Step(x, tx)).pendingOracleReadyAt == SettingsOf(x).pendingOracleReadyAt;
      assert SettingsOf(Step(x, tx)).pendingOracle == SettingsOf(x).pendingOracle;
    }
  }

  ghost predicate OracleAwaits(s: State, txs: seq<Tx>, n: nat)
    requires n <= |txs|
  {
    var x := Run(s, txs[..n]);
    && (x.pendingOracleReadyAt != 0 <==> exists j | 0 <= j < n :: OracleStands(s, txs, j, n))
    && forall j | 0 <= j < n && OracleStands(s, txs, j, n) ::
         x.pendingOracleReadyAt == txs[j].world.now + 172_800 && x.pendingOracle == txs[j].call.next
  }

  lemma {:induction false} OracleAwaitsCommit(s: State, txs: seq<Tx>, n: nat)
    requires AllFlat(txs) && n <= |txs| && s.pendingOracleReadyAt == 0
    ensures OracleAwaits(s, txs, n)
  {
    hide Apply, Step;
    if n > 0 {
      var x, tx := Run(s, txs[..n - 1]), txs[n - 1];
      OracleAwaitsCommit(s, txs, n - 1);
      RunSnoc(s, txs, n - 1);
      assert Succeeds(s, txs, n - 1) <==> Apply(x, tx).Ok?;
      forall j | 0 <= j < n
        ensures OracleStands(s, txs, j, n) <==>
          if j == n - 1 then tx.call.ProposeOracle? && Apply(x, tx).Ok?
          else OracleStands(s, txs, j, n - 1) && !(MovesOracle(tx.call) && Apply(x, tx).Ok?)
      {
      }
      if MovesOracle(tx.call) && Apply(x, tx).Ok? {
        OracleSettersExactly(x, tx);
        assert tx.call.ProposeOracle? ==> OracleStands(s, txs, n - 1, n);
      } else {
        OthersLeaveOracle(x, tx);
        var y := Run(s, txs[..n]);
        assert y == Step(x, tx) && y.pendingOracleReadyAt == x.pendingOracleReadyAt;
        forall j | 0 <= j < n && OracleStands(s, txs, j, n)
          ensures y.pendingOracleReadyAt == txs[j].world.now + 172_800 && y.pendingOracle == txs[j].call.next
        {
          assert j < n - 1 && OracleStands(s, txs, j, n - 1);
        }
        if x.pendingOracleReadyAt != 0 {
          var j :| 0 <= j < n - 1 && OracleStands(s, txs, j, n - 1);
          assert OracleStands(s, txs, j, n);
        }
      }
    }
  }

  /** The same for the oracle, which must besides still give a version that decodes, or none. */
  lemma OracleCommitExactly(s: State, now: nat, txs: seq<Tx>, tx: Tx)
    requires s.pendingOracleReadyAt == 0 && Chronological(now, txs) && tx.call.CommitOracle?
    ensures var x, calls := Run(s, txs), Calls(s, txs);
      && Run(s, calls) == x
      && (Apply(x, tx).Ok? <==>
            && Config in tx.roles
            && exists j | 0 <= j < |calls| ::
                 && OracleStands(s, calls, j, |calls|) && calls[j].world.now + 172_800 <= tx.world.now
                 && !tx.world.version(calls[j].call.next).BadVersion?)
      && (Apply(x, tx).Ok? ==>
            forall j | 0 <= j < |calls| && OracleStands(s, calls, j, |calls|) ::
              Step(x, tx) == x.(oracle := calls[j].call.next, pendingOracleReadyAt := 0))
  {
    hide Apply, Step, OracleStands;
    var calls := Calls(s, txs);
    CallsRun(s, now, txs);
    OracleAwaitsCommit(s, calls, |calls|);
    assert calls[..|calls|] == calls;
    OracleSettersExactly(Run(s, txs), tx);
  }

  // ---- the pause ----------------------------------------------------------------------

  /** The calls a pause stops: entries and everything that opens a round. */
  predicate Opens(call: Call) {
    call.Enter? || call.GenesisStartRound? || call.StartNextRound? || call.ExecuteRound?
  }

  predicate Unpauses(tx: Tx) { tx.call.Unpause? && Pauser in tx.roles }

  lemma {:induction false} MarkingIgnoresPause(s: State, sender: Address, epochs: seq<nat>, paused: bool)
    ensures var m, m' := MarkAll(s, sender, epochs), MarkAll(s.(paused := paused), sender, epochs);
      && (m.Marked? ==> m' == Marked(m.state.(paused := paused), m.amount) && m.state.paused == s.paused)
      && (m.Refused? ==> m' == m)
    decreases |epochs|
  {
    if epochs != [] {
      assert s.(paused := paused).BetOf(epochs[0], sender) == s.BetOf(epochs[0], sender);
      if MarkOne(s, sender, epochs[0]).Marked? {
        MarkingIgnoresPause(MarkOne(s, sender, epochs[0]).state, sender, epochs[1..], paused);
      }
    }
  }

  /** Nothing but an unpause by the pauser ends a pause, and a paused market takes no entry and opens no round. */
  lemma StaysPaused(s: State, tx: Tx)
    requires s.paused && Flat(tx) && !Unpauses(tx)
    ensures Step(s, tx).paused && (Opens(tx.call) ==> Apply(s, tx).Revert?)
  {
    hide Step, Apply;
    if Opens(tx.call) {
      PausedOpensNothing(s, tx);
    }
    if IsConfiguration(tx.call) {
      SettersKeepPause(s, tx);
    } else {
      OnlyConfigurationChangesSettings(s, tx);
      assert SettingsOf(Step(s, tx)).paused == s.paused;
    }
  }

  lemma SettersKeepPause(s: State, tx: Tx)
    requires s.paused && IsConfiguration(tx.call) && !Unpauses(tx)
    ensures Step(s, tx).paused
  {
    assert Apply(s, tx) == Configure(s, tx.world, tx.roles, tx.call);
  }

  lemma PausedOpensNothing(x: State, tx: Tx)
    requires x.paused && Opens(tx.call)
    ensures Apply(x, tx).Revert?
  {
  }

  lemma {:induction false} FlatRunStaysPaused(s: State, txs: seq<Tx>)
    requires s.paused && AllFlat(txs) && forall i | 0 <= i < |txs| :: !Unpauses(txs[i])
    ensures Run(s, txs).paused
    ensures forall i | 0 <= i < |txs| && Opens(txs[i].call) :: !Succeeds(s, txs, i)
    decreases |txs|
  {
    hide Step, Apply;
    if txs != [] {
      var s1 := Step(s, txs[0]);
      StaysPaused(s, txs[0]);
      FlatRunStaysPaused(s1, txs[1..]);
      forall i | 0 <= i < |txs| && Opens(txs[i].call)
        ensures !Succeeds(s, txs, i)
      {
        if i > 0 {
          assert txs[..i][1..] == txs[1..][..i - 1];
          assert !Succeeds(s1, txs[1..], i - 1);
        }
      }
    }
  }

  /** From an accepted pause on, through any run in which the pauser does not unpause, reentrant calls
      included: no entry is taken and no round is opened, by a call of the run or after it. */
  lemma PauseHolds(s: State, pause: Tx, now: nat, txs: seq<Tx>, tx: Tx)
    requires pause.call.Pause? && Apply(s, pause).Ok? && Chronological(now, txs)
    requires var calls := Calls(Step(s, pause), txs); forall i | 0 <= i < |calls| :: !Unpauses(calls[i])
    ensures var s1 := Step(s, pause);
      var calls := Calls(s1, txs);
      && Run(s1, txs).paused && Run(s1, calls) == Run(s1, txs)
      && (forall i | 0 <= i < |calls| && Opens(calls[i].call) :: !Succeeds(s1, calls, i))
      && (Opens(tx.call) ==> Apply(Run(s1, txs), tx).Revert?)
  {
    hide Step, Apply, Calls;
    var s1 := Step(s, pause);
    PauseExactly(s, pause);
    CallsRun(s1, now, txs);
    FlatRunStaysPaused(s1, Calls(s1, txs));
    if Opens(tx.call) {
      PausedOpensNothing(Run(s1, txs), tx);
    }
  }

  /** The calls a pause does not stop: pricing and voiding rounds, paying out, the burn and all other
      configuration. */
  predicate Unstopped(call: Call) {
    !Opens(call) && !call.Pause? && !call.Unpause?
  }

  /** Every other call is accepted while paused exactly when it would be without the pause. */
  lemma PauseStopsNothingElse(s: State, tx: Tx)
    requires Unstopped(tx.call)
    ensures Apply(s.(paused := true), tx).Ok? <==> Apply(s.(paused := false), tx).Ok?
  {
    var on, off := s.(paused := true), s.(paused := false);
    if tx.call.Claim? {
      MarkingIgnoresPause(on, tx.sender, tx.call.epochs, false);
      assert on.(paused := false) == off;
    } else if IsConfiguration(tx.call) {
      SettersIgnorePause(on, off, tx);
    } else {
      RoundCallsIgnorePause(on, off, tx);
    }
  }

  lemma SettersIgnorePause(on: State, off: State, tx: Tx)
    requires off == on.(paused := false) && IsConfiguration(tx.call) && !tx.call.Pause? && !tx.call.Unpause?
    ensures Apply(on, tx).Ok? <==> Apply(off, tx).Ok?
  {
    assert Apply(on, tx) == Configure(on, tx.world, tx.roles, tx.call);
    assert Apply(off, tx) == Configure(off, tx.world, tx.roles, tx.call);
  }

  lemma RoundCallsIgnorePause(on: State, off: State, tx: Tx)
    requires off == on.(paused := false) && !Opens(tx.call) && !IsConfiguration(tx.call) && !tx.call.Claim?
    ensures Apply(on, tx).Ok? <==> Apply(off, tx).Ok?
  {
    if tx.call.LockRound? || tx.call.SettleRound? || tx.call.CancelRound? || tx.call.EmergencyCancelRound? {
      assert on.RoundOf(tx.call.epoch) == off.RoundOf(tx.call.epoch);
      assert on.TermsOf(tx.call.epoch) == off.TermsOf(tx.call.epoch);
    }
  }

  // ---- the limits on stakes -----------------------------------------------------------

  /** A largest stake, if there is one, is no smaller than the smallest. */
  predicate LimitsOrdered(s: State) {
    s.maximumBet == 0 || s.minimumBet <= s.maximumBet
  }

  lemma StepKeepsLimits(s: State, tx: Tx)
    requires LimitsOrdered(s) && Flat(tx)
    ensures LimitsOrdered(Step(s, tx))
  {
    if IsConfiguration(tx.call) {
      assert Apply(s, tx) == Configure(s, tx.world, tx.roles, tx.call);
    } else {
      hide Step;
      OnlyConfigurationChangesSettings(s, tx);
      var before, after := SettingsOf(s), SettingsOf(Step(s, tx));
      assert before.minimumBet == after.minimumBet && before.maximumBet == after.maximumBet;
    }
  }

  lemma {:induction false} FlatRunKeepsLimits(s: State, txs: seq<Tx>)
    requires LimitsOrdered(s) && AllFlat(txs)
    ensures LimitsOrdered(Run(s, txs))
    decreases |txs|
  {
    hide Step;
    if txs != [] {
      StepKeepsLimits(s, txs[0]);
      FlatRunKeepsLimits(Step(s, txs[0]), txs[1..]);
    }
  }

  /** From deployment on, the limits on stakes never cross, whichever is moved first. */
  lemma LimitsNeverCross(p: InitParams, now: nat, txs: seq<Tx>)
    requires Construct(p).Ok? && Chronological(now, txs)
    ensures LimitsOrdered(Run(Construct(p).state, txs))
  {
    CallsRun(Construct(p).state, now, txs);
    FlatRunKeepsLimits(Construct(p).state, Calls(Construct(p).state, txs));
  }
}
