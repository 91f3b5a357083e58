/** No round is stuck, no priced round is voided, and the bounded scan misses nothing live. */
module MarketLiveness {
  import opened Util
  import opened MarketTypes
  import opened MarketSpec
  import opened MarketInvariant
  import opened MarketHistory

  // ---- phases -------------------------------------------------------------------------

  predicate Due(r: Round, now: nat) { Unresolved(r) && now >= DueInstant(r) }

  /** For the round's own oracle, window and due instant, the probe says yes exactly when a usable price
      would be returned. */
  predicate DueAgrees(w: World, r: Round, t: Terms) {
    ProbeOf(w, t, DueInstant(r)) <==> QuoteOf(w, t, DueInstant(r)).Some?
  }

  ghost predicate PhasePredicts(s: State, w: World, epoch: nat) {
    var t, r := s.TermsOf(epoch), s.RoundOf(epoch);
    && (OnLock(s, w, epoch).Ok? <==>
          PhaseOf(s, w, epoch) == Some(Phase.AwaitingLock) && ProbeOf(w, t, r.lockTimestamp))
    && (OnSettle(s, w, epoch).Ok? <==>
          PhaseOf(s, w, epoch) == Some(Phase.AwaitingSettle) && ProbeOf(w, t, r.closeTimestamp))
  }

  /** Cancelling succeeds exactly in the Cancellable phase. The phase with the probe predicts the lock
      and settle calls exactly when the round is not due or its own probe agrees with its quote. */
  lemma PhasePredictsCalls(s: State, w: World, epoch: nat)
    requires Inv(s, w.now)
    ensures OnCancel(s, w, epoch).Ok? <==> PhaseOf(s, w, epoch) == Some(Phase.Cancellable)
    ensures PhasePredicts(s, w, epoch) <==>
      !Due(s.RoundOf(epoch), w.now) || DueAgrees(w, s.RoundOf(epoch), s.TermsOf(epoch))
  {
    if 1 <= epoch <= s.currentEpoch {
      assert RoundAtOk(s, epoch, w.now);
    }
    if s.RoundOf(epoch).status.Locked? && w.now >= s.RoundOf(epoch).closeTimestamp {
      SettleKeepsInv(s, w, epoch);
    }
  }

  /** Entries are accepted only in the Open phase, and there every stake within the limits is. */
  lemma EntryOnlyWhileOpen(s: State, w: World, sender: Address, epoch: nat, position: Position, amount: nat)
    requires Inv(s, w.now)
    ensures OnEnter(s, w, sender, epoch, position, amount).Ok? <==>
      && PhaseOf(s, w, epoch) == Some(Phase.Open) && !s.paused
      && s.minimumBet <= amount && (s.maximumBet == 0 || amount <= s.maximumBet)
      && s.BetOf(epoch, sender).amount == 0
      && (s.maximumRoundPool == 0 || s.RoundOf(epoch).totalAmount + amount <= s.maximumRoundPool)
  {
    if 1 <= epoch <= s.currentEpoch {
      assert RoundAtOk(s, epoch, w.now);
    }
  }

  // ---- the keeper's work list ---------------------------------------------------------

  ghost predicate Lists(l: seq<nat>, first: nat, end: nat, p: nat -> bool) {
    && (forall i, j | 0 <= i < j < |l| :: l[i] < l[j])
    && (forall e :: e in l <==> first <= e < end && p(e))
  }

  lemma Appended(l: seq<nat>, first: nat, end: nat, keep: bool, p: nat -> bool)
    requires first <= end && Lists(l, first, end, p) && keep == p(end)
    ensures Lists(l + (if keep then [end] else []), first, end + 1, p)
  {
    assert forall i | 0 <= i < |l| :: l[i] in l;
  }

  lemma {:induction false} WorkListLists(s: State, w: World, work: Work, first: nat, end: nat)
    requires first <= end
    ensures Lists(WorkList(s, w, work, first, end), first, end, (e: nat) => WorkFor(s, w, e) == work)
    decreases end
  {
    if first < end {
      WorkListLists(s, w, work, first, end - 1);
      Appended(WorkList(s, w, work, first, end - 1), first, end - 1, WorkFor(s, w, end - 1) == work,
               (e: nat) => WorkFor(s, w, e) == work);
    }
  }

  /** A work list is ordered, without repetition, and holds exactly the scanned epochs of its kind. */
  lemma WorkListIsExact(s: State, w: World, work: Work, first: nat, end: nat)
    ensures var l := WorkList(s, w, work, first, end);
      && (forall i, j | 0 <= i < j < |l| :: l[i] < l[j])
      && (forall e :: e in l <==> first <= e < end && WorkFor(s, w, e) == work)
  {
    if first <= end {
      WorkListLists(s, w, work, first, end);
    }
  }

  ghost predicate WorkSucceeds(s: State, w: World, epoch: nat) {
    && (WorkFor(s, w, epoch).Lock? <==> OnLock(s, w, epoch).Ok?)
    && (WorkFor(s, w, epoch).Settle? <==> OnSettle(s, w, epoch).Ok?)
    && (WorkFor(s, w, epoch).Cancel? <==> OnCancel(s, w, epoch).Ok?)
  }

  /** The work named for an epoch is the one call on it that would succeed, exactly when the round is
      not due or its own probe agrees with its quote. */
  lemma WorkIsTheCallThatSucceeds(s: State, w: World, epoch: nat)
    requires Inv(s, w.now)
    ensures WorkSucceeds(s, w, epoch) <==>
      !Due(s.RoundOf(epoch), w.now) || DueAgrees(w, s.RoundOf(epoch), s.TermsOf(epoch))
  {
    if 1 <= epoch <= s.currentEpoch {
      assert RoundAtOk(s, epoch, w.now);
    }
    if s.RoundOf(epoch).status.Locked? && w.now >= s.RoundOf(epoch).closeTimestamp {
      SettleKeepsInv(s, w, epoch);
    }
  }

  // ---- nothing is stuck ---------------------------------------------------------------

  function Rank(status: Status): nat {
    match status case Open => 2 case Locked => 1 case _ => 0
  }

  /** How many lifecycle calls are still missing up to `last`. */
  function Missing(s: State, last: nat): nat {
    if last == 0 then 0 else Missing(s, last - 1) + Rank(s.RoundOf(last).status)
  }

  lemma {:induction false} MissingFrame(s: State, s': State, last: nat, epoch: nat)
    requires 1 <= epoch <= last
    requires forall e | 1 <= e <= last && e != epoch :: s'.RoundOf(e).status == s.RoundOf(e).status
    ensures Missing(s', last) + Rank(s.RoundOf(epoch).status) == Missing(s, last) + Rank(s'.RoundOf(epoch).status)
  {
    if epoch < last {
      MissingFrame(s, s', last - 1, epoch);
    } else {
      MissingSame(s, s', last - 1);
    }
  }

  lemma {:induction false} MissingSame(s: State, s': State, last: nat)
    requires forall e | 1 <= e <= last :: s'.RoundOf(e).status == s.RoundOf(e).status
    ensures Missing(s', last) == Missing(s, last)
  {
    if last > 0 {
      MissingSame(s, s', last - 1);
    }
  }

  lemma {:induction false} FindUnresolved(s: State, last: nat) returns (epoch: nat)
    requires Missing(s, last) > 0
    ensures 1 <= epoch <= last && Rank(s.RoundOf(epoch).status) > 0
  {
    if Rank(s.RoundOf(last).status) > 0 {
      epoch := last;
    } else {
      epoch := FindUnresolved(s, last - 1);
    }
  }

  lemma {:induction false} NoneMissing(s: State, last: nat, epoch: nat)
    requires Missing(s, last) == 0 && 1 <= epoch <= last
    ensures Rank(s.RoundOf(epoch).status) == 0
  {
    if epoch < last {
      NoneMissing(s, last - 1, epoch);
    }
  }

  /** The call that moves a round on once its tolerance has run out. */
  function NextCall(s: State, w: World, epoch: nat): Call {
    var r, t := s.RoundOf(epoch), s.TermsOf(epoch);
    if SaysNo(w, t, DueInstant(r)) then CancelRound(epoch)
    else if r.status.Open? then LockRound(epoch)
    else SettleRound(epoch)
  }

  /** A lifecycle call that moved one round forward and touched nothing else of the schedule. */
  ghost predicate MovedOn(s: State, s': State, epoch: nat) {
    && s'.currentEpoch == s.currentEpoch && s'.bufferSeconds == s.bufferSeconds
    && (forall e :: e != epoch ==> s'.RoundOf(e) == s.RoundOf(e) && s'.TermsOf(e) == s.TermsOf(e))
    && SameSchedule(s.RoundOf(epoch), s'.RoundOf(epoch)) && SamePins(s.TermsOf(epoch), s'.TermsOf(epoch))
    && Rank(s'.RoundOf(epoch).status) < Rank(s.RoundOf(epoch).status)
  }

  /** No usable price for an instant, and a probe that does not say so: it says yes, or does not decode. */
  predicate JamsAt(w: World, t: Terms, instant: nat) {
    !SaysNo(w, t, instant) && QuoteOf(w, t, instant).None?
  }

  /** A due round whose own oracle neither delivers its price nor says that it cannot. */
  predicate Jammed(w: World, r: Round, t: Terms) {
    Due(r, w.now) && JamsAt(w, t, DueInstant(r))
  }

  lemma NextCallMoves(s: State, w: World, roles: set<Role>, sender: Address, epoch: nat)
    requires Inv(s, w.now) && 1 <= epoch <= s.currentEpoch
    requires Unresolved(s.RoundOf(epoch)) && !JamsAt(w, s.TermsOf(epoch), DueInstant(s.RoundOf(epoch)))
    requires w.now > DueInstant(s.RoundOf(epoch)) + s.bufferSeconds
    ensures var tx := Tx(sender, roles, w, NextCall(s, w, epoch));
      Apply(s, tx).Ok? && MovedOn(s, Step(s, tx), epoch)
  {
    hide MovedOn, TryLock, TrySettle, InvWithDebt;
    DueIsPast(s, w, epoch);
    if SaysNo(w, s.TermsOf(epoch), DueInstant(s.RoundOf(epoch))) {
      VoidMoves(s, epoch);
    } else if s.RoundOf(epoch).status.Open? {
      LockMoves(s, w, epoch);
    } else {
      SettleKeepsInv(s, w, epoch);
      SettleMoves(s, w, epoch);
    }
  }

  lemma DueIsPast(s: State, w: World, epoch: nat)
    requires Inv(s, w.now) && 1 <= epoch <= s.currentEpoch
    ensures s.RoundOf(epoch).lockTimestamp < s.RoundOf(epoch).closeTimestamp
  {
    assert RoundAtOk(s, epoch, w.now);
  }

  lemma VoidMoves(s: State, epoch: nat)
    requires Unresolved(s.RoundOf(epoch))
    ensures MovedOn(s, Void(s, epoch), epoch)
  {
  }

  lemma LockMoves(s: State, w: World, epoch: nat)
    requires s.RoundOf(epoch).status.Open? && QuoteOf(w, s.TermsOf(epoch), s.RoundOf(epoch).lockTimestamp).Some?
    ensures TryLock(s, w, epoch).Some? && MovedOn(s, TryLock(s, w, epoch).value, epoch)
  {
  }

  lemma SettleMoves(s: State, w: World, epoch: nat)
    requires s.RoundOf(epoch).status.Locked? && TrySettle(s, w, epoch).Ok?
    ensures MovedOn(s, TrySettle(s, w, epoch).state, epoch)
  {
    hide Resolve;
  }

  lemma JammedStands(s: State, tx: Tx, epoch: nat)
    requires Inv(s, tx.world.now) && Flat(tx) && 1 <= epoch <= s.currentEpoch
    requires Jammed(tx.world, s.RoundOf(epoch), s.TermsOf(epoch))
    ensures Step(s, tx).RoundOf(epoch) == s.RoundOf(epoch) && Step(s, tx).TermsOf(epoch) == s.TermsOf(epoch)
  {
    hide Scan, OwedUpTo, Linked, Resolve, Configure, ClaimEffects, SweepEffects, ReenterAll;
    assert RoundAtOk(s, epoch, tx.world.now);
    if !TouchesRounds(tx.call) {
      OthersKeepRounds(s, tx);
    } else if tx.call.ExecuteRound? && Apply(s, tx).Ok? {
      ScanKeepsInv(s, tx.world, OldestUnresolved(s), s.currentEpoch);
      ScanLeavesJammed(s, tx.world, OldestUnresolved(s), s.currentEpoch, epoch);
    }
  }

  lemma TurnLeavesJammed(s: State, w: World, from: nat, epoch: nat)
    requires Jammed(w, s.RoundOf(epoch), s.TermsOf(epoch))
    ensures var x := ScanTurn(s, w, from);
      x.RoundOf(epoch) == s.RoundOf(epoch) && x.TermsOf(epoch) == s.TermsOf(epoch)
  {
  }

  lemma {:induction false} ScanLeavesJammed(s: State, w: World, from: nat, last: nat, epoch: nat)
    requires Scan(s, w, from, last).Ok? && Jammed(w, s.RoundOf(epoch), s.TermsOf(epoch))
    ensures var x := Scan(s, w, from, last).state;
      x.RoundOf(epoch) == s.RoundOf(epoch) && x.TermsOf(epoch) == s.TermsOf(epoch)
    decreases last + 1 - from
  {
    if from <= last {
      hide ScanTurn, Jammed;
      ScanUnrolls(s, w, from, last);
      TurnLeavesJammed(s, w, from, epoch);
      ScanLeavesJammed(ScanTurn(s, w, from), w, from + 1, last, epoch);
    }
  }

  /** Some plain call by someone without any role moves the round on. */
  ghost predicate SomeoneMoves(s: State, w: World, sender: Address, epoch: nat) {
    exists call :: MovesRound(s, Tx(sender, {}, w, call), epoch)
  }

  ghost predicate MovesRound(s: State, tx: Tx, epoch: nat) {
    Flat(tx) && Rank(Step(s, tx).RoundOf(epoch).status) < Rank(s.RoundOf(epoch).status)
  }

  /** Exactly when nothing is stuck: past its due instant plus the tolerance, an unresolved round can be
      moved on by anyone if and only if its own oracle gives a usable price or its probe says no. */
  lemma MovesUnlessJammed(s: State, w: World, sender: Address, epoch: nat)
    requires Inv(s, w.now) && 1 <= epoch <= s.currentEpoch && Unresolved(s.RoundOf(epoch))
    requires w.now > DueInstant(s.RoundOf(epoch)) + s.bufferSeconds
    ensures var t, due := s.TermsOf(epoch), DueInstant(s.RoundOf(epoch));
      SomeoneMoves(s, w, sender, epoch) <==> QuoteOf(w, t, due).Some? || SaysNo(w, t, due)
  {
    if JamsAt(w, s.TermsOf(epoch), DueInstant(s.RoundOf(epoch))) {
      forall call | Flat(Tx(sender, {}, w, call))
        ensures !MovesRound(s, Tx(sender, {}, w, call), epoch)
      {
        JammedStands(s, Tx(sender, {}, w, call), epoch);
      }
    } else {
      NextCallMoves(s, w, {}, sender, epoch);
      assert MovesRound(s, Tx(sender, {}, w, NextCall(s, w, epoch)), epoch);
    }
  }

  lemma {:induction false} FlatRunStaysJammed(s: State, now: nat, txs: seq<Tx>, epoch: nat)
    requires Inv(s, now) && Chronological(now, txs) && AllFlat(txs) && 1 <= epoch <= s.currentEpoch
    requires forall i | 0 <= i < |txs| :: Jammed(txs[i].world, s.RoundOf(epoch), s.TermsOf(epoch))
    ensures Run(s, txs).RoundOf(epoch) == s.RoundOf(epoch) && Run(s, txs).TermsOf(epoch) == s.TermsOf(epoch)
    decreases |txs|
  {
    if txs != [] {
      var s1 := Step(s, txs[0]);
      assert Jammed(txs[0].world, s.RoundOf(epoch), s.TermsOf(epoch));
      LaterInv(s, now, txs[0].world.now);
      JammedStands(s, txs[0], epoch);
      StepKeepsInv(s, now, txs[0]);
      FlatStepEvolves(s, now, txs[0]);
      forall i | 0 <= i < |txs[1..]|
        ensures Jammed(txs[1..][i].world, s1.RoundOf(epoch), s1.TermsOf(epoch))
      {
        assert Jammed(txs[i + 1].world, s.RoundOf(epoch), s.TermsOf(epoch));
      }
      FlatRunStaysJammed(s1, txs[0].world.now, txs[1..], epoch);
    }
  }

  /** And a jammed round stays as it is for as long as it is jammed, whatever is called, by whatever
      role, nested in whatever way. */
  lemma JammedRoundStays(s: State, now: nat, txs: seq<Tx>, epoch: nat)
    requires Inv(s, now) && Chronological(now, txs) && 1 <= epoch <= s.currentEpoch
    requires AllSeen(txs, w => Jammed(w, s.RoundOf(epoch), s.TermsOf(epoch)))
    ensures Run(s, txs).RoundOf(epoch) == s.RoundOf(epoch)
  {
    var flat := FlattenRun(s, now, txs, w => Jammed(w, s.RoundOf(epoch), s.TermsOf(epoch)));
    FlatRunStaysJammed(s, now, flat, epoch);
  }

  /** The instants a round still needs a price for are not promised without being delivered. */
  predicate Clear(w: World, r: Round, t: Terms) {
    && (r.status.Open? ==> !JamsAt(w, t, r.lockTimestamp))
    && (Unresolved(r) ==> !JamsAt(w, t, r.closeTimestamp))
  }

  ghost predicate AllClear(s: State, w: World) {
    forall e | 1 <= e <= s.currentEpoch :: Clear(w, s.RoundOf(e), s.TermsOf(e))
  }

  lemma ClearAfterMove(s: State, s': State, epoch: nat, w: World)
    requires AllClear(s, w) && MovedOn(s, s', epoch)
    ensures AllClear(s', w)
  {
    forall e | 1 <= e <= s'.currentEpoch
      ensures Clear(w, s'.RoundOf(e), s'.TermsOf(e))
    {
      assert Clear(w, s.RoundOf(e), s.TermsOf(e));
    }
  }

  /** After the head's close plus the tolerance, nobody's permission is needed to move a round on,
      and doing so brings the market strictly closer to having no round unresolved. */
  lemma NextCallProgresses(s: State, now: nat, w: World, sender: Address) returns (tx: Tx, s': State, epoch: nat)
    requires Inv(s, now) && now <= w.now && AllClear(s, w) && Missing(s, s.currentEpoch) > 0
    requires w.now > s.RoundOf(s.currentEpoch).closeTimestamp + s.bufferSeconds
    ensures tx.world == w && tx.roles == {} && IsLifecycle(tx.call) && Apply(s, tx).Ok? && s' == Step(s, tx)
    ensures Inv(s', w.now) && Missing(s', s'.currentEpoch) < Missing(s, s.currentEpoch)
    ensures 1 <= epoch <= s.currentEpoch && MovedOn(s, s', epoch)
  {
    epoch := FindUnresolved(s, s.currentEpoch);
    LaterInv(s, now, w.now);
    assert RoundAtOk(s, epoch, w.now);
    if epoch < s.currentEpoch {
      ScheduleIncreases(s, w.now, epoch, s.currentEpoch);
      assert RoundAtOk(s, s.currentEpoch, w.now);
    }
    assert Clear(w, s.RoundOf(epoch), s.TermsOf(epoch));
    NextCallMoves(s, w, {}, sender, epoch);
    tx := Tx(sender, {}, w, NextCall(s, w, epoch));
    s' := Step(s, tx);
    StepKeepsInv(s, w.now, tx);
    MissingFrame(s, s', s.currentEpoch, epoch);
  }

  predicate IsLifecycle(call: Call) {
    call.LockRound? || call.SettleRound? || call.CancelRound?
  }

  /** Lifecycle calls by someone without any role, one per world from the first on. */
  ghost predicate AnyonesCalls(calls: seq<Tx>, worlds: nat -> World, first: nat) {
    forall i | 0 <= i < |calls| ::
      IsLifecycle(calls[i].call) && calls[i].roles == {} && calls[i].world == worlds(first + i)
  }

  lemma AnyonesCallsCons(tx: Tx, calls: seq<Tx>, worlds: nat -> World, first: nat)
    requires AnyonesCalls(calls, worlds, first + 1)
    requires IsLifecycle(tx.call) && tx.roles == {} && tx.world == worlds(first)
    ensures AnyonesCalls([tx] + calls, worlds, first)
  {
    forall i | 0 <= i < |[tx] + calls|
      ensures var c := ([tx] + calls)[i]; IsLifecycle(c.call) && c.roles == {} && c.world == worlds(first + i)
    {
      if i > 0 {
        assert ([tx] + calls)[i] == calls[i - 1];
      }
    }
  }

  predicate Resolved(s: State) {
    forall e | 1 <= e <= s.currentEpoch :: s.RoundOf(e).status.Settled? || s.RoundOf(e).status.Cancelled?
  }

  lemma NoneMissingResolved(s: State, now: nat)
    requires Inv(s, now) && Missing(s, s.currentEpoch) == 0
    ensures Resolved(s)
  {
    forall e | 1 <= e <= s.currentEpoch
      ensures s.RoundOf(e).status.Settled? || s.RoundOf(e).status.Cancelled?
    {
      NoneMissing(s, s.currentEpoch, e);
      assert RoundAtOk(s, e, now);
    }
  }

  /** Time goes on, and no unresolved round's own oracle promises a price without delivering it. */
  ghost predicate TimesGoOn(s: State, worlds: nat -> World) {
    forall i: nat :: worlds(i).now <= worlds(i + 1).now && AllClear(s, worlds(i))
  }

  /** Nothing is stuck: at any times after the head's close plus the tolerance, whether paused or
      not, some finite sequence of permissionless calls resolves every round. */
  lemma {:induction false} EveryRoundResolves(s: State, now: nat, worlds: nat -> World, first: nat, sender: Address)
    returns (calls: seq<Tx>)
    requires Inv(s, now) && now <= worlds(first).now
    requires TimesGoOn(s, worlds)
    requires s.currentEpoch > 0 ==>
      worlds(first).now > s.RoundOf(s.currentEpoch).closeTimestamp + s.bufferSeconds
    ensures |calls| <= Missing(s, s.currentEpoch) && AnyonesCalls(calls, worlds, first)
    ensures Run(s, calls).currentEpoch == s.currentEpoch && Resolved(Run(s, calls))
    decreases Missing(s, s.currentEpoch)
  {
    if Missing(s, s.currentEpoch) == 0 {
      calls := [];
      NoneMissingResolved(s, now);
    } else {
      assert AllClear(s, worlds(first));
      var tx, s', epoch := NextCallProgresses(s, now, worlds(first), sender);
      forall i: nat
        ensures worlds(i).now <= worlds(i + 1).now && AllClear(s', worlds(i))
      {
        assert AllClear(s, worlds(i));
        ClearAfterMove(s, s', epoch, worlds(i));
      }
      var rest := EveryRoundResolves(s', worlds(first).now, worlds, first + 1, sender);
      calls := Prepend(s, s', tx, rest);
      AnyonesCallsCons(tx, rest, worlds, first);
    }
  }

  lemma Prepend(s: State, s': State, tx: Tx, rest: seq<Tx>) returns (calls: seq<Tx>)
    requires s' == Step(s, tx)
    ensures calls == [tx] + rest && Run(s, calls) == Run(s', rest)
  {
    calls := [tx] + rest;
    RunCons(s, tx, rest);
  }

  lemma RunCons(s: State, tx: Tx, rest: seq<Tx>)
    ensures Run(s, [tx] + rest) == Run(Step(s, tx), rest)
  {
    assert ([tx] + rest)[1..] == rest;
  }

  // ---- a priced round is never voided -------------------------------------------------

  lemma {:induction false} ScanNeverVoids(s: State, w: World, from: nat, last: nat, epoch: nat)
    requires Scan(s, w, from, last).Ok? && !s.RoundOf(epoch).status.Cancelled?
    ensures !Scan(s, w, from, last).state.RoundOf(epoch).status.Cancelled?
    decreases last + 1 - from
  {
    if from <= last {
      ScanUnrolls(s, w, from, last);
      ScanNeverVoids(ScanTurn(s, w, from), w, from + 1, last, epoch);
    }
  }

  /** The two grounds on which one call voids a round: anyone cancels it strictly after the tolerance with its
      own probe still denying the price that was due, or the pauser cancels it before its lock time or while
      the price that is due is denied. */
  predicate MayVoid(s: State, tx: Tx, epoch: nat) {
    var r, t, now := s.RoundOf(epoch), s.TermsOf(epoch), tx.world.now;
    var lockDenied := r.status.Open? && tx.world.probe(t.oracle, r.lockTimestamp, t.twapWindow) == No;
    var closeDenied := r.status.Locked? && tx.world.probe(t.oracle, r.closeTimestamp, t.twapWindow) == No;
    || (tx.call == CancelRound(epoch)
        && ((lockDenied && now > r.lockTimestamp + s.bufferSeconds)
            || (closeDenied && now > r.closeTimestamp + s.bufferSeconds)))
    || (tx.call == EmergencyCancelRound(epoch) && Pauser in tx.roles
        && ((r.status.Open? && now < r.lockTimestamp) || (lockDenied && now >= r.lockTimestamp)
            || (closeDenied && now >= r.closeTimestamp)))
  }

  lemma VoidingCallsExactly(s: State, tx: Tx, epoch: nat)
    requires tx.call.CancelRound? || tx.call.EmergencyCancelRound?
    requires !s.RoundOf(epoch).status.Cancelled?
    ensures Step(s, tx).RoundOf(epoch).status.Cancelled? <==> MayVoid(s, tx, epoch)
  {
  }

  /** Exactly when a plain call voids a round. */
  lemma StepVoidsExactly(s: State, tx: Tx, epoch: nat)
    requires Flat(tx) && !s.RoundOf(epoch).status.Cancelled?
    ensures Step(s, tx).RoundOf(epoch).status.Cancelled? <==> MayVoid(s, tx, epoch)
  {
    hide Scan, Resolve;
    if tx.call.CancelRound? || tx.call.EmergencyCancelRound? {
      VoidingCallsExactly(s, tx, epoch);
    } else if !TouchesRounds(tx.call) {
      OthersKeepRounds(s, tx);
    } else if tx.call.ExecuteRound? && Apply(s, tx).Ok? {
      ScanNeverVoids(s, tx.world, OldestUnresolved(s), s.currentEpoch, epoch);
    }
  }

  lemma {:induction false} FlatRunVoidsOnGrounds(s: State, txs: seq<Tx>, epoch: nat, n: nat)
    requires AllFlat(txs) && n <= |txs| && !s.RoundOf(epoch).status.Cancelled?
    requires forall i | 0 <= i < |txs| :: !MayVoid(Run(s, txs[..i]), txs[i], epoch)
    ensures !Run(s, txs[..n]).RoundOf(epoch).status.Cancelled?
  {
    hide MayVoid, Step;
    if n > 0 {
      FlatRunVoidsOnGrounds(s, txs, epoch, n - 1);
      RunSnoc(s, txs, n - 1);
      StepVoidsExactly(Run(s, txs[..n - 1]), txs[n - 1], epoch);
    }
  }

  /** In any run, by whatever role and nested in whatever way, a round is voided only if some call of the
      run, at the moment it takes effect, has one of the two grounds. */
  lemma VoidingNeedsGrounds(s: State, now: nat, txs: seq<Tx>, epoch: nat)
    requires Chronological(now, txs) && !s.RoundOf(epoch).status.Cancelled?
    requires forall i | 0 <= i < |Calls(s, txs)| :: !MayVoid(Run(s, Calls(s, txs)[..i]), Calls(s, txs)[i], epoch)
    ensures !Run(s, txs).RoundOf(epoch).status.Cancelled?
  {
    hide MayVoid, Run, Calls;
    var calls := Calls(s, txs);
    CallsRun(s, now, txs);
    FlatRunVoidsOnGrounds(s, calls, epoch, |calls|);
    assert calls[..|calls|] == calls;
  }

  /** Whenever the round is due, its own probe does not say that the price it needs then is missing. */
  ghost predicate NeverDenied(s: State, calls: seq<Tx>, epoch: nat) {
    forall i | 0 <= i < |calls| ::
      var x, w := Run(s, calls[..i]), calls[i].world;
      Due(x.RoundOf(epoch), w.now) ==> !SaysNo(w, x.TermsOf(epoch), DueInstant(x.RoundOf(epoch)))
  }

  lemma {:induction false} PrefixTimes(now: nat, txs: seq<Tx>, i: nat)
    requires Chronological(now, txs) && i < |txs|
    ensures Chronological(now, txs[..i]) && now <= EndTime(now, txs[..i]) <= txs[i].world.now
    decreases |txs|
  {
    if i > 0 {
      PrefixTimes(txs[0].world.now, txs[1..], i - 1);
      assert txs[..i][1..] == txs[1..][..i - 1];
    }
  }

  /** From its lock time on, a round whose own probe never denies the price it needs at that moment is
      voided by nobody, whatever their role, in any run; a locked round needs its lock price no more. */
  lemma PricedRoundIsNeverVoided(s: State, now: nat, txs: seq<Tx>, epoch: nat)
    requires Inv(s, now) && Chronological(now, txs)
    requires 1 <= epoch <= s.currentEpoch && now >= s.RoundOf(epoch).lockTimestamp
    requires !s.RoundOf(epoch).status.Cancelled? && NeverDenied(s, Calls(s, txs), epoch)
    ensures !Run(s, txs).RoundOf(epoch).status.Cancelled?
  {
    hide InvWithDebt, Run, Calls, RoundEvolves;
    hide MayVoid, Evolves, InvWithDebt, Run, Calls;
    var calls := Calls(s, txs);
    CallsRun(s, now, txs);
    forall i | 0 <= i < |calls|
      ensures !MayVoid(Run(s, calls[..i]), calls[i], epoch)
    {
      PrefixTimes(now, calls, i);
      RunEvolves(s, now, calls[..i]);
      LockTimeStays(s, Run(s, calls[..i]), epoch, now);
      UndeniedHasNoGrounds(Run(s, calls[..i]), calls[i], epoch);
    }
    VoidingNeedsGrounds(s, now, txs, epoch);
  }

  lemma UndeniedHasNoGrounds(x: State, tx: Tx, epoch: nat)
    requires tx.world.now >= x.RoundOf(epoch).lockTimestamp
    requires Due(x.RoundOf(epoch), tx.world.now) ==>
      !SaysNo(tx.world, x.TermsOf(epoch), DueInstant(x.RoundOf(epoch)))
    ensures !MayVoid(x, tx, epoch)
  {
  }

  lemma LockTimeStays(s: State, x: State, epoch: nat, now: nat)
    requires Evolves(s, x, now) && 1 <= epoch <= s.currentEpoch
    ensures x.RoundOf(epoch).lockTimestamp == s.RoundOf(epoch).lockTimestamp
  {
    assert EvolvesAt(s, x, epoch, now);
  }

  // ---- the bounded scan ---------------------------------------------------------------

  /** No existing round is shorter than the interval now in force. */
  ghost predicate Roomy(s: State) {
    forall e | 1 <= e <= s.currentEpoch ::
      s.RoundOf(e).closeTimestamp - s.RoundOf(e).lockTimestamp >= s.interval
  }

  /** That is so as long as nobody raises the interval. */
  lemma FlatStepKeepsRoomy(s: State, now: nat, tx: Tx)
    requires Inv(s, now) && now <= tx.world.now && Flat(tx) && Roomy(s)
    requires tx.call.SetInterval? ==> tx.call.value <= s.interval
    ensures Roomy(Step(s, tx))
  {
    var s' := Step(s, tx);
    FlatStepEvolves(s, now, tx);
    NewRoundTakesSettings(s, now, tx);
    IntervalNotRaised(s, tx);
    RoomyFrame(s, s', tx.world.now);
  }

  lemma IntervalNotRaised(s: State, tx: Tx)
    requires Flat(tx) && (tx.call.SetInterval? ==> tx.call.value <= s.interval)
    ensures Step(s, tx).interval <= s.interval
  {
    if !tx.call.SetInterval? {
      IntervalKept(s, tx);
    }
  }

  lemma RoomyFrame(s: State, s': State, now: nat)
    requires Roomy(s) && Evolves(s, s', now) && s'.interval <= s.interval
    requires OneMoreAtMost(s, s')
    ensures Roomy(s')
  {
    forall e | 1 <= e <= s'.currentEpoch
      ensures s'.RoundOf(e).closeTimestamp - s'.RoundOf(e).lockTimestamp >= s'.interval
    {
      if e <= s.currentEpoch {
        assert EvolvesAt(s, s', e, now);
      }
    }
  }

  lemma {:induction false} SpansAddUp(s: State, now: nat, m: nat, n: nat)
    requires Inv(s, now) && Roomy(s) && 1 <= m <= n <= s.currentEpoch
    ensures s.RoundOf(n).closeTimestamp >= s.RoundOf(m).closeTimestamp + (n - m) * s.interval
    decreases n - m
  {
    if m < n {
      assert Linked(s, m);
      SpansAddUp(s, now, m + 1, n);
      assert s.RoundOf(m + 1).closeTimestamp >= s.RoundOf(m).closeTimestamp + s.interval;
      assert (n - m) * s.interval == (n - (m + 1)) * s.interval + s.interval;
    }
  }

  /** The clamp is a backstop that never cuts the span. */
  lemma ClampNeverCuts(s: State, now: nat)
    requires Inv(s, now)
    ensures ScanSpan(s) == 3 + s.bufferSeconds / s.interval <= MAX_SCAN_ROUNDS
  {
  }

  /** No step of the run sets the interval above what it is at that step. */
  predicate NeverRaises(s: State, txs: seq<Tx>)
    decreases |txs|
  {
    txs == [] ||
    ((txs[0].call.SetInterval? ==> txs[0].call.value <= s.interval) && NeverRaises(Step(s, txs[0]), txs[1..]))
  }

  lemma {:induction false} RunKeepsRoomy(s: State, now: nat, txs: seq<Tx>)
    requires Inv(s, now) && Chronological(now, txs) && AllFlat(txs) && Roomy(s) && NeverRaises(s, txs)
    ensures Roomy(Run(s, txs))
    decreases |txs|
  {
    if txs != [] {
      FlatStepKeepsRoomy(s, now, txs[0]);
      StepKeepsInv(s, now, txs[0]);
      RunKeepsRoomy(Step(s, txs[0]), txs[0].world.now, txs[1..]);
    }
  }

  /** From deployment, over every run in which nobody raises the interval, each round that the scan no
      longer reaches is already strictly past its close plus the tolerance. */
  lemma ScanIsCompleteUntilRaised(p: InitParams, now: nat, txs: seq<Tx>, epoch: nat)
    requires Construct(p).Ok? && Chronological(now, txs)
    requires NeverRaises(Construct(p).state, Calls(Construct(p).state, txs))
    ensures var x := Run(Construct(p).state, txs);
      && x.interval > 0
      && (1 <= epoch < OldestUnresolved(x) ==> x.RoundOf(epoch).closeTimestamp + x.bufferSeconds < EndTime(now, txs))
  {
    var s := Construct(p).state;
    ConstructInv(p, now);
    CallsRun(s, now, txs);
    RunKeepsRoomy(s, now, Calls(s, txs));
    RunKeepsInv(s, now, txs);
    var x := Run(s, txs);
    if 1 <= epoch < OldestUnresolved(x) {
      ScanMissesNothing(x, EndTime(now, txs), epoch);
    }
  }

  /** Every round older than the scan window is already past its close plus the tolerance. */
  lemma ScanMissesNothing(s: State, now: nat, epoch: nat)
    requires Inv(s, now) && Roomy(s) && 1 <= epoch < OldestUnresolved(s)
    ensures s.RoundOf(epoch).closeTimestamp + s.bufferSeconds < now
  {
    var head, n := s.currentEpoch, s.bufferSeconds / s.interval;
    assert head >= epoch + n + 4;
    assert RoundAtOk(s, head, now) && Linked(s, head - 1) && Linked(s, head - 2);
    assert s.RoundOf(head).startTimestamp == s.RoundOf(head - 2).closeTimestamp;
    SpansAddUp(s, now, epoch, head - 2);
    MulMono(n + 2, head - 2 - epoch, s.interval);
    Util.DivBounds(s.bufferSeconds, s.interval);
    assert (n + 2) * s.interval == (n + 1) * s.interval + s.interval;
  }

  /** Every unresolved round below the scan is strictly past its close plus the tolerance. */
  ghost predicate ScanComplete(s: State, now: nat)
    requires s.interval > 0
  {
    forall e | 1 <= e < OldestUnresolved(s) && Unresolved(s.RoundOf(e)) ::
      s.RoundOf(e).closeTimestamp + s.bufferSeconds < now
  }

  /** The newest unresolved round up to n, or zero when there is none. */
  function NewestUnresolved(s: State, n: nat): (e: nat)
    ensures e <= n && (e > 0 ==> Unresolved(s.RoundOf(e)))
    ensures forall k | e < k <= n :: !Unresolved(s.RoundOf(k))
  {
    if n == 0 then 0 else if Unresolved(s.RoundOf(n)) then n else NewestUnresolved(s, n - 1)
  }

  /** Exactly when the scan misses nothing live, in any reachable state: when the newest unresolved
      round below it, if there is one, is past its close plus the tolerance. */
  lemma ScanCompleteExactly(s: State, now: nat)
    requires Inv(s, now)
    ensures s.interval > 0
    ensures var e := NewestUnresolved(s, OldestUnresolved(s) - 1);
      ScanComplete(s, now) <==> e == 0 || s.RoundOf(e).closeTimestamp + s.bufferSeconds < now
    ensures var below := OldestUnresolved(s) - 1;
      (forall e | 1 <= e <= below :: s.RoundOf(e).closeTimestamp + s.bufferSeconds < now)
      <==> below == 0 || s.RoundOf(below).closeTimestamp + s.bufferSeconds < now
  {
    var below := OldestUnresolved(s) - 1;
    var newest := NewestUnresolved(s, below);
    forall e, n | 1 <= e < n <= below
      ensures s.RoundOf(e).closeTimestamp <= s.RoundOf(n).closeTimestamp
    {
      ScheduleIncreases(s, now, e, n);
      assert RoundAtOk(s, n, now);
    }
  }

  /** Exactly which interval changes hide a live round: with the span the new value gives, the newest
      unresolved round below the new scan start is not yet past its close plus the tolerance. */
  lemma RaiseHidesExactly(s: State, w: World, roles: set<Role>, v: nat)
    requires Inv(s, w.now) && Configure(s, w, roles, SetInterval(v)).Ok?
    ensures var s', start := Configure(s, w, roles, SetInterval(v)).state, OldestUnresolved(s.(interval := v));
      var e := NewestUnresolved(s, start - 1);
      && s'.interval == v > 0
      && (ScanComplete(s', w.now) <==> e == 0 || s.RoundOf(e).closeTimestamp + s.bufferSeconds < w.now)
  {
    var s' := Configure(s, w, roles, SetInterval(v)).state;
    ConfigureKeepsInv(s, w, roles, SetInterval(v));
    ScanCompleteExactly(s', w.now);
    SameRoundsSameNewest(s, s', OldestUnresolved(s') - 1);
  }

  lemma {:induction false} SameRoundsSameNewest(s: State, s': State, n: nat)
    requires s'.rounds == s.rounds
    ensures NewestUnresolved(s', n) == NewestUnresolved(s, n)
  {
    if n > 0 {
      SameRoundsSameNewest(s, s', n - 1);
    }
  }

  // ---- what raising the interval does -------------------------------------------------

  function QuietWorld(now: nat): World {
    World(now, (o, i, k) => Reverted, (o, i, k) => No, o => Version(1))
  }

  const SHORT := InitParams(1, 2, 3, 60, 60, 900, 300, 0, 0, 0)

  /** One-minute rounds opened on time from `base`, from the n-th to the last. */
  function Openings(base: nat, n: nat, last: nat): seq<Tx>
    decreases last - n
  {
    if n >= last then []
    else [Tx(1, {}, QuietWorld(base + 60 * n), StartNextRound)] + Openings(base, n + 1, last)
  }

  /** A market of unpriced one-minute rounds with the shortest tolerance. */
  ghost predicate Quiet(s: State, base: nat) {
    && !s.paused && s.interval == 60 && s.bufferSeconds == 900 && s.currentEpoch >= 1
    && (forall e :: e in s.rounds <==> 1 <= e <= s.currentEpoch)
    && (forall e | 1 <= e <= s.currentEpoch ::
          && s.RoundOf(e).status.Open?
          && s.RoundOf(e).lockTimestamp == base + 60 * e
          && s.RoundOf(e).closeTimestamp == base + 60 * e + 60)
  }

  lemma OpeningKeepsQuiet(s: State, base: nat)
    requires Quiet(s, base)
    ensures var s' := Step(s, Tx(1, {}, QuietWorld(base + 60 * s.currentEpoch), StartNextRound));
      Quiet(s', base) && s'.currentEpoch == s.currentEpoch + 1
  {
    var n := s.currentEpoch;
    var s' := Step(s, Tx(1, {}, QuietWorld(base + 60 * n), StartNextRound));
    assert s.RoundOf(n).lockTimestamp == base + 60 * n && s.RoundOf(n + 1) == EmptyRound;
    assert s' == OpenNext(s, QuietWorld(base + 60 * n));
    forall e | 1 <= e <= n
      ensures s'.RoundOf(e) == s.RoundOf(e)
    {
    }
  }

  lemma {:induction false} OpeningsRun(s: State, base: nat, last: nat)
    requires Quiet(s, base) && s.currentEpoch <= last
    ensures var x := Run(s, Openings(base, s.currentEpoch, last));
      Quiet(x, base) && x.currentEpoch == last
    decreases last - s.currentEpoch
  {
    hide Step, Quiet;
    if s.currentEpoch < last {
      var tx := Tx(1, {}, QuietWorld(base + 60 * s.currentEpoch), StartNextRound);
      OpeningKeepsQuiet(s, base);
      OpeningsRun(Step(s, tx), base, last);
      RunCons(s, tx, Openings(base, s.currentEpoch + 1, last));
    }
  }

  lemma {:induction false} OpeningsInOrder(base: nat, n: nat, last: nat)
    requires n < last
    ensures Chronological(base + 60 * n, Openings(base, n, last))
    ensures EndTime(base, Openings(base, n, last)) == base + 60 * (last - 1)
    decreases last - n
  {
    var rest := Openings(base, n + 1, last);
    assert Openings(base, n, last)[1..] == rest;
    if n + 1 < last {
      OpeningsInOrder(base, n + 1, last);
      WidenStart(base + 60 * n, base + 60 * (n + 1), rest);
    }
  }

  lemma RaisedInOrder()
    ensures Chronological(1000, RaisedInterval())
  {
    hide Openings;
    var openings := Openings(1000, 1, 5);
    var genesis := Tx(1, {Operator}, QuietWorld(1000), GenesisStartRound);
    var raise := Tx(1, {Config}, QuietWorld(1240), SetInterval(MAX_INTERVAL));
    OpeningsInOrder(1000, 1, 5);
    WidenStart(1000, 1060, openings);
    assert ([genesis] + openings)[1..] == openings && [raise][1..] == [];
    ChronologicalConcat(1000, [genesis], openings);
    ChronologicalConcat(1000, [genesis] + openings, [raise]);
  }

  /** Five one-minute rounds opened on time, then the interval raised to a day. */
  function RaisedInterval(): seq<Tx> {
    [Tx(1, {Operator}, QuietWorld(1000), GenesisStartRound)] + Openings(1000, 1, 5)
    + [Tx(1, {Config}, QuietWorld(1240), SetInterval(MAX_INTERVAL))]
  }

  lemma GenesisIsQuiet() returns (s: State, tx: Tx, s': State)
    ensures Construct(SHORT) == Ok(s) && s' == Step(s, tx) && Quiet(s', 1000) && s'.currentEpoch == 1
    ensures tx == Tx(1, {Operator}, QuietWorld(1000), GenesisStartRound)
  {
    s := Construct(SHORT).state;
    tx := Tx(1, {Operator}, QuietWorld(1000), GenesisStartRound);
    s' := Step(s, tx);
  }

  lemma RaiseHides(s: State, tx: Tx)
    requires Quiet(s, 1000) && s.currentEpoch == 5
    requires tx == Tx(1, {Config}, QuietWorld(1240), SetInterval(MAX_INTERVAL))
    ensures HidesLiveRound(Step(s, tx), 1240)
  {
    assert s.RoundOf(1).status.Open? && s.RoundOf(1).closeTimestamp == 1000 + 60 * 1 + 60;
    assert 900 / MAX_INTERVAL == 0;
    assert Step(s, tx) == s.(interval := MAX_INTERVAL);
  }

  /** Round 1 lies below the scan window, unresolved, with ten minutes of its tolerance left. */
  predicate HidesLiveRound(s: State, now: nat) {
    && s.interval > 0 && 1 < OldestUnresolved(s)
    && s.RoundOf(1).status.Open?
    && s.RoundOf(1).closeTimestamp + s.bufferSeconds > now + 600
  }

  lemma RunAround(s: State, s1: State, s2: State, a: Tx, mid: seq<Tx>, b: Tx)
    requires s1 == Step(s, a) && s2 == Run(s1, mid)
    ensures Run(s, [a] + mid + [b]) == Step(s2, b)
  {
    RunCons(s, a, mid);
    RunConcat(s, [a] + mid, [b]);
    RunCons(s2, b, []);
    assert [b] + [] == [b];
  }

  /** Raising the interval does break the claim: the scan then skips a round that is unresolved and
      whose tolerance has more than ten minutes left. */
  lemma RaisingTheIntervalHidesLiveRounds()
    ensures Construct(SHORT).Ok? && Chronological(1000, RaisedInterval())
    ensures HidesLiveRound(Run(Construct(SHORT).state, RaisedInterval()), 1240)
  {
    RaisedInOrder();
    var s0, genesis, s1 := GenesisIsQuiet();
    var raise := Tx(1, {Config}, QuietWorld(1240), SetInterval(MAX_INTERVAL));
    OpeningsRun(s1, 1000, 5);
    var s5 := Run(s1, Openings(1000, 1, 5));
    RunAround(s0, s1, s5, genesis, Openings(1000, 1, 5), raise);
    RaiseHides(s5, raise);
  }

  // ---- what a broken promise does -----------------------------------------------------

  /** Round 1 opened at 1000 and entered with ten wei by account 7. */
  function EnteredRound(): seq<Tx> {
    [Tx(1, {Operator}, QuietWorld(1000), GenesisStartRound), Tx(7, {}, QuietWorld(1001), Enter(1, Position.Bull, 10))]
  }

  /** Round 1 as it is opened at `start`, and the terms it is given. */
  function Unstaked(start: nat): Round {
    EmptyRound.(epoch := 1, startTimestamp := start, lockTimestamp := start + 60, closeTimestamp := start + 120,
                status := Status.Open)
  }

  function PinnedBy(oracle: Address): Terms {
    EmptyTerms.(oracle := oracle, twapWindow := 60, burnFeeBps := 300, oracleVersion := 1)
  }

  const STAKED := AddStake(Unstaked(1000), Position.Bull, 10)
  const PINNED := PinnedBy(3)

  /** One-minute rounds and no limits on stakes, before the first round. */
  predicate Waiting(s: State) {
    && s.currentEpoch == 0 && s.rounds == map[] && s.terms == map[] && s.ledger == map[] && !s.paused
    && s.interval == 60 && s.twapWindow == 60 && s.burnFeeBps == 300
    && s.minimumBet == 0 && s.maximumBet == 0 && s.maximumRoundPool == 0
  }

  lemma GenesisOpens(s: State, w: World, s': State)
    requires Waiting(s) && w.version(s.oracle) == Version(1)
    requires s' == Step(s, Tx(1, {Operator}, w, GenesisStartRound))
    ensures s'.RoundOf(1) == Unstaked(w.now) && s'.TermsOf(1) == PinnedBy(s.oracle)
    ensures s'.currentEpoch == 1 && !s'.paused && s'.BookOf(1) == map[]
    ensures s'.minimumBet == 0 && s'.maximumBet == 0 && s'.maximumRoundPool == 0
  {
  }

  lemma EnterStakes(s: State, w: World, start: nat)
    requires s.RoundOf(1) == Unstaked(start) && start <= w.now < start + 60
    requires s.currentEpoch == 1 && !s.paused && s.BookOf(1) == map[]
    requires s.minimumBet == 0 && s.maximumBet == 0 && s.maximumRoundPool == 0
    ensures var s' := Step(s, Tx(7, {}, w, Enter(1, Position.Bull, 10)));
      && s'.RoundOf(1) == AddStake(Unstaked(start), Position.Bull, 10)
      && s'.TermsOf(1) == s.TermsOf(1) && s'.currentEpoch == 1
  {
  }

  lemma EnteredInOrder()
    ensures Chronological(1000, EnteredRound()) && EndTime(1000, EnteredRound()) == 1001
  {
    assert EnteredRound()[1..] == [EnteredRound()[1]] && [EnteredRound()[1]][1..] == [];
  }

  lemma EnteredRoundRuns() returns (s: State)
    ensures Construct(SHORT).Ok? && s == Run(Construct(SHORT).state, EnteredRound())
    ensures Inv(s, 1001) && s.currentEpoch == 1 && s.RoundOf(1) == STAKED && s.TermsOf(1) == PINNED
  {
    hide Step, InvWithDebt;
    var s0, genesis, s1 := GenesisIsQuiet();
    var enter := Tx(7, {}, QuietWorld(1001), Enter(1, Position.Bull, 10));
    s := Step(s1, enter);
    GenesisOpens(s0, QuietWorld(1000), s1);
    EnterStakes(s1, QuietWorld(1001), 1000);
    ConstructInv(SHORT, 1000);
    StepKeepsInv(s0, 1000, genesis);
    StepKeepsInv(s1, 1000, enter);
    RunCons(s0, genesis, [enter]);
    RunCons(s1, enter, []);
    assert EnteredRound() == [genesis] + [enter] && [enter] + [] == [enter];
  }

  lemma OpenRoundPaysNothing(s: State, now: nat, epoch: nat, account: Address)
    requires Inv(s, now) && 1 <= epoch <= s.currentEpoch && s.RoundOf(epoch).status.Open?
    ensures Entitlement(s, epoch, account) == Some(Entitled(false, 0))
    ensures s.totalLiabilities >= s.RoundOf(epoch).totalAmount
  {
    OwedPart(s, s.currentEpoch, epoch);
  }

  /** A reachable market with money stuck: while the pinned oracle says it can quote the lock instant and
      gives no usable price for it, no run of calls by anyone moves the round, and the stake is owed but
      cannot be claimed. */
  lemma MoneyCanBeStuck(txs: seq<Tx>)
    requires Chronological(1001, txs) && AllSeen(txs, w => Jammed(w, STAKED, PINNED))
    ensures Construct(SHORT).Ok? && Chronological(1000, EnteredRound() + txs)
    ensures var x := Run(Construct(SHORT).state, EnteredRound() + txs);
      && x.RoundOf(1) == STAKED && x.totalLiabilities >= 10
      && Entitlement(x, 1, 7) == Some(Entitled(false, 0))
  {
    hide Step, InvWithDebt, Jammed, Run;
    var s := EnteredRoundRuns();
    RunConcat(Construct(SHORT).state, EnteredRound(), txs);
    EnteredInOrder();
    ChronologicalConcat(1000, EnteredRound(), txs);
    forall i | 0 <= i < |txs|
      ensures EveryWorld(txs[i], w => Jammed(w, s.RoundOf(1), s.TermsOf(1)))
    {
      assert EveryWorld(txs[i], w => Jammed(w, STAKED, PINNED));
    }
    JammedRoundStays(s, 1001, txs, 1);
    RunKeepsInv(s, 1001, txs);
    RunEvolves(s, 1001, txs);
    OpenRoundPaysNothing(Run(s, txs), EndTime(1001, txs), 1, 7);
  }

  // ---- what an answer that does not decode does ---------------------------------------

  /** Neither the quote nor the probe for the due instant decodes. */
  predicate Broken(w: World, r: Round, t: Terms) {
    Due(r, w.now) && QuoteIsBad(w, t, DueInstant(r)) && ProbeIsBad(w, t, DueInstant(r))
  }

  /** Then every call that could move the round reverts, for every role, and so does the execute call for
      every other round as long as this one is in its scan. */
  lemma BrokenOracleBlocksAll(s: State, w: World, roles: set<Role>, epoch: nat)
    requires Inv(s, w.now) && 1 <= epoch <= s.currentEpoch && Broken(w, s.RoundOf(epoch), s.TermsOf(epoch))
    ensures s.interval > 0 && Jammed(w, s.RoundOf(epoch), s.TermsOf(epoch))
    ensures (if s.RoundOf(epoch).status.Open? then OnLock(s, w, epoch) else OnSettle(s, w, epoch))
            == Revert(UndecodableAnswer)
    ensures Overdue(s, w, epoch) ==> OnCancel(s, w, epoch) == Revert(UndecodableAnswer)
    ensures OnCancel(s, w, epoch).Revert?
    ensures Pauser in roles ==> OnEmergencyCancel(s, w, roles, epoch) == Revert(UndecodableAnswer)
    ensures !s.paused && OldestUnresolved(s) <= epoch ==> OnExecute(s, w) == Revert(UndecodableAnswer)
  {
    assert RoundAtOk(s, epoch, w.now);
    ExecuteKeepsInv(s, w);
    assert TurnBreaks(w, s.RoundOf(epoch), s.TermsOf(epoch));
  }

  /** The next round can be opened exactly when the market runs, the head has stopped taking entries and the
      version of the oracle in force decodes or its call reverts. */
  lemma StartsUnlessVersionBreaks(s: State, w: World)
    requires Inv(s, w.now)
    ensures OnStartNext(s, w).Ok? <==>
      && !s.paused && s.currentEpoch > 0 && w.now >= s.RoundOf(s.currentEpoch).lockTimestamp
      && !w.version(s.oracle).BadVersion?
    ensures var due := s.currentEpoch > 0 && w.now >= s.RoundOf(s.currentEpoch).lockTimestamp;
      due && w.version(s.oracle).BadVersion? ==>
      OnExecute(s, w) == Revert(if s.paused then EnforcedPause else UndecodableAnswer)
  {
    ExecuteKeepsInv(s, w);
    assert EpochsOk(s);
  }

  /** An oracle at 9 that knows its version and answers nothing else in a form that decodes. */
  function BrokenWorld(now: nat): World {
    World(now, (o, i, k) => if o == 9 then BadQuote else Reverted, (o, i, k) => if o == 9 then BadProbe else No,
          o => Version(1))
  }

  /** It is proposed, adopted two days later, and entered. */
  function AdoptedRun(): seq<Tx> {
    [Tx(1, {Config}, BrokenWorld(1000), ProposeOracle(9)),
     Tx(1, {Config}, BrokenWorld(173_800), CommitOracle),
     Tx(1, {Operator}, BrokenWorld(173_800), GenesisStartRound),
     Tx(7, {}, BrokenWorld(173_801), Enter(1, Position.Bull, 10))]
  }

  const TRAPPED := AddStake(Unstaked(173_800), Position.Bull, 10)
  const ADOPTED := PinnedBy(9)

  lemma Adopts(s: State, s': State)
    requires Construct(SHORT) == Ok(s)
    requires s' == Step(Step(s, Tx(1, {Config}, BrokenWorld(1000), ProposeOracle(9))),
                        Tx(1, {Config}, BrokenWorld(173_800), CommitOracle))
    ensures Waiting(s') && s'.oracle == 9
  {
  }

  lemma AdoptedInOrder()
    ensures Chronological(1000, AdoptedRun()) && EndTime(1000, AdoptedRun()) == 173_801
  {
    var txs := AdoptedRun();
    assert txs[1..] == [txs[1], txs[2], txs[3]] && [txs[1], txs[2], txs[3]][1..] == [txs[2], txs[3]];
    assert [txs[2], txs[3]][1..] == [txs[3]] && [txs[3]][1..] == [];
    assert Chronological(173_800, [txs[2], txs[3]]);
  }

  lemma AdoptedRunRuns() returns (s: State)
    ensures Construct(SHORT).Ok? && s == Run(Construct(SHORT).state, AdoptedRun()) && Inv(s, 173_801)
    ensures s.RoundOf(1) == TRAPPED && s.TermsOf(1) == ADOPTED && s.currentEpoch == 1
  {
    hide Step, InvWithDebt, Run;
    var s0, txs := Construct(SHORT).state, AdoptedRun();
    var s1, s2 := Step(s0, txs[0]), Step(Step(s0, txs[0]), txs[1]);
    var s3 := Step(s2, txs[2]);
    s := Step(s3, txs[3]);
    Adopts(s0, s2);
    GenesisOpens(s2, BrokenWorld(173_800), s3);
    EnterStakes(s3, BrokenWorld(173_801), 173_800);
    ConstructInv(SHORT, 1000);
    StepKeepsInv(s0, 1000, txs[0]);
    StepKeepsInv(s1, 1000, txs[1]);
    StepKeepsInv(s2, 173_800, txs[2]);
    StepKeepsInv(s3, 173_800, txs[3]);
    RunSnoc(s0, txs, 0);
    RunSnoc(s0, txs, 1);
    RunSnoc(s0, txs, 2);
    RunSnoc(s0, txs, 3);
    assert txs[..0] == [] && txs[..4] == txs;
    assert Run(s0, []) == s0 by { NoCalls(s0); }
  }

  lemma NoCalls(s: State)
    ensures Run(s, []) == s
  {
  }

  /** The market accepts such an oracle, and money entered under it is stuck: while it stays broken, no run
      of calls by anyone moves the round or releases the stake. */
  lemma BrokenOracleTrapsMoney(txs: seq<Tx>)
    requires Chronological(173_801, txs) && AllSeen(txs, w => Broken(w, TRAPPED, ADOPTED))
    ensures Construct(SHORT).Ok? && Chronological(1000, AdoptedRun() + txs)
    ensures var x := Run(Construct(SHORT).state, AdoptedRun() + txs);
      && x.RoundOf(1) == TRAPPED && x.totalLiabilities >= 10
      && Entitlement(x, 1, 7) == Some(Entitled(false, 0))
  {
    hide Step, InvWithDebt, Run, Jammed, Broken;
    var s := AdoptedRunRuns();
    RunConcat(Construct(SHORT).state, AdoptedRun(), txs);
    AdoptedInOrder();
    ChronologicalConcat(1000, AdoptedRun(), txs);
    forall i | 0 <= i < |txs|
      ensures EveryWorld(txs[i], w => Jammed(w, s.RoundOf(1), s.TermsOf(1)))
    {
      BrokenIsJammed();
      assert EveryWorld(txs[i], w => Broken(w, TRAPPED, ADOPTED));
    }
    JammedRoundStays(s, 173_801, txs, 1);
    RunKeepsInv(s, 173_801, txs);
    RunEvolves(s, 173_801, txs);
    OpenRoundPaysNothing(Run(s, txs), EndTime(173_801, txs), 1, 7);
  }

  lemma BrokenIsJammed()
    ensures forall w, r, t :: Broken(w, r, t) ==> Jammed(w, r, t)
  {
  }
}
