/** Claims: everyone is paid, in any order and batching, and the client library agrees to the wei. */
module MarketClaims {
  import opened Util
  import opened MarketTypes
  import opened MarketSpec
  import opened Ledger
  import opened MarketInvariant
  import opened MarketHistory
  import Pricing = MarketPricing
  import Sdk

  // ---- payability ---------------------------------------------------------------------

  /** Whatever the contract says it owes an account can be claimed at once and paid in full. */
  lemma EveryEntitlementIsPayable(s: State, now: nat, epoch: nat, account: Address)
    requires Inv(s, now)
    ensures Entitlement(s, epoch, account).Some?
    ensures var amount := Entitlement(s, epoch, account).value.amount;
      var r := ClaimEffects(s, account, [epoch]);
      && amount <= s.totalLiabilities <= s.balance
      && (r.Ok? <==> amount > 0)
      && (r.Ok? ==> r.state.totalLiabilities == s.totalLiabilities - amount
                    && r.state.balance == s.balance - amount
                    && Entitlement(r.state, epoch, account) == Some(Entitled(false, 0)))
  {
    if 1 <= epoch <= s.currentEpoch {
      assert RoundAtOk(s, epoch, now);
    }
    var m := MarkOne(s, account, epoch);
    ClaimKeepsInv(s, account, [epoch], now);
    assert [epoch][1..] == [];
    if m.Marked? {
      MarkOneKeepsInv(s, account, epoch, now, 0);
      assert MarkAll(m.state, account, []) == Marked(m.state, 0);
    }
  }

  /** A winner collects exactly when the floored share is not zero. */
  lemma WinnerCollectsUnlessFlooredAway(s: State, now: nat, epoch: nat, account: Address)
    requires Inv(s, now) && s.RoundOf(epoch).status.Settled?
    requires Backs(s.BetOf(epoch, account).position, s.TermsOf(epoch).outcome)
    requires !s.BetOf(epoch, account).claimed
    ensures ClaimEffects(s, account, [epoch]).Ok? <==>
      s.BetOf(epoch, account).amount * s.RoundOf(epoch).rewardAmount >= s.RoundOf(epoch).rewardBaseAmount
  {
    assert RoundAtOk(s, epoch, now);
    EveryEntitlementIsPayable(s, now, epoch, account);
    var r, b := s.RoundOf(epoch), s.BetOf(epoch, account);
    DivBelow(b.amount * r.rewardAmount, r.rewardBaseAmount, 1);
  }

  /** In a contested round, what was paid and what is still due add up to the reward, short of it by
      less than one wei per winner; once nothing is due only that dust is still on the books. */
  lemma WinnersArePaidUpToDust(s: State, now: nat, epoch: nat)
    requires Inv(s, now) && s.RoundOf(epoch).status.Settled?
    requires s.TermsOf(epoch).outcome.Bull? || s.TermsOf(epoch).outcome.Bear?
    ensures var r, l, p := s.RoundOf(epoch), s.BookOf(epoch), Winning(s.TermsOf(epoch).outcome);
      var paid := Total(Paid(p, r.rewardAmount, r.rewardBaseAmount), l);
      var due := Total(Due(p, r.rewardAmount, r.rewardBaseAmount), l);
      && paid + due <= r.rewardAmount < paid + due + Total(Winners(p), l)
      && OwedAt(s, epoch) == r.rewardAmount - paid
      && (due == 0 ==> OwedAt(s, epoch) < Total(Winners(p), l))
  {
    assert RoundAtOk(s, epoch, now);
    var r, l, p := s.RoundOf(epoch), s.BookOf(epoch), Winning(s.TermsOf(epoch).outcome);
    PaidPlusDue(p, r.rewardAmount, r.rewardBaseAmount, l);
    DustBelowWinners(p, r.rewardAmount, r.rewardBaseAmount, l);
  }

  // ---- a winner who collects nothing --------------------------------------------------

  /** One-minute rounds, the highest fee, no limits on stakes. */
  const DEAR := InitParams(1, 2, 3, 60, 60, 900, MAX_BURN_FEE_BPS, 0, 0, 0)

  /** Oracles that price the instant 1060 at 100 and every other at 200. */
  function RisingWorld(now: nat): World {
    World(now, (o, i, k) => Quoted(if i == 1060 then 100 else 200, 0), (o, i, k) => Yes, o => Version(1))
  }

  /** One wei and eighteen wei on Bull against one wei on Bear, then a rise. */
  function FlooredRun(): seq<Tx> {
    [Tx(1, {Operator}, RisingWorld(1000), GenesisStartRound),
     Tx(10, {}, RisingWorld(1001), Enter(1, Position.Bull, 1)),
     Tx(11, {}, RisingWorld(1002), Enter(1, Position.Bull, 18)),
     Tx(12, {}, RisingWorld(1003), Enter(1, Position.Bear, 1)),
     Tx(10, {}, RisingWorld(1060), LockRound(1)),
     Tx(10, {}, RisingWorld(1120), SettleRound(1))]
  }

  /** A market whose one round, terms and book are these, and which accepts any stake. */
  ghost predicate Stage(s: State, now: nat, r: Round, t: Terms, l: Book) {
    && Inv(s, now) && !s.paused && s.currentEpoch == 1
    && s.minimumBet == 0 && s.maximumBet == 0 && s.maximumRoundPool == 0
    && s.RoundOf(1) == r && s.TermsOf(1) == t && s.BookOf(1) == l
  }

  lemma GenesisStage(tx: Tx, r: Round, t: Terms) returns (s: State)
    requires tx == Tx(1, {Operator}, RisingWorld(1000), GenesisStartRound)
    requires r == EmptyRound.(epoch := 1, startTimestamp := 1000, lockTimestamp := 1060, closeTimestamp := 1120,
                              status := Status.Open)
    requires t == EmptyTerms.(oracle := 3, twapWindow := 60, burnFeeBps := MAX_BURN_FEE_BPS, oracleVersion := 1)
    ensures Construct(DEAR).Ok? && s == Step(Construct(DEAR).state, tx) && Stage(s, 1000, r, t, map[])
  {
    hide InvWithDebt;
    ConstructInv(DEAR, 1000);
    StepKeepsInv(Construct(DEAR).state, 1000, tx);
    s := Step(Construct(DEAR).state, tx);
  }

  lemma EnterStage(s: State, now: nat, r: Round, t: Terms, l: Book, tx: Tx)
    requires Stage(s, now, r, t, l) && tx.call.Enter? && tx.call.epoch == 1 && tx.sender !in l
    requires r.status.Open? && now <= tx.world.now && r.startTimestamp <= tx.world.now < r.lockTimestamp
    ensures Stage(Step(s, tx), tx.world.now, AddStake(r, tx.call.position, tx.call.amount), t,
                  l[tx.sender := Bet(tx.call.position, tx.call.amount, false)])
  {
    hide InvWithDebt;
    StepKeepsInv(s, now, tx);
  }

  lemma LockStage(s: State, now: nat, r: Round, t: Terms, l: Book, tx: Tx, price: nat, tick: int)
    requires Stage(s, now, r, t, l) && tx.call == LockRound(1) && now <= tx.world.now && price > 0
    requires r.status.Open? && r.lockTimestamp <= tx.world.now
    requires tx.world.quote(t.oracle, r.lockTimestamp, t.twapWindow) == Quoted(price, tick)
    ensures Stage(Step(s, tx), tx.world.now, r.(lockPrice := price, status := Status.Locked),
                  t.(lockTick := tick, lockedAt := tx.world.now), l)
  {
    hide InvWithDebt;
    StepKeepsInv(s, now, tx);
  }

  lemma SettleStage(s: State, now: nat, r: Round, t: Terms, l: Book, tx: Tx, price: nat, tick: int)
    requires Stage(s, now, r, t, l) && tx.call == SettleRound(1) && now <= tx.world.now && price > 0
    requires r.status.Locked? && r.closeTimestamp <= tx.world.now && t.burnFeeBps <= MAX_BPS
    requires tx.world.quote(t.oracle, r.closeTimestamp, t.twapWindow) == Quoted(price, tick)
    ensures var v := Resolve(r, t.burnFeeBps, price);
      Stage(Step(s, tx), tx.world.now,
            r.(closePrice := price, rewardBaseAmount := v.rewardBase, rewardAmount := v.reward,
               status := Status.Settled),
            t.(closeTick := tick, settledAt := tx.world.now, outcome := v.outcome), l)
  {
    hide InvWithDebt, Resolve;
    LaterInv(s, now, tx.world.now);
    SettleKeepsInv(s, tx.world, 1);
    StepKeepsInv(s, now, tx);
  }

  lemma FlooredStage(s: State, now: nat, r: Round, t: Terms, l: Book)
    requires Stage(s, now, r, t, l) && r.status.Settled? && t.outcome.Bull?
    requires r.rewardAmount == 18 && r.rewardBaseAmount == 19 && 10 in l && l[10] == Bet(Position.Bull, 1, false)
    ensures s.RoundOf(1).status.Settled?
    ensures Backs(s.BetOf(1, 10).position, s.TermsOf(1).outcome) && s.BetOf(1, 10) == Bet(Position.Bull, 1, false)
    ensures ClaimEffects(s, 10, [1]) == Revert(NothingToClaim)
  {
    assert [1][0] == 1;
  }

  lemma RunSix(s: State, a: Tx, b: Tx, c: Tx, d: Tx, e: Tx, f: Tx)
    ensures Run(s, [a, b, c, d, e, f]) == Step(Step(Step(Step(Step(Step(s, a), b), c), d), e), f)
  {
    hide Step;
    RunSnoc(s, [a, b, c, d, e, f], 0);
    RunSnoc(s, [a, b, c, d, e, f], 1);
    RunSnoc(s, [a, b, c, d, e, f], 2);
    RunSnoc(s, [a, b, c, d, e, f], 3);
    RunSnoc(s, [a, b, c, d, e, f], 4);
    RunSnoc(s, [a, b, c, d, e, f], 5);
    assert [a, b, c, d, e, f][..6] == [a, b, c, d, e, f] && [a, b, c, d, e, f][..0] == [];
  }

  lemma SixInOrder(now: nat, a: Tx, b: Tx, c: Tx, d: Tx, e: Tx, f: Tx)
    requires now <= a.world.now <= b.world.now <= c.world.now <= d.world.now <= e.world.now <= f.world.now
    ensures Chronological(now, [a, b, c, d, e, f])
  {
    assert [a, b, c, d, e, f][1..] == [b, c, d, e, f] && [b, c, d, e, f][1..] == [c, d, e, f];
    assert [c, d, e, f][1..] == [d, e, f] && [d, e, f][1..] == [e, f] && [e, f][1..] == [f];
    assert Chronological(d.world.now, [e, f]);
    assert Chronological(b.world.now, [c, d, e, f]);
  }

  /** The eighteen wei left of the pot are shared by nineteen staked: after this run from deployment the
      one-wei stake has won, and its claim reverts. */
  lemma OneWeiCanFloorAway()
    ensures Construct(DEAR).Ok? && Chronological(1000, FlooredRun())
    ensures var x := Run(Construct(DEAR).state, FlooredRun());
      && x.RoundOf(1).status.Settled? && x.BetOf(1, 10) == Bet(Position.Bull, 1, false)
      && Backs(x.BetOf(1, 10).position, x.TermsOf(1).outcome)
      && ClaimEffects(x, 10, [1]) == Revert(NothingToClaim)
  {
    hide Step, Stage, Run, ClaimEffects;
    var txs := FlooredRun();
    var r0 := EmptyRound.(epoch := 1, startTimestamp := 1000, lockTimestamp := 1060, closeTimestamp := 1120,
                          status := Status.Open);
    var t0 := EmptyTerms.(oracle := 3, twapWindow := 60, burnFeeBps := MAX_BURN_FEE_BPS, oracleVersion := 1);
    var s0 := GenesisStage(txs[0], r0, t0);
    EnterStage(s0, 1000, r0, t0, map[], txs[1]);
    var s1, r1, l1 := Step(s0, txs[1]), AddStake(r0, Position.Bull, 1), map[10 := Bet(Position.Bull, 1, false)];
    EnterStage(s1, 1001, r1, t0, l1, txs[2]);
    var s2, r2, l2 := Step(s1, txs[2]), AddStake(r1, Position.Bull, 18), l1[11 := Bet(Position.Bull, 18, false)];
    EnterStage(s2, 1002, r2, t0, l2, txs[3]);
    var s3, r3, l3 := Step(s2, txs[3]), AddStake(r2, Position.Bear, 1), l2[12 := Bet(Position.Bear, 1, false)];
    LockStage(s3, 1003, r3, t0, l3, txs[4], 100, 0);
    var s4, r4 := Step(s3, txs[4]), r3.(lockPrice := 100, status := Status.Locked);
    var t4 := t0.(lockTick := 0, lockedAt := 1060);
    SettleStage(s4, 1060, r4, t4, l3, txs[5], 200, 0);
    FlooredStage(Step(s4, txs[5]), 1120,
                 r4.(closePrice := 200, rewardBaseAmount := 19, rewardAmount := 18, status := Status.Settled),
                 t4.(closeTick := 0, settledAt := 1120, outcome := Outcome.Bull), l3);
    SixInOrder(1000, txs[0], txs[1], txs[2], txs[3], txs[4], txs[5]);
    RunSix(Construct(DEAR).state, txs[0], txs[1], txs[2], txs[3], txs[4], txs[5]);
  }

  // ---- duplicates, batching and order -------------------------------------------------

  lemma {:induction false} ClaimedRefuses(s: State, sender: Address, epochs: seq<nat>, j: nat)
    requires j < |epochs| && s.BetOf(epochs[j], sender).claimed
    ensures MarkAll(s, sender, epochs).Refused?
    decreases |epochs|
  {
    if j > 0 && MarkOne(s, sender, epochs[0]).Marked? {
      ClaimedRefuses(MarkOne(s, sender, epochs[0]).state, sender, epochs[1..], j - 1);
    }
  }

  lemma {:induction false} DuplicatesRefuse(s: State, sender: Address, epochs: seq<nat>, i: nat, j: nat)
    requires i < j < |epochs| && epochs[i] == epochs[j]
    ensures MarkAll(s, sender, epochs).Refused?
    decreases |epochs|
  {
    if MarkOne(s, sender, epochs[0]).Marked? {
      var s1 := MarkOne(s, sender, epochs[0]).state;
      if i == 0 {
        ClaimedRefuses(s1, sender, epochs[1..], j - 1);
      } else {
        DuplicatesRefuse(s1, sender, epochs[1..], i - 1, j - 1);
      }
    }
  }

  /** Naming an epoch twice in one claim reverts the whole claim. */
  lemma DuplicateEpochsAreRejected(s: State, sender: Address, epochs: seq<nat>, i: nat, j: nat)
    requires i < j < |epochs| && epochs[i] == epochs[j]
    ensures ClaimEffects(s, sender, epochs).Revert?
  {
    DuplicatesRefuse(s, sender, epochs, i, j);
  }

  /** What can be marked depends on neither the liabilities nor the balance. */
  lemma {:induction false} MarkAllIgnoresBooks(s: State, sender: Address, epochs: seq<nat>, tl: nat, bal: nat)
    ensures MarkAll(s.(totalLiabilities := tl, balance := bal), sender, epochs)
         == match MarkAll(s, sender, epochs)
            case Marked(s', n) => Marked(s'.(totalLiabilities := tl, balance := bal), n)
            case Refused(e) => Refused(e)
    decreases |epochs|
  {
    if epochs != [] {
      var s1 := s.(totalLiabilities := tl, balance := bal);
      assert s1.BetOf(epochs[0], sender) == s.BetOf(epochs[0], sender);
      assert Entitlement(s1, epochs[0], sender) == Entitlement(s, epochs[0], sender);
      if MarkOne(s, sender, epochs[0]).Marked? {
        MarkAllIgnoresBooks(MarkOne(s, sender, epochs[0]).state, sender, epochs[1..], tl, bal);
      }
    }
  }

  lemma {:induction false} MarkAllConcat(s: State, sender: Address, xs: seq<nat>, ys: seq<nat>)
    ensures MarkAll(s, sender, xs + ys)
         == match MarkAll(s, sender, xs)
            case Refused(e) => Refused(e)
            case Marked(s1, n) =>
              (match MarkAll(s1, sender, ys) case Refused(e) => Refused(e) case Marked(s2, m) => Marked(s2, n + m))
    decreases |xs|
  {
    if xs == [] {
      assert xs + ys == ys;
    } else {
      assert (xs + ys)[1..] == xs[1..] + ys;
      if MarkOne(s, sender, xs[0]).Marked? {
        MarkAllConcat(MarkOne(s, sender, xs[0]).state, sender, xs[1..], ys);
      }
    }
  }

  /** One claim over many rounds is the same as several claims over parts of them: either both ways of
      claiming go through, to the same end, or neither does. */
  lemma BatchingDoesNotMatter(s: State, sender: Address, xs: seq<nat>, ys: seq<nat>)
    ensures var first, whole := ClaimEffects(s, sender, xs), ClaimEffects(s, sender, xs + ys);
      && (whole.Ok? <==> first.Ok? && ClaimEffects(first.state, sender, ys).Ok?)
      && (whole.Ok? ==> whole == ClaimEffects(first.state, sender, ys))
  {
    hide MarkAll;
    MarkAllConcat(s, sender, xs, ys);
    var m := MarkAll(s, sender, xs);
    if m.Marked? {
      MarkAllKeepsBooks(s, sender, xs);
      BatchRest(s, sender, ys, m);
    }
  }

  lemma BatchRest(s: State, sender: Address, ys: seq<nat>, m: Marked)
    requires m.Marked? && m.state.totalLiabilities == s.totalLiabilities && m.state.balance == s.balance
    ensures var n := MarkAll(m.state, sender, ys);
      var whole := PayOut(if n.Refused? then n else Marked(n.state, m.amount + n.amount));
      && (whole.Ok? <==> PayOut(m).Ok? && ClaimEffects(PayOut(m).state, sender, ys).Ok?)
      && (whole.Ok? ==> whole == ClaimEffects(PayOut(m).state, sender, ys))
  {
    hide MarkAll;
    var n := MarkAll(m.state, sender, ys);
    if PayOut(m).Ok? {
      MarkAllIgnoresBooks(m.state, sender, ys, s.totalLiabilities - m.amount, s.balance - m.amount);
    }
    if n.Marked? {
      MarkAllKeepsBooks(m.state, sender, ys);
      if m.amount + n.amount <= s.totalLiabilities && m.amount + n.amount <= s.balance {
        PayTwice(m, n, s.totalLiabilities, s.balance);
      }
    }
  }

  lemma PayTwice(m: Marked, n: Marked, tl: nat, bal: nat)
    requires m.Marked? && n.Marked?
    requires n.state.totalLiabilities == m.state.totalLiabilities == tl >= m.amount + n.amount
    requires n.state.balance == m.state.balance == bal >= m.amount + n.amount
    ensures PayOut(m) == Ok(m.state.(totalLiabilities := tl - m.amount, balance := bal - m.amount))
    ensures PayOut(Marked(n.state.(totalLiabilities := tl - m.amount, balance := bal - m.amount), n.amount))
         == PayOut(Marked(n.state, m.amount + n.amount))
  {
  }

  lemma {:induction false} MarkAllKeepsBooks(s: State, sender: Address, epochs: seq<nat>)
    requires MarkAll(s, sender, epochs).Marked?
    ensures MarkAll(s, sender, epochs).state.totalLiabilities == s.totalLiabilities
    ensures MarkAll(s, sender, epochs).state.balance == s.balance
    decreases |epochs|
  {
    if epochs != [] {
      MarkAllKeepsBooks(MarkOne(s, sender, epochs[0]).state, sender, epochs[1..]);
    }
  }

  lemma MarkingCommutes(s: State, sender: Address, x: nat, y: nat)
    requires x != y && MarkOne(s, sender, x).Marked? && MarkOne(MarkOne(s, sender, x).state, sender, y).Marked?
    ensures var a := MarkOne(s, sender, x);
      var b := MarkOne(a.state, sender, y);
      var c := MarkOne(s, sender, y);
      && c.Marked? && c.amount == b.amount
      && MarkOne(c.state, sender, x) == Marked(b.state, a.amount)
  {
    var a := MarkOne(s, sender, x);
    var b := MarkOne(a.state, sender, y);
    assert a.state.BookOf(y) == s.BookOf(y) && Entitlement(a.state, y, sender) == Entitlement(s, y, sender);
    var c := MarkOne(s, sender, y);
    assert c.state.BookOf(x) == s.BookOf(x) && Entitlement(c.state, x, sender) == Entitlement(s, x, sender);
    var d := MarkOne(c.state, sender, x);
    assert d.state.ledger == b.state.ledger;
  }

  lemma MarkTwo(s: State, sender: Address, x: nat, y: nat, rest: seq<nat>)
    requires MarkOne(s, sender, x).Marked? && MarkOne(MarkOne(s, sender, x).state, sender, y).Marked?
    ensures var a := MarkOne(s, sender, x);
      var b := MarkOne(a.state, sender, y);
      MarkAll(s, sender, [x, y] + rest)
      == match MarkAll(b.state, sender, rest)
         case Refused(e) => Refused(e)
         case Marked(s', n) => Marked(s', a.amount + b.amount + n)
  {
    assert ([x, y] + rest)[1..] == [y] + rest && ([y] + rest)[1..] == rest;
  }

  lemma SwapNeighbours(s: State, sender: Address, x: nat, y: nat, after: seq<nat>)
    requires MarkAll(s, sender, [x, y] + after).Marked?
    ensures MarkAll(s, sender, [y, x] + after) == MarkAll(s, sender, [x, y] + after)
  {
    assert ([x, y] + after)[1..] == [y] + after && ([y] + after)[1..] == after;
    assert MarkAll(MarkOne(s, sender, x).state, sender, [y] + after).Marked?;
    if x != y {
      MarkingCommutes(s, sender, x, y);
      MarkTwo(s, sender, x, y, after);
      MarkTwo(s, sender, y, x, after);
    }
  }

  /** A claim begins with its first epoch. */
  lemma MarkCons(s: State, sender: Address, x: nat, rest: seq<nat>)
    requires MarkOne(s, sender, x).Marked?
    ensures var first := MarkOne(s, sender, x);
      var others := MarkAll(first.state, sender, rest);
      MarkAll(s, sender, [x] + rest)
      == if others.Refused? then others else Marked(others.state, first.amount + others.amount)
  {
    assert ([x] + rest)[1..] == rest;
  }

  lemma FirstIsMarked(s: State, sender: Address, x: nat, rest: seq<nat>)
    requires MarkAll(s, sender, [x] + rest).Marked?
    ensures MarkOne(s, sender, x).Marked? && MarkAll(MarkOne(s, sender, x).state, sender, rest).Marked?
  {
    assert ([x] + rest)[1..] == rest;
  }

  lemma {:induction false} MoveToFront(s: State, sender: Address, before: seq<nat>, y: nat, after: seq<nat>)
    requires MarkAll(s, sender, before + ([y] + after)).Marked?
    ensures MarkAll(s, sender, [y] + (before + after)) == MarkAll(s, sender, before + ([y] + after))
    decreases |before|
  {
    hide MarkAll, MarkOne;
    if before == [] {
      assert before + ([y] + after) == [y] + (before + after);
    } else {
      var x, rest := before[0], before[1..];
      assert before + ([y] + after) == [x] + (rest + ([y] + after));
      FirstIsMarked(s, sender, x, rest + ([y] + after));
      MarkCons(s, sender, x, rest + ([y] + after));
      MoveToFront(MarkOne(s, sender, x).state, sender, rest, y, after);
      MarkCons(s, sender, x, [y] + (rest + after));
      assert [x, y] + (rest + after) == [x] + ([y] + (rest + after));
      SwapNeighbours(s, sender, x, y, rest + after);
      assert [y, x] + (rest + after) == [y] + (before + after);
    }
  }

  lemma {:induction false} MarkingAnyOrder(s: State, sender: Address, xs: seq<nat>, ys: seq<nat>)
    requires multiset(xs) == multiset(ys) && MarkAll(s, sender, xs).Marked?
    ensures MarkAll(s, sender, ys) == MarkAll(s, sender, xs)
    decreases |ys|
  {
    if ys == [] {
      assert |multiset(xs)| == |xs|;
    } else {
      var y := ys[0];
      var before, after := TakenOut(xs, ys);
      MoveToFront(s, sender, before, y, after);
      FirstIsMarked(s, sender, y, before + after);
      MarkCons(s, sender, y, before + after);
      MarkingAnyOrder(MarkOne(s, sender, y).state, sender, before + after, ys[1..]);
    }
  }

  lemma TakenOut(xs: seq<nat>, ys: seq<nat>) returns (before: seq<nat>, after: seq<nat>)
    requires ys != [] && multiset(xs) == multiset(ys)
    ensures xs == before + ([ys[0]] + after) && multiset(before + after) == multiset(ys[1..])
  {
    assert ys[0] in multiset(xs);
    var i :| 0 <= i < |xs| && xs[i] == ys[0];
    before, after := xs[..i], xs[i + 1..];
    assert xs == before + ([ys[0]] + after);
    assert ys == [ys[0]] + ys[1..];
    assert multiset(before + after) == multiset(xs) - multiset{ys[0]} == multiset(ys) - multiset{ys[0]};
    assert multiset(ys[1..]) == multiset(ys) - multiset{ys[0]};
  }

  /** The order in which epochs are named changes neither what a claim pays nor what it leaves. */
  lemma OrderDoesNotMatter(s: State, sender: Address, xs: seq<nat>, ys: seq<nat>)
    requires multiset(xs) == multiset(ys)
    ensures ClaimEffects(s, sender, xs).Ok? <==> ClaimEffects(s, sender, ys).Ok?
    ensures ClaimEffects(s, sender, xs).Ok? ==> ClaimEffects(s, sender, ys) == ClaimEffects(s, sender, xs)
  {
    hide MarkAll;
    if MarkAll(s, sender, xs).Marked? {
      MarkingAnyOrder(s, sender, xs, ys);
    } else if MarkAll(s, sender, ys).Marked? {
      MarkingAnyOrder(s, sender, ys, xs);
    }
  }

  // ---- the client library -------------------------------------------------------------

  /** The outcome the library derives from a round alone is the one the contract recorded. */
  lemma SdkDerivesTheRecordedOutcome(s: State, w: World, epoch: nat)
    requires Inv(s, w.now) && OnSettle(s, w, epoch).Ok?
    ensures var s' := OnSettle(s, w, epoch).state;
      s'.TermsOf(epoch).outcome == Sdk.DeriveOutcome(s'.RoundOf(epoch))
  {
    SettleKeepsInv(s, w, epoch);
    assert RoundAtOk(OnSettle(s, w, epoch).state, epoch, w.now);
  }

  /** For an unclaimed entry the library's payout is the contract's winnings, and its refund test
      is exactly the contract handing the stake back. */
  lemma SdkPayoutIsTheEntitlement(s: State, now: nat, epoch: nat, account: Address)
    requires Inv(s, now) && 1 <= epoch <= s.currentEpoch
    requires !s.BetOf(epoch, account).claimed && s.BetOf(epoch, account).amount > 0
    ensures Entitlement(s, epoch, account).Some?
    ensures var r, b, outcome := s.RoundOf(epoch), s.BetOf(epoch, account), s.TermsOf(epoch).outcome;
      var e := Entitlement(s, epoch, account).value;
      && (Sdk.IsRefundShaped(r, outcome) <==> e == Entitled(false, b.amount))
      && (!Sdk.IsRefundShaped(r, outcome) ==> e.amount == Sdk.SettledPayout(r, b, outcome))
      && (e.won ==> r.status.Settled? && e.amount == Sdk.SettledPayout(r, b, outcome))
  {
    EveryEntitlementIsPayable(s, now, epoch, account);
    assert RoundAtOk(s, epoch, now);
  }

  lemma ContestedPoolIsPositive(side: nat, other: nat, feeBps: nat)
    requires side > 0 && other > 0 && feeBps <= MAX_BURN_FEE_BPS
    ensures Sdk.RewardPool(side, other, feeBps) == (side + other) - ((side + other) * feeBps) / MAX_BPS > 0
  {
    FeeWithinTotal(side + other, feeBps);
  }

  lemma EstimateFormula(amount: nat, side: nat, other: nat, feeBps: nat)
    requires amount > 0 && feeBps <= MAX_BURN_FEE_BPS
    ensures var total := side + amount + other;
      Sdk.EstimatePayout(amount, side, other, feeBps)
      == if other == 0 then amount else (amount * (total - (total * feeBps) / MAX_BPS)) / (side + amount)
  {
    if other > 0 {
      ContestedPoolIsPositive(side + amount, other, feeBps);
    }
  }

  /** What a settled round owes an unclaimed stake on the side the price moved to is the estimate made from
      its final pools, less the stake itself. */
  lemma SettledStakeCollects(r: Round, t: Terms, l: Book, account: Address)
    requires SettledOk(r, t, l) && PoolsMatchLedger(r, l) && r.status.Settled?
    requires account in l && l[account].amount > 0 && !l[account].claimed
    requires if l[account].position.Bull? then r.closePrice > r.lockPrice else r.closePrice < r.lockPrice
    ensures l[account].amount <= PoolOf(r, l[account].position) <= r.totalAmount
    ensures var b, e := l[account], EntitlementOf(r, t.outcome, l[account]);
      var side, other := PoolOf(r, b.position) - b.amount, r.totalAmount - PoolOf(r, b.position);
      && e.Some? && e.value.amount == Sdk.EstimatePayout(b.amount, side, other, t.burnFeeBps)
      && (e.value.won <==> other > 0)
  {
    var b := l[account];
    TotalRemove(Side(b.position), l, account);
    EstimateFormula(b.amount, PoolOf(r, b.position) - b.amount, r.totalAmount - PoolOf(r, b.position), t.burnFeeBps);
  }

  lemma EnterAdds(s: State, w: World, s1: State, sender: Address, epoch: nat, position: Position, amount: nat)
    requires Inv(s, w.now) && OnEnter(s, w, sender, epoch, position, amount) == Ok(s1)
    ensures s1.RoundOf(epoch) == AddStake(s.RoundOf(epoch), position, amount)
    ensures sender in s1.BookOf(epoch) && s1.BookOf(epoch)[sender] == Bet(position, amount, false)
    ensures 1 <= epoch <= s1.currentEpoch
    ensures s1.TermsOf(epoch) == s.TermsOf(epoch) && s.TermsOf(epoch).burnFeeBps <= MAX_BURN_FEE_BPS
    ensures s.RoundOf(epoch).bullAmount + s.RoundOf(epoch).bearAmount == s.RoundOf(epoch).totalAmount
  {
    assert RoundAtOk(s, epoch, w.now);
  }

  /** A round's settlement keeps its last entry, its pools and its fee, in whatever run it happens. */
  lemma SettledAsEntered(s: State, now: nat, txs: seq<Tx>, x: State, epoch: nat)
    requires Inv(s, now) && Chronological(now, txs) && x == Run(s, txs) && 1 <= epoch <= s.currentEpoch
    requires x.RoundOf(epoch).status.Settled? && SameStakes(s.BookOf(epoch), x.BookOf(epoch))
    ensures SettledOk(x.RoundOf(epoch), x.TermsOf(epoch), x.BookOf(epoch))
    ensures PoolsMatchLedger(x.RoundOf(epoch), x.BookOf(epoch)) && SamePools(s.RoundOf(epoch), x.RoundOf(epoch))
    ensures x.TermsOf(epoch).burnFeeBps == s.TermsOf(epoch).burnFeeBps
  {
    RunKeepsInv(s, now, txs);
    RunEvolves(s, now, txs);
    Pricing.SameStakesSameTotals(Position.Bull, s.BookOf(epoch), x.BookOf(epoch));
    Pricing.SameStakesSameTotals(Position.Bear, s.BookOf(epoch), x.BookOf(epoch));
    assert EvolvesAt(s, x, epoch, now);
    assert RoundAtOk(s, epoch, now) && RoundAtOk(x, epoch, EndTime(now, txs));
  }

  /** What the library estimates for a positive stake is what that stake collects in every run that ends
      with the round settled, no further stake in it, and the price moved to its side; alone on the winning
      side it estimates, and gets, a refund. */
  lemma EstimateIsExactForTheLastEntrant(s: State, w0: World, s1: State, txs: seq<Tx>, x: State,
                                         sender: Address, epoch: nat, position: Position, amount: nat)
    requires Inv(s, w0.now) && amount > 0
    requires OnEnter(s, w0, sender, epoch, position, amount) == Ok(s1)
    requires Chronological(w0.now, txs) && x == Run(s1, txs)
    requires x.RoundOf(epoch).status.Settled? && SameStakes(s1.BookOf(epoch), x.BookOf(epoch))
    requires !x.BetOf(epoch, sender).claimed
    requires var r := x.RoundOf(epoch);
      if position.Bull? then r.closePrice > r.lockPrice else r.closePrice < r.lockPrice
    ensures PoolOf(s.RoundOf(epoch), position) <= s.RoundOf(epoch).totalAmount
    ensures var r, fee := s.RoundOf(epoch), s.TermsOf(epoch).burnFeeBps;
      var side, other := PoolOf(r, position), r.totalAmount - PoolOf(r, position);
      && Entitlement(x, epoch, sender).Some?
      && Entitlement(x, epoch, sender).value.amount == Sdk.EstimatePayout(amount, side, other, fee)
      && (Entitlement(x, epoch, sender).value.won <==> other > 0)
  {
    hide EntitlementOf, Sdk.EstimatePayout, Run, OnEnter, InvWithDebt, SettledOk, PoolsMatchLedger;
    EnterAdds(s, w0, s1, sender, epoch, position, amount);
    EnterKeepsInv(s, w0, sender, epoch, position, amount);
    SettledAsEntered(s1, w0.now, txs, x, epoch);
    SettledStakeCollects(x.RoundOf(epoch), x.TermsOf(epoch), x.BookOf(epoch), sender);
  }
}
