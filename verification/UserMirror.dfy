/** The indexer's user rows against the contract's storage: every figure of a row is a sum over the account's
    entries, round by round. */
module UserMirror {
  import opened Util
  import opened MarketTypes
  import opened MarketSpec
  import opened MarketInvariant
  import opened ChainMirror
  import R = ReadModel
  import Replay
  import Indexer

  // ---- what a user row should say -----------------------------------------------------

  /** Adding up over rounds 1 to `last`. */
  function UpTo(f: nat -> nat, last: nat): nat {
    if last == 0 then 0 else UpTo(f, last - 1) + f(last)
  }

  /** A stake that was paid a share of a reward. */
  predicate WasWon(s: State, a: Address, e: nat) {
    s.BetOf(e, a).claimed && s.BetOf(e, a).amount > 0 && s.RoundOf(e).status.Settled?
    && (s.TermsOf(e).outcome == Outcome.Bull || s.TermsOf(e).outcome == Outcome.Bear)
  }

  function Entries(s: State, a: Address): nat -> nat { e => if a in s.BookOf(e) then 1 else 0 }

  function Staked(s: State, a: Address): nat -> nat { e => s.BetOf(e, a).amount }

  function Wins(s: State, a: Address): nat -> nat { e => if WasWon(s, a, e) then 1 else 0 }

  /** A stake's part of a reward, floored. */
  function FlooredShare(stake: nat, reward: nat, base: nat): nat {
    if base > 0 then stake * reward / base else 0
  }

  /** A won entry was paid its floored share. */
  function Winnings(s: State, a: Address): nat -> nat {
    e => if WasWon(s, a, e)
         then FlooredShare(s.BetOf(e, a).amount, s.RoundOf(e).rewardAmount, s.RoundOf(e).rewardBaseAmount) else 0
  }

  /** Any other claimed entry was paid its stake back. */
  function Refunds(s: State, a: Address): nat -> nat {
    e => if s.BetOf(e, a).claimed && !WasWon(s, a, e) then s.BetOf(e, a).amount else 0
  }

  /** The two times are the least and greatest known block times of the account's bets. */
  ghost predicate Seen(bets: R.Bets, a: Address, first: Option<nat>, last: Option<nat>) {
    && (first.None? <==> last.None?)
    && (first.None? ==> forall e | R.BetKey(e, a) in bets :: bets[R.BetKey(e, a)].blockTime.None?)
    && (first.Some? && last.Some? ==>
          && (exists e :: R.BetKey(e, a) in bets && bets[R.BetKey(e, a)].blockTime == first)
          && (exists e :: R.BetKey(e, a) in bets && bets[R.BetKey(e, a)].blockTime == last)
          && forall e | R.BetKey(e, a) in bets && bets[R.BetKey(e, a)].blockTime.Some? ::
               first.value <= bets[R.BetKey(e, a)].blockTime.value <= last.value)
  }

  // ---- adding up by epoch -------------------------------------------------------------

  /** A column with at most one row per epoch adds up epoch by epoch. */
  lemma {:induction false} SumByEpoch<K>(column: map<K, nat>, key: nat -> K, f: nat -> nat, last: nat)
    requires forall e, e' :: key(e) == key(e') ==> e == e'
    requires forall k | k in column :: exists e | 1 <= e <= last :: k == key(e)
    requires forall e | 1 <= e <= last :: f(e) == if key(e) in column then column[key(e)] else 0
    ensures R.Sum(column) == UpTo(f, last)
  {
    if last == 0 {
      assert column == map[];
    } else {
      var rest := column - {key(last)};
      forall k | k in rest
        ensures exists e | 1 <= e <= last - 1 :: k == key(e)
      {
        var e :| 1 <= e <= last && k == key(e);
        assert e != last;
      }
      SumByEpoch(rest, key, f, last - 1);
      if key(last) in column {
        Indexer.SumRemove(column, key(last));
      } else {
        assert rest == column;
      }
    }
  }

  /** Counting rows is adding up ones. */
  function Ones<K, V>(m: map<K, V>): map<K, nat> {
    map k | k in m :: 1
  }

  lemma {:induction false} CountIsSum<K, V>(m: map<K, V>)
    ensures |m| == R.Sum(Ones(m))
    decreases |m|
  {
    if m == map[] {
      assert Ones(m) == map[];
    } else {
      var k :| k in m;
      CountIsSum(m - {k});
      Indexer.SumRemove(Ones(m), k);
      assert Ones(m) - {k} == Ones(m - {k});
      assert m.Keys == (m - {k}).Keys + {k};
    }
  }

  // ---- the columns --------------------------------------------------------------------

  lemma EntriesInRange(s: State, a: Address, e: nat)
    requires EpochsOk(s) && a in s.BookOf(e)
    ensures 1 <= e <= s.currentEpoch
  {
  }

  lemma BetColumns(s: State, bets: R.Bets, a: Address)
    requires EpochsOk(s) && BetsMirror(s, bets)
    ensures var mine := R.BetsOf(bets, a);
      && |mine| == UpTo(Entries(s, a), s.currentEpoch)
      && R.Sum(R.Stakes(mine, {true, false})) == UpTo(Staked(s, a), s.currentEpoch)
  {
    var mine := R.BetsOf(bets, a);
    var key := (e: nat) => R.BetKey(e, a);
    CountIsSum(mine);
    forall k | k in mine
      ensures k == key(k.epoch) && 1 <= k.epoch <= s.currentEpoch
    {
      assert R.BetKey(k.epoch, a) == k;
      EntriesInRange(s, a, k.epoch);
    }
    SumByEpoch(Ones(mine), key, Entries(s, a), s.currentEpoch);
    SumByEpoch(R.Stakes(mine, {true, false}), key, Staked(s, a), s.currentEpoch);
  }

  /** What a claimed entry was paid, and as what, from the round alone. */
  lemma RoundPaid(r: Round, t: Terms, l: Book, epoch: nat, now: nat, a: Address)
    requires RoundOk(r, t, l, epoch, now) && a in l && l[a].claimed
    ensures EntitlementOf(r, t.outcome, l[a].(claimed := false))
         == Some(if l[a].amount > 0 && r.status.Settled? && (t.outcome.Bull? || t.outcome.Bear?)
                 then Entitled(true, FlooredShare(l[a].amount, r.rewardAmount, r.rewardBaseAmount))
                 else Entitled(false, l[a].amount))
  {
    hide Ledger.Total;
  }

  /** The claim rows of one account and round. */
  lemma ClaimRows(s: State, now: nat, claims: R.Claims, a: Address, e: nat)
    requires Inv(s, now) && ClaimsMirror(s, claims)
    ensures var won, back := R.ClaimKey(e, a, R.Claim), R.ClaimKey(e, a, R.Refund);
      && (won in claims <==> WasWon(s, a, e))
      && (back in claims <==> s.BetOf(e, a).claimed && !WasWon(s, a, e))
      && (won in claims ==> claims[won].main.amount == Winnings(s, a)(e))
      && (back in claims ==> claims[back].main.amount == Refunds(s, a)(e))
      && (won in claims || back in claims ==> a in s.BookOf(e) && 1 <= e <= s.currentEpoch)
  {
    hide RoundOk, EntitlementOf, FlooredShare;
    assert ClaimMirror(s, claims, e, a, R.Claim) && ClaimMirror(s, claims, e, a, R.Refund);
    if s.BetOf(e, a).claimed {
      EntriesInRange(s, a, e);
      assert RoundAtOk(s, e, now);
      RoundPaid(s.RoundOf(e), s.TermsOf(e), s.BookOf(e), e, now, a);
    }
  }

  /** One kind of an account's claim rows, counted and added up. */
  lemma ClaimColumn(s: State, claims: R.Claims, a: Address, kind: R.PaidKind, ones: nat -> nat, paid: nat -> nat)
    requires forall e: nat :: R.ClaimKey(e, a, kind) in claims ==>
      1 <= e <= s.currentEpoch && ones(e) == 1 && claims[R.ClaimKey(e, a, kind)].main.amount == paid(e)
    requires forall e: nat :: R.ClaimKey(e, a, kind) !in claims ==> ones(e) == 0 && paid(e) == 0
    ensures var rows := R.ClaimsOf(claims, a, kind);
      |rows| == UpTo(ones, s.currentEpoch) && R.Sum(R.Payments(rows)) == UpTo(paid, s.currentEpoch)
  {
    var rows := R.ClaimsOf(claims, a, kind);
    var key := (e: nat) => R.ClaimKey(e, a, kind);
    CountIsSum(rows);
    forall k | k in rows
      ensures k == key(k.epoch) && 1 <= k.epoch <= s.currentEpoch
    {
      assert R.ClaimKey(k.epoch, a, kind) == k;
    }
    SumByEpoch(Ones(rows), key, ones, s.currentEpoch);
    SumByEpoch(R.Payments(rows), key, paid, s.currentEpoch);
  }

  lemma WonColumns(s: State, now: nat, claims: R.Claims, a: Address)
    requires Inv(s, now) && ClaimsMirror(s, claims)
    ensures var won := R.ClaimsOf(claims, a, R.Claim);
      |won| == UpTo(Wins(s, a), s.currentEpoch) && R.Sum(R.Payments(won)) == UpTo(Winnings(s, a), s.currentEpoch)
  {
    hide InvWithDebt, ClaimsMirror;
    forall e: nat
      ensures R.ClaimKey(e, a, R.Claim) in claims ==>
        && 1 <= e <= s.currentEpoch && Wins(s, a)(e) == 1
        && claims[R.ClaimKey(e, a, R.Claim)].main.amount == Winnings(s, a)(e)
      ensures R.ClaimKey(e, a, R.Claim) !in claims ==> Wins(s, a)(e) == 0 && Winnings(s, a)(e) == 0
    {
      ClaimRows(s, now, claims, a, e);
    }
    ClaimColumn(s, claims, a, R.Claim, Wins(s, a), Winnings(s, a));
  }

  lemma RefundColumn(s: State, now: nat, claims: R.Claims, a: Address)
    requires Inv(s, now) && ClaimsMirror(s, claims)
    ensures R.Sum(R.Payments(R.ClaimsOf(claims, a, R.Refund))) == UpTo(Refunds(s, a), s.currentEpoch)
  {
    hide InvWithDebt, ClaimsMirror;
    var back := (e: nat) => if R.ClaimKey(e, a, R.Refund) in claims then 1 else 0;
    forall e: nat
      ensures R.ClaimKey(e, a, R.Refund) in claims ==>
        1 <= e <= s.currentEpoch && claims[R.ClaimKey(e, a, R.Refund)].main.amount == Refunds(s, a)(e)
      ensures R.ClaimKey(e, a, R.Refund) !in claims ==> Refunds(s, a)(e) == 0
    {
      ClaimRows(s, now, claims, a, e);
    }
    ClaimColumn(s, claims, a, R.Refund, back, Refunds(s, a));
  }

  // ---- the rows -----------------------------------------------------------------------

  lemma TimesAreSeen(bets: R.Bets, a: Address)
    ensures var times := R.Times(R.BetsOf(bets, a)); Seen(bets, a, R.Least(times), R.Greatest(times))
  {
    var times := R.Times(R.BetsOf(bets, a));
    forall k | k in times
      ensures k == R.BetKey(k.epoch, a) && k in bets && bets[k].blockTime == Some(times[k])
    {
    }
  }

  /** A row of the users' table, against the contract's storage. */
  ghost predicate AddsUp(s: State, bets: R.Bets, a: Address, row: R.UserRow) {
    && row.entered == UpTo(Entries(s, a), s.currentEpoch)
    && row.won == UpTo(Wins(s, a), s.currentEpoch)
    && row.staked == UpTo(Staked(s, a), s.currentEpoch)
    && row.claimed == UpTo(Winnings(s, a), s.currentEpoch)
    && row.refunded == UpTo(Refunds(s, a), s.currentEpoch)
    && Seen(bets, a, row.firstSeen, row.lastSeen)
  }

  lemma ActiveExactly(s: State, bets: R.Bets, claims: R.Claims, a: Address)
    requires BetsMirror(s, bets) && ClaimsMirror(s, claims)
    ensures Replay.HasActivity(bets, claims, a) <==> exists e :: a in s.BookOf(e)
  {
    forall e, kind | R.ClaimKey(e, a, kind) in claims
      ensures a in s.BookOf(e)
    {
      assert ClaimMirror(s, claims, e, a, kind);
    }
    forall e
      ensures R.BetKey(e, a) in bets <==> a in s.BookOf(e)
    {
    }
  }

  lemma RowsOfMirror(x: State, now: nat, t: R.Tables, a: Address)
    requires Inv(x, now) && Mirrors(x, t) && Replay.Derived(t)
    ensures a in t.users <==> exists e :: a in x.BookOf(e)
    ensures a in t.users ==> AddsUp(x, t.bets, a, t.users[a])
  {
    assert EpochsOk(x);
    hide InvWithDebt, RoundsMirror, BetsMirror, ClaimsMirror, Replay.TotalsCurrent, Replay.HasActivity, Seen;
    hide R.BetsOf, R.ClaimsOf, R.Stakes, R.Payments, R.Times, R.Sum, UpTo, Entries, Wins, Staked, Winnings, Refunds;
    BetColumns(x, t.bets, a);
    WonColumns(x, now, t.claims, a);
    RefundColumn(x, now, t.claims, a);
    TimesAreSeen(t.bets, a);
    ActiveExactly(x, t.bets, t.claims, a);
  }

  /** From deployment on, over every run: exactly the accounts with an entry have a row, and it counts their
      entries and wins and adds up their stakes, winnings and refunds, each as the contract's storage has it. */
  lemma UsersAreTheEntrants(p: InitParams, now: nat, txs: seq<Tx>, x: State, logs: seq<R.Log>, a: Address)
    requires Construct(p).Ok? && Chronological(now, txs) && x == Run(Construct(p).state, txs)
    requires EventsOf(logs) == EmitRun(Construct(p).state, txs)
    ensures var t := R.Fold(R.Empty, logs);
      && (a in t.users <==> exists e :: a in x.BookOf(e))
      && (a in t.users ==> AddsUp(x, t.bets, a, t.users[a]))
  {
    hide Run, EmitRun, Mirrors, InvWithDebt, Replay.Derived, R.Fold, Construct;
    IndexedRun(p, now, txs, logs, (e: nat) => x.RoundOf(e).closeTimestamp);
    RowsOfMirror(x, EndTime(now, txs), R.Fold(R.Empty, logs), a);
  }
}
