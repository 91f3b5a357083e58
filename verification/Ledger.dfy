/** Sums over a round's ledger, and what flooring every winner's share leaves behind. */
module Ledger {
  import opened Util
  import opened MarketTypes

  /** The quantities that are summed over a ledger. */
  datatype Weight =
    | Side(position: Position)                       // stakes on one side
    | Unclaimed                                      // stakes not yet taken back
    | Share(position: Position, reward: nat, base: nat)  // every winner's floored payout
    | Paid(position: Position, reward: nat, base: nat)   // the payouts already collected
    | Due(position: Position, reward: nat, base: nat)    // the payouts still to collect
    | Winners(position: Position)                    // one for each positive stake on a side

  function Payout(amount: nat, reward: nat, base: nat): nat {
    if base == 0 then 0 else (amount * reward) / base
  }

  function Weigh(w: Weight, b: Bet): nat {
    match w
    case Side(p) => if b.position == p then b.amount else 0
    case Unclaimed => if b.claimed then 0 else b.amount
    case Share(p, r, n) => if b.position == p then Payout(b.amount, r, n) else 0
    case Paid(p, r, n) => if b.position == p && b.claimed then Payout(b.amount, r, n) else 0
    case Due(p, r, n) => if b.position == p && !b.claimed then Payout(b.amount, r, n) else 0
    case Winners(p) => if b.position == p && b.amount > 0 then 1 else 0
  }

  ghost function Total(w: Weight, l: Book): nat
    decreases |l|
  {
    if l == map[] then 0
    else
      var a :| a in l;
      assert |l - {a}| < |l| by { LessEntries(l, a); }
      Weigh(w, l[a]) + Total(w, l - {a})
  }

  lemma LessEntries(l: Book, a: Address)
    requires a in l
    ensures |l - {a}| == |l| - 1
  {
    assert (l - {a}).Keys == l.Keys - {a};
    assert |(l - {a}).Keys| == |l.Keys| - 1;
  }

  /** The order in which entries are summed does not matter. */
  lemma TotalRemove(w: Weight, l: Book, a: Address)
    requires a in l
    ensures Total(w, l) == Weigh(w, l[a]) + Total(w, l - {a})
    decreases |l|
  {
    LessEntries(l, a);
    var c :| c in l && Total(w, l) == Weigh(w, l[c]) + Total(w, l - {c});
    if c != a {
      LessEntries(l, c);
      TotalRemove(w, l - {c}, a);
      TotalRemove(w, l - {a}, c);
      assert l - {c} - {a} == l - {a} - {c};
    }
  }

  lemma TotalUpdate(w: Weight, l: Book, a: Address, b: Bet)
    ensures Total(w, l[a := b]) == Total(w, l - {a}) + Weigh(w, b)
    ensures Total(w, l) == Total(w, l - {a}) + (if a in l then Weigh(w, l[a]) else 0)
  {
    TotalRemove(w, l[a := b], a);
    assert l[a := b] - {a} == l - {a};
    if a in l {
      TotalRemove(w, l, a);
    } else {
      assert l - {a} == l;
    }
  }

  /** A weight that is nowhere positive sums to nothing, and nothing else does. */
  lemma {:induction false} TotalZero(w: Weight, l: Book)
    ensures Total(w, l) == 0 <==> forall a :: a in l ==> Weigh(w, l[a]) == 0
    decreases |l|
  {
    if l != map[] {
      var c :| c in l && Total(w, l) == Weigh(w, l[c]) + Total(w, l - {c});
      LessEntries(l, c);
      TotalZero(w, l - {c});
      forall a | a in l && a != c
        ensures a in l - {c}
      {
      }
    }
  }

  /** A pointwise comparison between three weights carries over to their sums. */
  lemma {:induction false} TotalAdd(x: Weight, y: Weight, z: Weight, l: Book)
    requires forall a :: a in l ==> Weigh(x, l[a]) + Weigh(y, l[a]) == Weigh(z, l[a])
    ensures Total(x, l) + Total(y, l) == Total(z, l)
    decreases |l|
  {
    if l != map[] {
      var c :| c in l;
      LessEntries(l, c);
      TotalRemove(x, l, c);
      TotalRemove(y, l, c);
      TotalRemove(z, l, c);
      TotalAdd(x, y, z, l - {c});
    }
  }

  /** One floored share against the exact one. */
  lemma ShareBounds(amount: nat, reward: nat, base: nat)
    requires base > 0
    ensures Payout(amount, reward, base) * base <= amount * reward
    ensures amount * reward <= Payout(amount, reward, base) * base + (if amount > 0 then base - 1 else 0)
  {
    DivBounds(amount * reward, base);
  }

  lemma BoundsAdd(s0: nat, a0: nat, n0: nat, s1: nat, a1: nat, n1: nat, reward: nat, base: nat)
    requires base > 0 && s0 * base <= a0 * reward <= s0 * base + n0 * (base - 1)
    requires s1 * base <= a1 * reward <= s1 * base + n1 * (base - 1)
    ensures (s0 + s1) * base <= (a0 + a1) * reward <= (s0 + s1) * base + (n0 + n1) * (base - 1)
  {
    assert (s0 + s1) * base == s0 * base + s1 * base;
    assert (a0 + a1) * reward == a0 * reward + a1 * reward;
    assert (n0 + n1) * (base - 1) == n0 * (base - 1) + n1 * (base - 1);
  }

  /** All floored shares of one side against the exact reward of that side. */
  lemma {:induction false} SharesBound(p: Position, reward: nat, base: nat, l: Book)
    requires base > 0
    ensures Total(Share(p, reward, base), l) * base <= Total(Side(p), l) * reward
    ensures Total(Side(p), l) * reward
         <= Total(Share(p, reward, base), l) * base + Total(Winners(p), l) * (base - 1)
    decreases |l|
  {
    if l != map[] {
      var c :| c in l;
      LessEntries(l, c);
      var share, side, win := Share(p, reward, base), Side(p), Winners(p);
      TotalRemove(share, l, c);
      TotalRemove(side, l, c);
      TotalRemove(win, l, c);
      SharesBound(p, reward, base, l - {c});
      ShareBounds(l[c].amount, reward, base);
      BoundsAdd(Weigh(share, l[c]), Weigh(side, l[c]), Weigh(win, l[c]),
                Total(share, l - {c}), Total(side, l - {c}), Total(win, l - {c}), reward, base);
    }
  }

  /** A side with any stake on it has a winner to pay. */
  lemma SomeWinner(p: Position, l: Book)
    requires Total(Side(p), l) > 0
    ensures Total(Winners(p), l) > 0
  {
    TotalZero(Side(p), l);
    TotalZero(Winners(p), l);
    var a :| a in l && Weigh(Side(p), l[a]) != 0;
    assert Weigh(Winners(p), l[a]) == 1;
  }

  lemma DustArithmetic(share: nat, winners: nat, reward: nat, base: nat)
    requires base > 0 && winners > 0
    requires share * base <= base * reward <= share * base + winners * (base - 1)
    ensures share <= reward < share + winners
  {
    assert share * base < (reward + 1) * base;
    CancelFactor(share, reward + 1, base);
    assert (share + winners) * base == share * base + winners * (base - 1) + winners;
    assert reward * base < (share + winners) * base;
    CancelFactor(reward, share + winners, base);
  }

  /** Winners whose stakes add up to the base share out at most the reward,
      and fall short of it by less than one wei each. */
  lemma DustBelowWinners(p: Position, reward: nat, base: nat, l: Book)
    requires base > 0 && Total(Side(p), l) == base
    ensures Total(Share(p, reward, base), l) <= reward
    ensures reward < Total(Share(p, reward, base), l) + Total(Winners(p), l)
  {
    SharesBound(p, reward, base, l);
    SomeWinner(p, l);
    DustArithmetic(Total(Share(p, reward, base), l), Total(Winners(p), l), reward, base);
  }

  /** Collected and outstanding payouts together are all the payouts. */
  lemma PaidPlusDue(p: Position, reward: nat, base: nat, l: Book)
    ensures Total(Paid(p, reward, base), l) + Total(Due(p, reward, base), l) == Total(Share(p, reward, base), l)
  {
    TotalAdd(Paid(p, reward, base), Due(p, reward, base), Share(p, reward, base), l);
  }
}
