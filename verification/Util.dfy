/** Small shared vocabulary: optional values, basis points, and facts about integer division. */
module Util {

  datatype Option<+T> = None | Some(value: T)

  /** One whole in basis points. */
  const MAX_BPS: nat := 10_000

  /** Signed division that truncates toward zero. */
  function TruncDiv(a: int, b: int): int
    requires b > 0
  {
    if a >= 0 then a / b else -((-a) / b)
  }

  lemma MulMono(a: nat, b: nat, c: nat)
    requires a <= b
    ensures a * c <= b * c
  {
  }

  /** Cancelling a positive factor. */
  lemma CancelFactor(a: nat, b: nat, d: nat)
    requires d > 0 && a * d < b * d
    ensures a < b
  {
    if b <= a {
      MulMono(b, a, d);
    }
  }

  /** A floored quotient, under a name of its own, with the products it sits between. */
  lemma Quotient(n: nat, d: nat) returns (q: nat)
    requires d > 0
    ensures q == n / d && q * d <= n < (q + 1) * d
  {
    q := n / d;
    assert n == d * (n / d) + n % d;
  }

  lemma DivBounds(n: nat, d: nat)
    requires d > 0
    ensures (n / d) * d <= n < (n / d + 1) * d
  {
    var q := Quotient(n, d);
  }

  lemma QuotientsOrdered(n: nat, m: nat, x: nat, y: nat, d: nat)
    requires d > 0 && x * d <= n <= m < (y + 1) * d
    ensures x <= y
  {
    CancelFactor(x, y + 1, d);
  }

  /** The only quotient that satisfies the bounds is the floor. */
  lemma DivUnique(n: nat, d: nat, q: nat)
    requires d > 0
    requires q * d <= n < (q + 1) * d
    ensures n / d == q
  {
    var f := Quotient(n, d);
    QuotientsOrdered(n, n, f, q, d);
    QuotientsOrdered(n, n, q, f, d);
  }

  lemma DivMono(a: nat, b: nat, d: nat)
    requires d > 0 && a <= b
    ensures a / d <= b / d
  {
    var x := Quotient(a, d);
    var y := Quotient(b, d);
    QuotientsOrdered(a, b, x, y, d);
  }

  /** A larger divisor gives a quotient that is no larger. */
  lemma DivAntitone(n: nat, d: nat, d': nat)
    requires 0 < d <= d'
    ensures n / d' <= n / d
  {
    var x := Quotient(n, d');
    var y := Quotient(n, d);
    MulMono(d, d', x);
    QuotientsOrdered(x * d, n, x, y, d);
  }

  /** A quotient stays below a bound exactly when the dividend stays below the scaled bound. */
  lemma DivBelow(n: nat, d: nat, b: nat)
    requires d > 0
    ensures n / d < b <==> n < b * d
  {
    var q := Quotient(n, d);
    if q < b {
      MulMono(q + 1, b, d);
    }
    if n < b * d {
      CancelFactor(q, b, d);
    }
  }
}
