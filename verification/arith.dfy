/** Facts about division and remainder that the solver needs spelled out. */
module Arith {

  lemma {:induction false} MulAtLeast(k: int, n: int)
    requires n >= 0
    ensures k >= 1 ==> k * n >= n
    ensures k <= -1 ==> k * n <= -n
  {
    if k >= 1 {
      assert (k - 1) * n >= 0;
    } else if k <= -1 {
      assert (-1 - k) * n >= 0;
    }
  }

  lemma {:induction false} DivMod(x: nat, n: nat)
    requires n > 0
    ensures x == (x / n) * n + x % n && 0 <= x % n < n && x / n >= 0
  {
  }

  /** A quotient and a remainder are determined by their equation. */
  lemma {:induction false} DivModUnique(x: nat, n: nat, q: int, r: int)
    requires n > 0 && x == q * n + r && 0 <= r < n
    ensures x / n == q && x % n == r
  {
    DivMod(x, n);
    var k := x / n - q;
    assert k * n == r - x % n;
    MulAtLeast(k, n);
  }

  lemma {:induction false} MulMonotone(a: nat, b: nat, c: nat)
    requires a <= b
    ensures a * c <= b * c
    ensures c * a <= c * b
  {
    assert (b - a) * c >= 0;
    assert b * c - a * c == (b - a) * c;
  }

  lemma {:induction false} DivMonotone(a: nat, b: nat, n: nat)
    requires n > 0 && a <= b
    ensures a / n <= b / n
  {
    DivMod(a, n);
    DivMod(b, n);
    MulAtLeast(a / n - b / n, n);
  }

  /** Less than one lap past the end, a remainder is a single subtraction. */
  lemma {:induction false} WrapIndex(i: nat, n: nat)
    requires 0 < n && i < 2 * n
    ensures i % n == if i < n then i else i - n
  {
    DivModUnique(i, n, if i < n then 0 else 1, if i < n then i else i - n);
  }

  /** `f` whole shares and `r` parts of a share make up `t` shares of `g` parts, from fewer than
      `g` parts a row: then fewer shares are missing than there are rows. */
  lemma {:induction false} MissingShares(g: nat, f: nat, t: nat, r: nat, n: nat)
    requires g > 0 && f <= t && n > 0
    requires g * f + r == g * t && r <= (g - 1) * n
    ensures g * (t - f) == r && t - f < n
  {
    assert g * (t - f) == g * t - g * f;
    assert (g - 1) * n == g * n - n;
    MulAtLeast(t - f - n, g);
    assert (t - f - n) * g == g * (t - f) - g * n;
  }

  lemma {:induction false} SharesAtMost(g: nat, f: nat, t: nat)
    requires g > 0 && g * f <= g * t
    ensures f <= t
  {
    MulAtLeast(f - t, g);
    assert (f - t) * g == g * f - g * t;
  }

  /** Rounding a part of `a` of at most the whole up does not exceed `a`. */
  lemma {:induction false} RoundedPart(g: nat, net: nat, a: nat, t: nat)
    requires t <= g && g * net < a * t + g
    ensures net <= a
  {
    MulMonotone(t, g, a);
    MulAtLeast(net - a, g);
    assert (net - a) * g == g * net - a * g;
  }
}
