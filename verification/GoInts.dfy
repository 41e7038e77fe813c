/**
 * Integer arithmetic of the source language.  Division and remainder truncate toward zero
 * there; the operators of this language are Euclidean, so the signed cases are written out.
 */
module GoInts {

  function Abs(x: int): nat {
    if x < 0 then -x else x
  }

  /** Division truncating toward zero. */
  function Quot(x: int, d: int): int
    requires d != 0
  {
    if (x < 0) == (d < 0) then Abs(x) / Abs(d) else -(Abs(x) / Abs(d))
  }

  /** Remainder with the sign of the dividend. */
  function Rem(x: int, d: int): int
    requires d != 0
  {
    if x < 0 then -(Abs(x) % Abs(d)) else Abs(x) % Abs(d)
  }

  function Min(x: int, y: int): int {
    if x <= y then x else y
  }

  function Max(x: int, y: int): int {
    if x >= y then x else y
  }

  lemma MulAtLeast(d: int, k: int)
    requires d > 0
    ensures k >= 1 ==> d * k >= d
    ensures k <= -1 ==> d * k <= -d
  {
    if k >= 1 {
      assert d * k == d * (k - 1) + d;
      assert d * (k - 1) >= 0;
    } else if k <= -1 {
      assert d * k == d * (k + 1) - d;
      assert d * (k + 1) <= 0;
    }
  }

  /** Quotient and remainder are the only way to write x as a multiple of d plus a residue. */
  lemma DivMod(x: int, d: int, q: int, r: int)
    requires d > 0 && 0 <= r < d && x == d * q + r
    ensures x / d == q && x % d == r
  {
    var q', r' := x / d, x % d;
    assert x == d * q' + r';
    assert d * (q - q') == d * q - d * q';
    MulAtLeast(d, q - q');
  }

  /** Adding a multiple of the divisor does not change the remainder. */
  lemma ModPlusMultiple(x: int, d: int, k: int)
    requires d > 0
    ensures (x + d * k) % d == x % d
    ensures (x + d * k) / d == x / d + k
  {
    assert x + d * k == d * (x / d + k) + x % d;
    DivMod(x + d * k, d, x / d + k, x % d);
  }

  lemma ModSmall(x: int, d: int)
    requires 0 <= x < d
    ensures x % d == x && x / d == 0
  {
    DivMod(x, d, 0, x);
  }

  /** Fewer than d consecutive integers have pairwise different remainders. */
  lemma ModInjective(x: int, y: int, d: int)
    requires d > 0 && x < y < x + d
    ensures x % d != y % d
  {
    if x % d == y % d {
      assert y - x == d * (y / d) - d * (x / d);
      assert y - x == d * (y / d - x / d);
      MulAtLeast(d, y / d - x / d);
    }
  }

  lemma DivAtLeastOne(x: int, d: int)
    requires d > 0
    ensures x / d >= 1 <==> x >= d
  {
    assert x == d * (x / d) + x % d;
    MulAtLeast(d, x / d);
    if x / d <= 0 {
      assert d * (x / d) <= 0;
    }
  }

  /** Quotient and remainder of the successor. */
  lemma NextDivMod(x: int, d: int)
    requires d > 0
    ensures x % d == d - 1 ==> (x + 1) / d == x / d + 1 && (x + 1) % d == 0
    ensures x % d != d - 1 ==> (x + 1) / d == x / d && (x + 1) % d == x % d + 1
  {
    var q, r := x / d, x % d;
    assert x == d * q + r;
    if r == d - 1 {
      assert d * (q + 1) == d * q + d;
      DivMod(x + 1, d, q + 1, 0);
    } else {
      DivMod(x + 1, d, q, r + 1);
    }
  }
}
