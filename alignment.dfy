/** Rounding to multiples, shared by the ring buffer and the constant-buffer sizes. */
module Alignment {
  /** Euclidean division is unique: the quotient and remainder are determined. */
  lemma DivModUnique(x: int, a: int, q: int, m: int)
    requires a > 0 && 0 <= m < a && x == q * a + m
    ensures x / a == q && x % a == m
  {
    var q', m' := x / a, x % a;
    assert x == q' * a + m';
    if q' < q {
      assert (q - q') * a == m' - m;
      MulAtLeast(q - q', a);
    } else if q < q' {
      assert (q' - q) * a == m - m';
      MulAtLeast(q' - q, a);
    }
  }

  lemma DivIsNat(x: nat, a: nat)
    requires a > 0
    ensures x / a >= 0
  {
  }

  lemma MulAtLeast(k: int, a: int)
    requires k >= 1 && a > 0
    ensures k * a >= a
  {
  }

  /** `if (padding = x % a) x += a - padding`: `x` rounded up to a multiple of `a`. */
  function RoundUp(x: nat, a: nat): (r: nat)
    requires a > 0
    ensures r % a == 0 && x <= r < x + a
  {
    var padding := x % a;
    if padding != 0 then
      DivModUnique(x + (a - padding), a, x / a + 1, 0);
      x + (a - padding)
    else x
  }

  /** `(x + 0xf) & ~0xf`: clearing the low four bits is rounding down to a multiple of 16. */
  function Align16(x: nat): (r: nat)
    ensures r % 16 == 0 && x <= r < x + 16
  {
    (x + 15) / 16 * 16
  }

  /** `x & ~0xf`. */
  function Floor16(x: nat): (r: nat)
    ensures r % 16 == 0 && r <= x < r + 16
  {
    x / 16 * 16
  }

  /** There is exactly one multiple of 16 in `[x, x + 16)`. */
  lemma RoundUp16IsAlign16(x: nat)
    ensures RoundUp(x, 16) == Align16(x)
  {
    var a, b := RoundUp(x, 16), Align16(x);
    assert a == a / 16 * 16 && b == b / 16 * 16;
  }

  lemma Align16Shift(a: nat, x: nat)
    requires a % 16 == 0
    ensures Align16(a + x) == a + Align16(x)
  {
    assert a == a / 16 * 16;
  }

  /** Distinct multiples of 16 are at least 16 apart. */
  lemma Apart16(a: nat, b: nat)
    requires a % 16 == 0 && b % 16 == 0 && a < b
    ensures a + 16 <= b
  {
    var qa, qb := a / 16, b / 16;
    assert a == qa * 16 && b == qb * 16;
  }

  lemma ModAdd(a: nat, d: nat, k: nat, n: nat)
    requires n > 0
    ensures ((a + d) % n + k) % n == (a + d + k) % n
  {
    var y := (a + d) % n + k;
    DivModUnique(a + d + k, n, (a + d) / n + y / n, y % n);
  }

}
