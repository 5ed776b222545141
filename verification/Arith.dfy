/** Division facts used where a counter or a packed word is taken modulo a variable. */
module Arith {

  lemma {:induction false} AddDivisor(x: nat, d: nat)
    requires 0 < d
    ensures (x + d) / d == x / d + 1
    ensures (x + d) % d == x % d
  {
    var k := (x + d) / d - x / d;
    assert k * d == d + x % d - (x + d) % d;
    assert k >= 2 ==> k * d >= 2 * d;
    assert k <= 0 ==> k * d <= 0;
  }

  lemma {:induction false} DivMod(q: nat, d: nat, r: nat)
    requires r < d
    ensures (q * d + r) / d == q
    ensures (q * d + r) % d == r
  {
    if q > 0 {
      DivMod(q - 1, d, r);
      assert q * d + r == ((q - 1) * d + r) + d;
      var x := (q - 1) * d + r;
      AddDivisor(x, d);
    }
  }

  lemma DivModOf(n: nat, q: nat, d: nat, r: nat)
    requires n == q * d + r && r < d
    ensures n / d == q && n % d == r
  {
    DivMod(q, d, r);
  }

  lemma {:induction false} AddMultiple(q: nat, d: nat, x: nat)
    requires 0 < d
    ensures (q * d + x) % d == x % d
  {
    if q > 0 {
      AddMultiple(q - 1, d, x);
      assert q * d + x == ((q - 1) * d + x) + d;
      var y := (q - 1) * d + x;
      AddDivisor(y, d);
    }
  }

  /** Taking the remainder on the way makes no difference. */
  lemma ModTwice(a: nat, k: nat, d: nat)
    requires 0 < d
    ensures (a % d + k) % d == (a + k) % d
  {
    var q, r := a / d, a % d;
    Parts(a, d);
    AddMultiple(q, d, r + k);
  }

  lemma Parts(n: nat, d: nat)
    requires 0 < d
    ensures n == n / d * d + n % d
  {
  }

  lemma Distribute(p: nat, q: nat, d: nat)
    ensures (p + q) * d == p * d + q * d
  {
  }

  lemma MulMonotone(x: nat, y: nat, k: nat)
    requires x <= y
    ensures x * k <= y * k
  {
  }

  lemma DivMonotone(x: nat, y: nat, d: nat)
    requires 0 < d && x <= y
    ensures x / d <= y / d
  {
    var p, q := x / d, y / d;
    assert p > q ==> p * d >= (q + 1) * d;
  }

  /** Linear interpolation, rounded down, is monotone and stays within its range. */
  lemma Interpolation(x: nat, y: nat, range: nat, span: nat)
    requires 0 < span && x <= y <= span
    ensures 0 <= x * range / span <= y * range / span <= range
  {
    MulMonotone(x, y, range);
    MulMonotone(y, span, range);
    Shares(x * range, y * range, range, span);
  }

  lemma Shares(p: nat, q: nat, range: nat, span: nat)
    requires 0 < span && p <= q <= span * range
    ensures 0 <= p / span <= q / span <= range
  {
    var r := span * range;
    DivMonotone(p, q, span);
    DivMonotone(q, r, span);
    DivModOf(r, range, span, 0);
  }
}
