/** Facts about products and floor division that the limiter's bounds rest on. */
module Arith {

  lemma MulMono(a: nat, x: int, y: int)
    requires x <= y
    ensures a * x <= a * y
    ensures x * a <= y * a
  {
  }

  /** The quotient is the only integer whose multiple brackets x. */
  lemma DivUnique(x: nat, d: nat, q: nat)
    requires d > 0 && q * d <= x < q * d + d
    ensures x / d == q
  {
    var k := x / d;
    if k < q {
      MulMono(d, k + 1, q);
    } else if q < k {
      MulMono(d, q + 1, k);
    }
  }

  lemma DivBracket(x: nat, d: nat)
    requires d > 0
    ensures (x / d) * d <= x < (x / d) * d + d
  {
  }

  /** k multiples of d fit into x exactly when k is at most the quotient. */
  lemma FitsIffAtMostQuotient(k: nat, x: nat, d: nat)
    requires d > 0
    ensures k <= x / d <==> k * d <= x
  {
    DivBracket(x, d);
    if k <= x / d {
      MulMono(d, k, x / d);
    } else {
      MulMono(d, x / d + 1, k);
    }
  }

  /** Whole units of d in x. */
  function Whole(x: nat, d: nat): (q: nat)
    requires d > 0
    ensures q * d <= x < q * d + d
  {
    DivBracket(x, d);
    x / d
  }

  function RoundUp(x: nat, y: nat): (r: nat)
    requires y > 0
    ensures x <= r < x + y
  {
    DivBracket(x + (y - 1), y);
    ((x + (y - 1)) / y) * y
  }

  /** A product kept to `width`, divided by hz: never more than the exact quotient. */
  function Quota(x: nat, width: nat, hz: nat): (r: nat)
    requires width > 0 && hz > 0
    ensures r * hz <= x
    ensures r * hz < width
    ensures x < width ==> x < r * hz + hz
  {
    ModLe(x, width);
    var y := x % width;
    DivBracket(y, hz);
    y / hz
  }

  lemma QuotaFits(k: nat, x: nat, width: nat, hz: nat)
    requires width > 0 && hz > 0 && k <= Quota(x, width, hz)
    ensures k * hz <= x && k * hz < width
  {
    MulMono(hz, k, Quota(x, width, hz));
  }

  lemma QuotaIff(k: nat, x: nat, width: nat, hz: nat)
    requires hz > 0 && x < width
    ensures k <= Quota(x, width, hz) <==> k * hz <= x
  {
    ModLe(x, width);
    FitsIffAtMostQuotient(k, x, hz);
  }

  lemma LargestMod(n: nat, width: nat)
    requires 1 <= n < width
    ensures ((width - 1) * n) % width == width - n
  {
    var x := (width - 1) * n;
    assert x == (n - 1) * width + (width - n);
    DivUnique(x, width, n - 1);
  }

  /** The largest value of a width, times n, wraps to n below the width. */
  lemma QuotaOfLargest(k: nat, n: nat, width: nat, hz: nat)
    requires hz > 0 && 1 <= n < width && k * hz + n <= width
    ensures k <= Quota((width - 1) * n, width, hz)
  {
    LargestMod(n, width);
    FitsIffAtMostQuotient(k, width - n, hz);
  }

  /**
   A deficit of need - allowed, converted to time at `rate` and rounded down,
   leaves less than one unit of time unpaid.
   */
  lemma DeficitWait(need: nat, allowed: nat, rate: nat, hz: nat, rnd: nat, width: nat, later: nat)
    requires rate > 0 && hz > 0 && allowed <= need
    requires allowed * hz <= rate * rnd && need * hz < width
    requires (need - allowed) * hz < width
    requires later >= rnd + Quota((need - allowed) * hz, width, rate)
    ensures need * hz <= rate * (later + 1)
  {
    var wait := Quota((need - allowed) * hz, width, rate);
    assert need * hz == (need - allowed) * hz + allowed * hz;
    assert rate * (rnd + wait + 1) == rate * rnd + wait * rate + rate;
    MulMono(rate, rnd + wait + 1, later + 1);
  }

  lemma ModLe(x: nat, width: nat)
    requires width > 0
    ensures x % width <= x && x % width < width
    ensures x < width ==> x % width == x
  {
    DivBracket(x, width);
    MulMono(width, 0, x / width);
    if x < width {
      DivUnique(x, width, 0);
    }
  }

  lemma RoundUpSelf(y: nat)
    requires y > 0
    ensures RoundUp(y, y) == y
  {
    DivUnique(y + (y - 1), y, 1);
  }

  lemma RoundUpMono(x: nat, x': nat, y: nat)
    requires y > 0 && x <= x'
    ensures RoundUp(x, y) <= RoundUp(x', y)
  {
    DivBracket(x + (y - 1), y);
    FitsIffAtMostQuotient((x + (y - 1)) / y, x' + (y - 1), y);
    MulMono(y, (x + (y - 1)) / y, (x' + (y - 1)) / y);
  }
}
