// Non-linear facts, kept apart so that no other proof has to reason about products.
module Arithmetic {

  // An error of at most half in a quotient is at most half a divisor in the product.
  lemma HalfDivisor(p: real, t: real, n: real)
    requires t > 0.0 && -0.5 <= p / t - n <= 0.5
    ensures -t <= 2.0 * (p - n * t) <= t
  {
    var d := p / t - n;
    assert d * t == p - n * t by {
      assert p / t * t == p;
    }
    assert -0.5 * t <= d * t <= 0.5 * t;
  }

  lemma MultipleApart(k: int, tick: int)
    requires tick > 0
    ensures k >= 1 ==> k * tick >= tick
    ensures k <= -1 ==> k * tick <= -tick
  {
  }

  lemma MultipleModulo(n: int, tick: int)
    requires tick > 0
    ensures (n * tick) % tick == 0
  {
    var p := n * tick;
    var q, r := p / tick, p % tick;
    assert p == q * tick + r;
    assert r == (n - q) * tick;
    MultipleApart(n - q, tick);
  }

  lemma MultipleSum(a: int, b: int, tick: int)
    requires tick > 0 && a % tick == 0 && b % tick == 0
    ensures (a + b) % tick == 0 && (a - b) % tick == 0
  {
    var p, q := a / tick, b / tick;
    assert a + b == (p + q) * tick && a - b == (p - q) * tick;
    MultipleModulo(p + q, tick);
    MultipleModulo(p - q, tick);
  }

  lemma ProductMonotone(d: int, x: int, y: int)
    requires d >= 0 && x <= y
    ensures d * x <= d * y
  {
  }

  lemma ProductApart(d: int, x: int, y: int)
    requires d > 0 && x > y
    ensures d * x >= d * y + d
  {
    ProductMonotone(d, y + 1, x);
    assert d * (y + 1) == d * y + d;
  }

  lemma QuotientMonotone(a: int, b: int, d: int)
    requires d > 0 && 0 <= a <= b
    ensures 0 <= a / d <= b / d
  {
    var x, y := a / d, b / d;
    assert d * x <= a && b < d * y + d;
    if x > y {
      ProductApart(d, x, y);
    }
  }

  // Products of whole numbers are the same in the reals.
  lemma RealProduct(a: int, b: int)
    ensures a as real * b as real == (a * b) as real
  {
  }

  lemma RealProductTimes(a: int, b: int, unit: real)
    requires unit == 1.0
    ensures a as real * b as real * unit == (a * b) as real
  {
    RealProduct(a, b);
    var product := a as real * b as real;
    assert product * unit == product;
  }

  // A share of a whole, scaled and off by at most half, is off by at most half the whole.
  lemma ScaledShare(part: int, whole: int, scale: int, n: int)
    requires whole > 0 && -0.5 <= part as real / whole as real * scale as real - n as real <= 0.5
    ensures -whole <= 2 * (part * scale - n * whole) <= whole
  {
    ShareTimes(part as real, whole as real, scale as real);
    HalfDivisor(part as real * scale as real, whole as real, n as real);
    RealProduct(part, scale);
    RealProduct(n, whole);
  }

  lemma ShareTimes(part: real, whole: real, scale: real)
    requires whole > 0.0
    ensures part / whole * scale == part * scale / whole
  {
    var share := part / whole;
    assert share * whole == part;
    assert share * scale * whole == part * scale;
  }

  // A stop locked `idx` steps on, where the best price has bought one step more, is between
  // the entry and a step short of the best.
  lemma StepsBehind(step: int, best: int, idx: int)
    requires step > 0 && 0 <= idx <= best / step - 1
    ensures 0 <= step * idx <= best - step
  {
    var q := best / step;
    ProductMonotone(step, 0, idx);
    ProductMonotone(step, idx + 1, q);
    assert step * q <= best;
    assert step * (idx + 1) == step * idx + step;
  }

  // What is left of a total after one more share of at most `worst`.
  lemma OneLess(n: int, worst: int, total: int)
    requires n >= 1 && worst >= 0 && total <= n * worst
    ensures total - worst <= (n - 1) * worst && 0 <= (n - 1) * worst
  {
    assert n * worst == (n - 1) * worst + worst;
    ProductMonotone(worst, 0, n - 1);
  }

  // Two prices on the grid, one above the other, are at least a tick apart.
  lemma GridApart(high: int, low: int, tick: int)
    requires tick > 0 && high % tick == 0 && low % tick == 0 && low < high
    ensures low + tick <= high
  {
    var p, q := high / tick, low / tick;
    assert high - low == (p - q) * tick;
    MultipleApart(p - q, tick);
  }

  // Dividing a multiple gives the multiplier back.
  lemma MultipleQuotient(n: int, unit: int)
    requires n >= 1 && unit > 0
    ensures n * unit > 0 && (n * unit) % unit == 0 && n * unit / unit == n
  {
    MultipleModulo(n, unit);
    ProductMonotone(unit, 1, n);
    var q := n * unit / unit;
    assert n * unit == q * unit;
    assert (n - q) * unit == 0;
    MultipleApart(n - q, unit);
  }
}
