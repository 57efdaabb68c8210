// Python's built-in `round`: to the nearest integer, ties to the even neighbour.
// Amounts are counted in paise, so `round(x, 2)` on rupees is `Round` on paise.
module Rounding {

  function Round(x: real): int {
    var below := x.Floor;
    var excess := x - below as real;
    if excess < 0.5 then below
    else if excess > 0.5 then below + 1
    else if below % 2 == 0 then below
    else below + 1
  }

  // What "round half to even" means, without saying how it is computed.
  ghost predicate IsHalfEven(x: real, n: int) {
    var excess := x - n as real;
    || -0.5 < excess < 0.5
    || ((excess == 0.5 || excess == -0.5) && n % 2 == 0)
  }

  // True when the two neighbouring integers are equally near.
  ghost predicate IsTie(x: real) {
    x - x.Floor as real == 0.5
  }

  lemma RoundIsHalfEven(x: real, n: int)
    ensures IsHalfEven(x, n) <==> n == Round(x)
  {
  }

  lemma RoundOdd(x: real)
    ensures Round(-x) == -Round(x)
  {
    RoundIsHalfEven(x, Round(x));
    RoundIsHalfEven(-x, -Round(x));
  }

  lemma RoundExact(n: int)
    ensures Round(n as real) == n
  {
  }

  lemma RoundIs(x: real, n: int)
    requires x == n as real
    ensures Round(x) == n
  {
  }

  lemma RoundNearest(x: real)
    ensures -0.5 <= x - Round(x) as real <= 0.5
  {
  }

  // Moving an integer across a rounding costs at most one, and only on a tie.
  lemma RoundShift(n: int, x: real)
    ensures !IsTie(x) ==> Round(n as real + x) == n + Round(x) && Round(n as real - x) == n - Round(x)
    ensures x.Floor + n <= Round(n as real + x) <= x.Floor + n + 1
    ensures n - x.Floor - 1 <= Round(n as real - x) <= n - x.Floor
  {
    if !IsTie(x) {
      RoundIsHalfEven(n as real + x, n + Round(x));
      RoundIsHalfEven(n as real - x, n - Round(x));
    }
  }
}
