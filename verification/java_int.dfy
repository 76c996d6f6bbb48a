/** Java's integer division and remainder on `int`, which truncate toward zero.
    Dafny's own `/` and `%` are Euclidean, so the two disagree on negative dividends. */
module JavaInt {

  function Abs(a: int): (r: nat)
    ensures r == a || r == -a
  {
    if a < 0 then -a else a
  }

  function NatDiv(n: nat, d: nat): (q: nat)
    requires d > 0
    ensures q == n / d
  {
    n / d
  }

  /** Java `a / b`: the quotient rounded toward zero. */
  function JavaDiv(a: int, b: int): (q: int)
    requires b != 0
    ensures Abs(q) == Abs(a) / Abs(b)
    ensures (a > 0) == (b > 0) ==> q >= 0
    ensures (a > 0) != (b > 0) ==> q <= 0
  {
    var m: int := NatDiv(Abs(a), Abs(b));
    if (a >= 0) == (b > 0) then m else -m
  }

  /** Java `a % b`: the remainder that goes with `JavaDiv`, carrying the sign of `a`. */
  function JavaRem(a: int, b: int): (r: int)
    requires b != 0
    ensures a == b * JavaDiv(a, b) + r
    ensures Abs(r) < Abs(b)
    ensures r == 0 || (r > 0 <==> a > 0)
  {
    a - b * JavaDiv(a, b)
  }

  /** Truncation toward zero is symmetric: `(-a) / b == -(a / b)` in Java for every `a`. */
  lemma JavaDivNegate(a: int, b: int)
    requires b != 0
    ensures JavaDiv(-a, b) == -JavaDiv(a, b)
  {
  }

  /** On non-negative operands Java and Dafny division agree. */
  lemma JavaDivNonNegative(a: int, b: int)
    requires a >= 0 && b > 0
    ensures JavaDiv(a, b) == a / b && JavaRem(a, b) == a % b
  {
  }
}
