/** The four build sizes and how they scale a structure's base extents. */
module BuildSizes {
  import opened JavaInt

  datatype BuildSize = Small | Medium | Large | ExtraLarge

  /** The sizes in declaration order. */
  const AllSizes: seq<BuildSize> := [Small, Medium, Large, ExtraLarge]

  /** The scale factor in halves: 0.5, 1.0, 1.5 and 2.0 are 1/2, 2/2, 3/2 and 4/2.
      All four are exact in binary floating point, and so is their product with
      any small integer, so truncating `n * scale` is truncating `n * k / 2`. */
  function Halves(s: BuildSize): (k: int)
    ensures 1 <= k <= 4
  {
    match s
    case Small => 1
    case Medium => 2
    case Large => 3
    case ExtraLarge => 4
  }

  /** `(int)(n * scale)` for a non-negative base extent `n`: the largest integer not above `n * scale`. */
  function Scaled(n: nat, s: BuildSize): nat
  {
    match s
    case Small => n / 2
    case Medium => n
    case Large => (3 * n) / 2
    case ExtraLarge => 2 * n
  }

  /** `Scaled` is `n * scale` truncated: the largest integer whose double does not
      exceed `n * k`. */
  lemma ScaledTruncates(n: nat, s: BuildSize)
    ensures 2 * Scaled(n, s) <= n * Halves(s) < 2 * Scaled(n, s) + 2
  {
  }

  /** `(int)(n * scale)` for any `n`: the cast truncates toward zero, so a negative
      extent scales to the negation of its magnitude's scaled value. */
  function ScaledSigned(n: int, s: BuildSize): int
  {
    if n >= 0 then Scaled(n, s) else -(Scaled(-n, s) as int)
  }

  /** `ScaledSigned` is Java's truncating division of `n * k` by 2; its magnitude is the
      floor of the product's magnitude, and it never has the opposite sign of `n`. */
  lemma ScaledSignedTruncates(n: int, s: BuildSize)
    ensures ScaledSigned(n, s) == JavaDiv(n * Halves(s), 2)
    ensures var r := ScaledSigned(n, s);
      Abs(2 * r) <= Abs(n * Halves(s)) < Abs(2 * r) + 2 && (r == 0 || (r < 0 <==> n < 0))
  {
    var k := Halves(s);
    if n < 0 {
      JavaDivNegate(-n * k, 2);
      assert n * k == -((-n) * k);
    }
  }

  lemma FourSizes()
    ensures |AllSizes| == 4
    ensures forall s: BuildSize :: s in AllSizes
    ensures forall i, j :: 0 <= i < j < |AllSizes| ==> AllSizes[i] != AllSizes[j]
  {
    forall s: BuildSize ensures s in AllSizes {
      match s
      case Small => case Medium => case Large => case ExtraLarge =>
    }
  }

  /** Scales strictly increase in declaration order. */
  lemma ScalesIncrease(i: int, j: int)
    requires 0 <= i < j < |AllSizes|
    ensures Halves(AllSizes[i]) < Halves(AllSizes[j])
  {
  }

  /** Scaling is monotone in the size: a larger size never yields a smaller extent. */
  lemma ScaledMonotone(n: nat, s: BuildSize, t: BuildSize)
    requires Halves(s) <= Halves(t)
    ensures Scaled(n, s) <= Scaled(n, t)
  {
    assert n * Halves(s) <= n * Halves(t) by {
      var d := Halves(t) - Halves(s);
      assert n * Halves(t) == n * Halves(s) + n * d;
    }
  }

  /** At Medium the scale is 1, so every extent keeps its base value. */
  lemma MediumIsIdentity(n: nat)
    ensures Scaled(n, Medium) == n
  {
  }
}
