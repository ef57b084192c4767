/**
 * The JavaScript number operations the source applies to integers, written out because
 * Dafny's `/` and `%` are Euclidean: `Math.floor(a / b)`, `Math.ceil(a / b)` and the
 * truncating remainder `a % b`.
 */
module JsMath {

  /** `Math.floor(a / b)` for a positive divisor. */
  function Floor(a: int, b: int): int
    requires b > 0
  {
    a / b
  }

  /** `Math.ceil(a / b)` for a positive divisor. */
  function Ceil(a: int, b: int): int
    requires b > 0
  {
    -((-a) / b)
  }

  /** JavaScript's `a % b`: the remainder takes the sign of the dividend. */
  function Rem(a: int, b: int): int
    requires b > 0
  {
    if a >= 0 then a % b else -((-a) % b)
  }

  /** `Math.ceil(a / b)` is the least multiple count of `b` that reaches `a`. */
  lemma CeilIsLeastCover(a: int, b: int)
    requires b > 0
    ensures (Ceil(a, b) - 1) * b < a <= Ceil(a, b) * b
  {
    var q := (-a) / b;
    var m := (-a) % b;
    assert -a == q * b + m && 0 <= m < b;
    assert Ceil(a, b) * b == -(q * b);
    assert (Ceil(a, b) - 1) * b == -(q * b) - b;
  }

  /** `Math.floor(a / b)` is the greatest multiple count of `b` not above `a`. */
  lemma FloorIsGreatestBelow(a: int, b: int)
    requires b > 0
    ensures Floor(a, b) * b <= a < (Floor(a, b) + 1) * b
  {
    assert a == (a / b) * b + a % b;
    assert (Floor(a, b) + 1) * b == (a / b) * b + b;
  }

  /** For a non-negative dividend, floor and remainder split it exactly, with `0 <= rem < b`. */
  lemma SplitNonNegative(a: int, b: int)
    requires a >= 0 && b > 0
    ensures Floor(a, b) * b + Rem(a, b) == a && 0 <= Rem(a, b) < b && Floor(a, b) >= 0
  {
    assert a == (a / b) * b + a % b;
  }
}
