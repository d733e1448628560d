/** Integer micro-USD as JavaScript numbers hold them, and `Math.round`. */
module Money {
  const MAX_SAFE_INTEGER: int := 0x1F_FFFF_FFFF_FFFF

  /** `Number.isSafeInteger` */
  predicate IsSafeInteger(v: int) {
    -MAX_SAFE_INTEGER <= v <= MAX_SAFE_INTEGER
  }

  function Abs(v: int): nat {
    if v < 0 then -v else v
  }

  /** `Math.round`: to the nearest integer, halves upwards. */
  function JsRound(x: real): int {
    (x + 0.5).Floor
  }

  function Min(a: int, b: int): int {
    if a < b then a else b
  }

  function Max(a: int, b: int): int {
    if a < b then b else a
  }

  lemma {:induction false} RoundMonotone(x: real, y: real)
    requires x <= y
    ensures JsRound(x) <= JsRound(y)
  {
  }

  /** A square root is characterised rather than computed. */
  ghost predicate IsSquareRoot(sqrt: real -> real) {
    forall x :: x >= 0.0 ==> sqrt(x) >= 0.0 && sqrt(x) * sqrt(x) == x
  }

  lemma {:induction false} PositiveProduct(a: real, b: real)
    requires a > 0.0 && b > 0.0
    ensures a * b > 0.0
  {
  }

  lemma {:induction false} SquareGrows(s: real, r: real)
    requires 0.0 <= s < r
    ensures s * s < r * r
  {
    PositiveProduct(r - s, r + s);
    assert r * r == s * s + (r - s) * (r + s);
  }

  lemma {:induction false} SquareRootMonotone(sqrt: real -> real, x: real, y: real)
    requires IsSquareRoot(sqrt) && 0.0 <= x <= y
    ensures 0.0 <= sqrt(x) <= sqrt(y)
  {
    if sqrt(x) > sqrt(y) {
      SquareGrows(sqrt(y), sqrt(x));
    }
  }
}
