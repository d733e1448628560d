/** The Wilson score interval (wilsonInterval in web/lib/attribution.ts), over the reals. */
module Wilson {
  import opened Money

  datatype Interval = Interval(lo: real, hi: real, p: real)

  function AtLeast(bound: real, x: real): real {
    if x < bound then bound else x
  }

  function NoMoreThan(bound: real, x: real): real {
    if x > bound then bound else x
  }

  function Centre(p: real, n: real, z: real): real
    requires n > 0.0
  {
    Denominator(n, z);
    (p + z * z / (2.0 * n)) / (1.0 + z * z / n)
  }

  function Half(p: real, n: real, z: real, sqrt: real -> real): real
    requires n > 0.0
  {
    Denominator(n, z);
    z * sqrt(p * (1.0 - p) / n + z * z / (4.0 * n * n)) / (1.0 + z * z / n)
  }

  lemma {:induction false} Denominator(n: real, z: real)
    requires n > 0.0
    ensures z * z / n >= 0.0 && 1.0 + z * z / n > 0.0 && 2.0 * n > 0.0 && 4.0 * n * n > 0.0
  {
    Squared(z);
    PositiveProduct(4.0 * n, n);
    Quotient(z * z, n);
  }

  lemma {:induction false} ProductIsPositive(x: real, y: real, product: real)
    requires x > 0.0 && y > 0.0 && product == x * y
    ensures product > 0.0
  {
    PositiveProduct(x, y);
  }

  lemma {:induction false} Squared(x: real)
    ensures x * x >= 0.0
  {
  }

  lemma {:induction false} Quotient(a: real, b: real)
    requires a >= 0.0 && b > 0.0
    ensures a / b >= 0.0
  {
  }

  function WilsonInterval(successes: int, trials: int, z: real, sqrt: real -> real): Interval {
    if trials <= 0 then Interval(0.0, 0.0, 0.0)
    else
      var n := trials as real;
      var p := successes as real / n;
      var centre, half := Centre(p, n, z), Half(p, n, z, sqrt);
      Interval(AtLeast(0.0, centre - half), NoMoreThan(1.0, centre + half), p)
  }

  // ---- The quadratic behind it ----

  /** Everything scaled by the denominator `d = 1 + a`, where `a` is z squared over n. `h` is known by
      its square. */
  ghost predicate Scaled(p: real, a: real, c: real, h: real) {
    && 0.0 <= p <= 1.0 && a >= 0.0
    && c == p + a / 2.0
    && h * h == a * (p * (1.0 - p)) + a * a / 4.0
  }

  lemma {:induction false} ProductNotNegative(x: real, y: real)
    requires x >= 0.0 && y >= 0.0
    ensures x * y >= 0.0
  {
  }

  /** Completing the square. */
  lemma {:induction false} CompletedSquare(p: real, a: real, d: real, c: real, h: real, x: real)
    requires d == 1.0 + a && Scaled(p, a, c, h)
    ensures (d * x - c) * (d * x - c) - h * h == d * ((p - x) * (p - x) - a * (x * (1.0 - x)))
  {
    calc {
      (d * x - c) * (d * x - c) - h * h;
      d * d * (x * x) - 2.0 * c * (d * x) + (c * c - h * h);
      { assert c * c - h * h == d * (p * p) by { SquaresDiffer(p, a, d, c, h); } }
      d * d * (x * x) - (2.0 * p + a) * (d * x) + d * (p * p);
      d * (d * (x * x) - (2.0 * p + a) * x + p * p);
      { assert d * (x * x) - (2.0 * p + a) * x + p * p == (p - x) * (p - x) - a * (x * (1.0 - x)); }
      d * ((p - x) * (p - x) - a * (x * (1.0 - x)));
    }
  }

  lemma {:induction false} SquaresDiffer(p: real, a: real, d: real, c: real, h: real)
    requires d == 1.0 + a && Scaled(p, a, c, h)
    ensures c * c - h * h == d * (p * p)
  {
    assert c * c == p * p + p * a + a * a / 4.0;
    assert a * (p * (1.0 - p)) == a * p - a * (p * p);
  }

  lemma {:induction false} WithinRoot(x: real, h: real)
    requires h >= 0.0 && x * x <= h * h
    ensures -h <= x <= h
  {
    if x > h {
      SquareGrows(h, x);
    } else if x < -h {
      SquareGrows(h, -x);
    }
  }

  lemma {:induction false} RootOrOpposite(x: real, h: real)
    ensures x * x == h * h <==> x == h || x == -h
  {
    assert x * x - h * h == (x - h) * (x + h);
    if x * x == h * h {
      NoZeroDivisors(x - h, x + h);
    }
  }

  lemma {:induction false} NoZeroDivisors(x: real, y: real)
    requires x * y == 0.0
    ensures x == 0.0 || y == 0.0
  {
  }

  /** The scaled ends are within the scaled unit interval and around the scaled rate. */
  lemma {:induction false} ScaledEnds(p: real, a: real, d: real, dp: real, c: real, h: real)
    requires d == 1.0 + a && dp == d * p && Scaled(p, a, c, h) && h >= 0.0
    ensures 0.0 <= c - h <= dp <= c + h <= d
  {
    ProductNotNegative(p, 1.0 - p);
    ProductNotNegative(a, p * (1.0 - p));
    ProductNotNegative(d, a * (p * (1.0 - p)));
    ProductNotNegative(p, p);
    ProductNotNegative(d, p * p);
    ProductNotNegative(1.0 - p, 1.0 - p);
    ProductNotNegative(d, (1.0 - p) * (1.0 - p));
    CompletedSquare(p, a, d, c, h, 0.0);
    CompletedSquare(p, a, d, c, h, 1.0);
    CompletedSquare(p, a, d, c, h, p);
    AtEnds(p, a, d, c, h);
  }

  lemma {:induction false} AtEnds(p: real, a: real, d: real, c: real, h: real)
    requires d == 1.0 + a && Scaled(p, a, c, h) && h >= 0.0
    requires
      && (d * 0.0 - c) * (d * 0.0 - c) - h * h == d * ((p - 0.0) * (p - 0.0) - a * (0.0 * (1.0 - 0.0)))
      && (d * 1.0 - c) * (d * 1.0 - c) - h * h == d * ((p - 1.0) * (p - 1.0) - a * (1.0 * (1.0 - 1.0)))
      && (d * p - c) * (d * p - c) - h * h == d * ((p - p) * (p - p) - a * (p * (1.0 - p)))
      && d * (p * p) >= 0.0 && d * ((1.0 - p) * (1.0 - p)) >= 0.0 && d * (a * (p * (1.0 - p))) >= 0.0
    ensures 0.0 <= c - h <= d * p <= c + h <= d
  {
    WithinRoot(d * p - c, h);
    assert h * h <= c * c;
    WithinRoot(h, c);
    assert (d - c) * (d - c) - h * h == d * ((1.0 - p) * (1.0 - p));
    assert d - c >= 0.0;
    WithinRoot(h, d - c);
  }

  lemma {:induction false} TimesQuotient(x: real, d: real)
    requires d > 0.0
    ensures d * (x / d) == x
  {
  }

  lemma {:induction false} Descale(x: real, y: real, d: real)
    requires d > 0.0 && d * x <= d * y
    ensures x <= y
  {
    if x > y {
      PositiveProduct(d, x - y);
    }
  }

  lemma {:induction false} SignKept(d: real, x: real)
    requires d > 0.0 && d * x >= 0.0
    ensures x >= 0.0
  {
    if x < 0.0 {
      PositiveProduct(d, -x);
    }
  }

  lemma {:induction false} SpreadOver(d: real, c: real, h: real)
    ensures d * c - d * h == d * (c - h) && d * c + d * h == d * (c + h)
  {
  }

  /** The same, before scaling. */
  ghost predicate Completes(p: real, a: real, c: real, h: real) {
    a >= 0.0 && Scaled(p, a, (1.0 + a) * c, (1.0 + a) * h)
  }

  lemma {:induction false} DescaleEnds(d: real, p: real, c: real, h: real, dp: real, dc: real, dh: real)
    requires d > 0.0 && dp == d * p && dc == d * c && dh == d * h
    requires 0.0 <= dc - dh <= dp <= dc + dh <= d
    ensures 0.0 <= c - h <= p <= c + h <= 1.0
  {
    SpreadOver(d, c, h);
    SignKept(d, c - h);
    Descale(c - h, p, d);
    Descale(p, c + h, d);
    assert d * 1.0 == d;
    Descale(c + h, 1.0, d);
  }

  lemma {:induction false} EndsInOrder(p: real, a: real, c: real, h: real)
    requires h >= 0.0 && Completes(p, a, c, h)
    ensures 0.0 <= c - h <= p <= c + h <= 1.0
  {
    var d := 1.0 + a;
    ProductNotNegative(d, h);
    EndsFromScaled(p, a, d, c, h, d * p, d * c, d * h);
  }

  lemma {:induction false} EndsFromScaled(p: real, a: real, d: real, c: real, h: real, dp: real, dc: real, dh: real)
    requires d == 1.0 + a && a >= 0.0 && dh >= 0.0 && Scaled(p, a, dc, dh)
    requires dp == d * p && dc == d * c && dh == d * h
    ensures 0.0 <= c - h <= p <= c + h <= 1.0
  {
    hide Scaled;
    ScaledEnds(p, a, d, dp, dc, dh);
    DescaleEnds(d, p, c, h, dp, dc, dh);
  }

  lemma {:induction false} ZeroScaled(d: real, x: real)
    requires d > 0.0
    ensures d * x == 0.0 <==> x == 0.0
  {
  }

  lemma {:induction false} SameScaled(d: real, x: real, y: real)
    requires d > 0.0
    ensures d * x == d * y <==> x == y
  {
    ZeroScaled(d, x - y);
    assert d * (x - y) == d * x - d * y;
  }

  lemma {:induction false} RootsScaled(d: real, e: real, u: real, h: real)
    requires d > 0.0 && u * u - h * h == d * e
    ensures e == 0.0 <==> u == h || u == -h
  {
    RootOrOpposite(u, h);
    ZeroScaled(d, e);
  }

  lemma {:induction false} EndsDescale(d: real, x: real, c: real, h: real)
    requires d > 0.0
    ensures (d * x - d * c == d * h || d * x - d * c == -(d * h)) <==> x == c - h || x == c + h
  {
    SpreadOver(d, x, c);
    SpreadOver(d, 0.0, h);
    SameScaled(d, x - c, h);
    SameScaled(d, x - c, 0.0 - h);
  }

  lemma {:induction false} RootsOfSquare(d: real, e: real, x: real, c: real, h: real, u: real, dh: real)
    requires d > 0.0 && u == d * x - d * c && dh == d * h && u * u - dh * dh == d * e
    ensures e == 0.0 <==> x == c - h || x == c + h
  {
    RootsScaled(d, e, u, dh);
    EndsDescale(d, x, c, h);
  }

  lemma {:induction false} RootsFromScaled(p: real, a: real, d: real, c: real, h: real, x: real, dc: real, dh: real)
    requires d == 1.0 + a && a >= 0.0 && Scaled(p, a, dc, dh) && dc == d * c && dh == d * h
    ensures (p - x) * (p - x) - a * (x * (1.0 - x)) == 0.0 <==> x == c - h || x == c + h
  {
    hide Scaled;
    CompletedSquare(p, a, d, dc, dh, x);
    RootsOfSquare(d, (p - x) * (p - x) - a * (x * (1.0 - x)), x, c, h, d * x - dc, dh);
  }

  lemma {:induction false} RootsAreEnds(p: real, a: real, c: real, h: real, x: real)
    requires Completes(p, a, c, h)
    ensures (p - x) * (p - x) == a * (x * (1.0 - x)) <==> x == c - h || x == c + h
  {
    hide Scaled;
    RootsFromScaled(p, a, 1.0 + a, c, h, x, (1.0 + a) * c, (1.0 + a) * h);
  }

  // ---- From the code's expressions to the scaled ones ----

  lemma {:induction false} HalfQuotient(x: real, n: real)
    requires n > 0.0
    ensures x / (2.0 * n) == (x / n) / 2.0
  {
    TimesQuotient(x, n);
    TimesQuotient(x, (2.0 * n));
    SameScaled((2.0 * n), x / (2.0 * n), (x / n) / 2.0);
  }

  lemma {:induction false} QuarterQuotient(zz: real, n: real, four: real)
    requires n > 0.0 && four == 4.0 * n * n
    ensures four > 0.0 && n * (zz / four) == (zz / n) / 4.0
  {
    ProductIsPositive(4.0 * n, n, four);
    var q, a := zz / four, zz / n;
    TimesQuotient(zz, four);
    TimesQuotient(zz, n);
    assert four * q == n * (4.0 * (n * q));
    SameScaled(n, 4.0 * (n * q), a);
  }

  lemma {:induction false} Radicand(p: real, n: real, zz: real)
    requires n > 0.0
    ensures 4.0 * n * n > 0.0
    ensures zz * (p * (1.0 - p) / n + zz / (4.0 * n * n)) == (zz / n) * (p * (1.0 - p)) + (zz / n) * (zz / n) / 4.0
  {
    PositiveProduct(4.0 * n, n);
    var four := 4.0 * n * n;
    QuarterQuotient(zz, n, four);
    TimesQuotient(zz, n);
    TimesQuotient(p * (1.0 - p), n);
    Regroup(n, zz / n, p * (1.0 - p) / n, zz / four);
  }

  lemma {:induction false} Regroup(n: real, a: real, u: real, v: real)
    ensures (n * a) * (u + v) == a * (n * u) + a * (n * v)
  {
  }

  lemma {:induction false} SquareOfProduct(z: real, s: real)
    ensures (z * s) * (z * s) == (z * z) * (s * s)
  {
  }

  lemma {:induction false} CentreScaled(p: real, n: real, z: real)
    requires n > 0.0
    ensures (1.0 + z * z / n) * Centre(p, n, z) == p + (z * z / n) / 2.0
  {
    Denominator(n, z);
    TimesQuotient(p + z * z / (2.0 * n), 1.0 + z * z / n);
    HalfQuotient(z * z, n);
  }

  lemma {:induction false} RadicandNotNegative(p: real, n: real, z: real)
    requires 0.0 <= p <= 1.0 && n > 0.0
    ensures 4.0 * n * n > 0.0 && p * (1.0 - p) / n + z * z / (4.0 * n * n) >= 0.0
  {
    PositiveProduct(4.0 * n, n);
    ProductNotNegative(p, 1.0 - p);
    Quotient(p * (1.0 - p), n);
    Squared(z);
    var four := 4.0 * n * n;
    ProductIsPositive(4.0 * n, n, four);
    Quotient(z * z, four);
  }

  lemma {:induction false} HalfScaled(p: real, n: real, z: real, sqrt: real -> real)
    requires 0.0 <= p <= 1.0 && n > 0.0 && z >= 0.0 && IsSquareRoot(sqrt)
    ensures var h := (1.0 + z * z / n) * Half(p, n, z, sqrt);
      h * h == (z * z / n) * (p * (1.0 - p)) + (z * z / n) * (z * z / n) / 4.0
    ensures Half(p, n, z, sqrt) >= 0.0
  {
    Denominator(n, z);
    RadicandNotNegative(p, n, z);
    var s := sqrt(p * (1.0 - p) / n + z * z / (4.0 * n * n));
    TimesQuotient(z * s, 1.0 + z * z / n);
    SquareOfProduct(z, s);
    Radicand(p, n, z * z);
    ProductNotNegative(z, s);
    Quotient(z * s, 1.0 + z * z / n);
  }

  lemma {:induction false} IsScaled(p: real, n: real, z: real, sqrt: real -> real)
    requires 0.0 <= p <= 1.0 && n > 0.0 && z >= 0.0 && IsSquareRoot(sqrt)
    ensures Completes(p, z * z / n, Centre(p, n, z), Half(p, n, z, sqrt))
    ensures Half(p, n, z, sqrt) >= 0.0
  {
    hide Centre, Half;
    Denominator(n, z);
    CentreScaled(p, n, z);
    HalfScaled(p, n, z, sqrt);
  }

  lemma {:induction false} RawEnds(p: real, n: real, z: real, sqrt: real -> real)
    requires 0.0 <= p <= 1.0 && n > 0.0 && z >= 0.0 && IsSquareRoot(sqrt)
    ensures var c, h := Centre(p, n, z), Half(p, n, z, sqrt); 0.0 <= c - h <= p <= c + h <= 1.0
  {
    hide Centre, Half, Completes;
    IsScaled(p, n, z, sqrt);
    EndsInOrder(p, z * z / n, Centre(p, n, z), Half(p, n, z, sqrt));
  }

  ghost predicate WilsonEquation(p: real, n: real, z: real, x: real)
    requires n > 0.0
  {
    (p - x) * (p - x) == z * z * x * (1.0 - x) / n
  }

  lemma {:induction false} RawRoots(p: real, n: real, z: real, sqrt: real -> real, x: real)
    requires 0.0 <= p <= 1.0 && n > 0.0 && z >= 0.0 && IsSquareRoot(sqrt)
    ensures WilsonEquation(p, n, z, x)
      <==> x == Centre(p, n, z) - Half(p, n, z, sqrt) || x == Centre(p, n, z) + Half(p, n, z, sqrt)
  {
    hide Centre, Half, Completes;
    IsScaled(p, n, z, sqrt);
    RootsAreEnds(p, z * z / n, Centre(p, n, z), Half(p, n, z, sqrt), x);
    EquationScaled(z * z, n, x);
  }

  lemma {:induction false} EquationScaled(zz: real, n: real, x: real)
    requires n > 0.0
    ensures zz * x * (1.0 - x) / n == (zz / n) * (x * (1.0 - x))
  {
    var q := x * (1.0 - x);
    assert zz * x * (1.0 - x) == zz * q;
    QuotientTimes(zz, q, n);
  }

  lemma {:induction false} QuotientTimes(x: real, q: real, n: real)
    requires n > 0.0
    ensures (x * q) / n == (x / n) * q
  {
    TimesQuotient(x, n);
    TimesQuotient(x * q, n);
    assert n * ((x / n) * q) == (n * (x / n)) * q;
    SameScaled(n, (x * q) / n, (x / n) * q);
  }

  lemma {:induction false} RateInUnit(successes: int, trials: int)
    requires 0 <= successes <= trials && trials > 0
    ensures 0.0 <= successes as real / trials as real <= 1.0
  {
    var s, n := successes as real, trials as real;
    TimesQuotient(s, n);
    Descale(0.0, s / n, n);
    Descale(s / n, 1.0, n);
  }

  /** The interval lies within [0, 1] around the observed rate, the clamps never change its ends, and
      the ends are the two roots of Wilson's equation: a point solves it exactly when it is an end. */
  lemma {:induction false} IntervalIsWilson(successes: int, trials: int, z: real, sqrt: real -> real)
    requires 0 <= successes <= trials && trials > 0 && z >= 0.0 && IsSquareRoot(sqrt)
    ensures var r, n := WilsonInterval(successes, trials, z, sqrt), trials as real;
      && 0.0 <= r.lo <= r.p <= r.hi <= 1.0 && r.p == successes as real / n
      && r.lo == Centre(r.p, n, z) - Half(r.p, n, z, sqrt) && r.hi == Centre(r.p, n, z) + Half(r.p, n, z, sqrt)
      && forall x: real :: WilsonEquation(r.p, n, z, x) <==> x == r.lo || x == r.hi
  {
    hide Centre, Half, WilsonEquation;
    var n := trials as real;
    var p := successes as real / n;
    RateInUnit(successes, trials);
    RawEnds(p, n, z, sqrt);
    forall x: real ensures WilsonEquation(p, n, z, x)
      <==> x == Centre(p, n, z) - Half(p, n, z, sqrt) || x == Centre(p, n, z) + Half(p, n, z, sqrt) {
      RawRoots(p, n, z, sqrt, x);
    }
  }

  /** A negative `z` gives the same interval with its ends exchanged. */
  lemma {:induction false} NegativeZSwapsEnds(successes: int, trials: int, z: real, sqrt: real -> real)
    requires 0 <= successes <= trials && trials > 0 && z >= 0.0 && IsSquareRoot(sqrt)
    ensures var r, s := WilsonInterval(successes, trials, z, sqrt), WilsonInterval(successes, trials, -z, sqrt);
      s.lo == r.hi && s.hi == r.lo && s.p == r.p
  {
    var n := trials as real;
    var p := successes as real / n;
    IntervalIsWilson(successes, trials, z, sqrt);
    Negated(p, n, z, sqrt);
    hide Centre, Half;
  }

  lemma {:induction false} Negated(p: real, n: real, z: real, sqrt: real -> real)
    requires n > 0.0
    ensures Centre(p, n, -z) == Centre(p, n, z) && Half(p, n, -z, sqrt) == -Half(p, n, z, sqrt)
  {
    assert (-z) * (-z) == z * z;
    Denominator(n, z);
    var r := sqrt(p * (1.0 - p) / n + z * z / (4.0 * n * n));
    assert (-z) * r == -(z * r);
    NegatedQuotient(z * r, 1.0 + z * z / n);
  }

  lemma {:induction false} NegatedQuotient(x: real, d: real)
    requires d > 0.0
    ensures (-x) / d == -(x / d)
  {
  }
}
