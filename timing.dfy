/**
 * The timing-function table shared by every revision: Penner-style curves
 * mapping (elapsed t, start b, change c, duration d) to a value. The twelve
 * polynomial curves are given their formulas; the sine, exponential and
 * circular families are carried as an arbitrary function, since the model
 * does not reason about transcendental functions.
 */
module Timing {

  datatype Curve =
    | InQuad | OutQuad | InOutQuad
    | InCubic | OutCubic | InOutCubic
    | InQuart | OutQuart | InOutQuart
    | InQuint | OutQuint | InOutQuint
      /** easeInSine ... easeInOutCirc: any function of (t, b, c, d). */
    | Transcendental(f: (real, real, real, real) -> real)
  {
    predicate IsPolynomial() { !Transcendental? }
  }

  /** `Math.pow` with a natural exponent. */
  function Pow(x: real, n: nat): real {
    if n == 0 then 1.0 else x * Pow(x, n - 1)
  }

  /** Powers of 0, 1 and -1, which the curves meet at their ends and middles. */
  lemma {:induction false} PowUnits(n: nat)
    ensures n > 0 ==> Pow(0.0, n) == 0.0
    ensures Pow(1.0, n) == 1.0
    ensures Pow(-1.0, n) == if n % 2 == 0 then 1.0 else -1.0
  {
    if n > 0 {
      PowUnits(n - 1);
    }
  }

  /** An odd power keeps the sign of its base, an even one drops it. */
  lemma {:induction false} PowNegate(x: real, n: nat)
    ensures Pow(-x, n) == if n % 2 == 0 then Pow(x, n) else -Pow(x, n)
  {
    if n > 0 {
      PowNegate(x, n - 1);
    }
  }

  /** A product with a non-zero factor vanishes only with its other factor. */
  lemma ZeroProduct(x: real, d: real)
    requires d != 0.0 && x * d == 0.0
    ensures x == 0.0
  {
  }

  /** The ratios t / d and t / (d / 2) at the points the curves are checked at. */
  lemma Ratios(t: real, d: real)
    requires d != 0.0
    ensures t == 0.0 ==> t / d == 0.0 && t / (d / 2.0) == 0.0
    ensures t == d ==> t / d == 1.0 && t / (d / 2.0) == 2.0
    ensures t == d / 2.0 ==> t / (d / 2.0) == 1.0
    ensures (d - t) / d == 1.0 - t / d
  {
    var s := t / d;
    assert s * d == t;
    assert d / 2.0 * 2.0 == d;
    var x := (d - t) / d;
    assert x * d == d - t;
    assert (x - (1.0 - s)) * d == 0.0;
    ZeroProduct(x - (1.0 - s), d);
  }

  function EaseInQuad(t: real, b: real, c: real, d: real): (r: real)
    requires d != 0.0
    ensures t == 0.0 ==> r == b
    ensures t == d ==> r == b + c
  {
    Ratios(t, d);
    var s := t / d; c * s * s + b
  }

  function EaseOutQuad(t: real, b: real, c: real, d: real): (r: real)
    requires d != 0.0
    ensures t == 0.0 ==> r == b
    ensures t == d ==> r == b + c
  {
    Ratios(t, d);
    var s := t / d; -c * s * (s - 2.0) + b
  }

  function EaseInOutQuad(t: real, b: real, c: real, d: real): (r: real)
    requires d != 0.0
    ensures t == 0.0 ==> r == b
    ensures t == d / 2.0 ==> r == b + c / 2.0
    ensures t == d ==> r == b + c
  {
    Ratios(t, d);
    var s := t / (d / 2.0);
    if s < 1.0 then c / 2.0 * s * s + b
    else var u := s - 1.0; -c / 2.0 * (u * (u - 2.0) - 1.0) + b
  }

  function EaseInCubic(t: real, b: real, c: real, d: real): (r: real)
    requires d != 0.0
    ensures t == 0.0 ==> r == b
    ensures t == d ==> r == b + c
  {
    Ratios(t, d);
    PowUnits(3);
    c * Pow(t / d, 3) + b
  }

  function EaseOutCubic(t: real, b: real, c: real, d: real): (r: real)
    requires d != 0.0
    ensures t == 0.0 ==> r == b
    ensures t == d ==> r == b + c
  {
    Ratios(t, d);
    PowUnits(3);
    c * (Pow(t / d - 1.0, 3) + 1.0) + b
  }

  function EaseInOutCubic(t: real, b: real, c: real, d: real): (r: real)
    requires d != 0.0
    ensures t == 0.0 ==> r == b
    ensures t == d / 2.0 ==> r == b + c / 2.0
    ensures t == d ==> r == b + c
  {
    Ratios(t, d);
    PowUnits(3);
    var s := t / (d / 2.0);
    if s < 1.0 then c / 2.0 * Pow(s, 3) + b
    else c / 2.0 * (Pow(s - 2.0, 3) + 2.0) + b
  }

  function EaseInQuart(t: real, b: real, c: real, d: real): (r: real)
    requires d != 0.0
    ensures t == 0.0 ==> r == b
    ensures t == d ==> r == b + c
  {
    Ratios(t, d);
    PowUnits(4);
    c * Pow(t / d, 4) + b
  }

  function EaseOutQuart(t: real, b: real, c: real, d: real): (r: real)
    requires d != 0.0
    ensures t == 0.0 ==> r == b
    ensures t == d ==> r == b + c
  {
    Ratios(t, d);
    PowUnits(4);
    -c * (Pow(t / d - 1.0, 4) - 1.0) + b
  }

  function EaseInOutQuart(t: real, b: real, c: real, d: real): (r: real)
    requires d != 0.0
    ensures t == 0.0 ==> r == b
    ensures t == d / 2.0 ==> r == b + c / 2.0
    ensures t == d ==> r == b + c
  {
    Ratios(t, d);
    PowUnits(4);
    var s := t / (d / 2.0);
    if s < 1.0 then c / 2.0 * Pow(s, 4) + b
    else -c / 2.0 * (Pow(s - 2.0, 4) - 2.0) + b
  }

  function EaseInQuint(t: real, b: real, c: real, d: real): (r: real)
    requires d != 0.0
    ensures t == 0.0 ==> r == b
    ensures t == d ==> r == b + c
  {
    Ratios(t, d);
    PowUnits(5);
    c * Pow(t / d, 5) + b
  }

  function EaseOutQuint(t: real, b: real, c: real, d: real): (r: real)
    requires d != 0.0
    ensures t == 0.0 ==> r == b
    ensures t == d ==> r == b + c
  {
    Ratios(t, d);
    PowUnits(5);
    c * (Pow(t / d - 1.0, 5) + 1.0) + b
  }

  function EaseInOutQuint(t: real, b: real, c: real, d: real): (r: real)
    requires d != 0.0
    ensures t == 0.0 ==> r == b
    ensures t == d / 2.0 ==> r == b + c / 2.0
    ensures t == d ==> r == b + c
  {
    Ratios(t, d);
    PowUnits(5);
    var s := t / (d / 2.0);
    if s < 1.0 then c / 2.0 * Pow(s, 5) + b
    else c / 2.0 * (Pow(s - 2.0, 5) + 2.0) + b
  }

  /**
   * `timingFunction[name](t, b, c, d)`. Every polynomial curve starts at `b`
   * (t = 0) and ends at `b + c` (t = d).
   */
  function Eval(k: Curve, t: real, b: real, c: real, d: real): (r: real)
    requires d != 0.0
    ensures k.IsPolynomial() && t == 0.0 ==> r == b
    ensures k.IsPolynomial() && t == d ==> r == b + c
    ensures k.Transcendental? ==> r == k.f(t, b, c, d)
  {
    match k
    case InQuad => EaseInQuad(t, b, c, d)
    case OutQuad => EaseOutQuad(t, b, c, d)
    case InOutQuad => EaseInOutQuad(t, b, c, d)
    case InCubic => EaseInCubic(t, b, c, d)
    case OutCubic => EaseOutCubic(t, b, c, d)
    case InOutCubic => EaseInOutCubic(t, b, c, d)
    case InQuart => EaseInQuart(t, b, c, d)
    case OutQuart => EaseOutQuart(t, b, c, d)
    case InOutQuart => EaseInOutQuart(t, b, c, d)
    case InQuint => EaseInQuint(t, b, c, d)
    case OutQuint => EaseOutQuint(t, b, c, d)
    case InOutQuint => EaseInOutQuint(t, b, c, d)
    case Transcendental(f) => f(t, b, c, d)
  }

  /** The step of OutMirrorsIn shared by the cubic, quartic and quintic curves. */
  lemma MirroredPower(t: real, d: real, n: nat)
    requires d != 0.0
    ensures Pow(t / d - 1.0, n) == if n % 2 == 0 then Pow((d - t) / d, n) else -Pow((d - t) / d, n)
  {
    Ratios(t, d);
    PowNegate((d - t) / d, n);
  }

  /**
   * Each ease-out curve is its ease-in partner run backwards: at elapsed t it
   * has covered what the ease-in curve has left to cover at elapsed d - t.
   */
  lemma OutQuadMirrorsIn(t: real, b: real, c: real, d: real)
    requires d != 0.0
    ensures EaseOutQuad(t, b, c, d) == b + c - EaseInQuad(d - t, 0.0, c, d)
  {
    var s := t / d;
    var m := (d - t) / d;
    Ratios(t, d);
    assert c * m * m == c - c * s * (2.0 - s) by {
      assert m * m == 1.0 - 2.0 * s + s * s;
    }
  }

  lemma OutCubicMirrorsIn(t: real, b: real, c: real, d: real)
    requires d != 0.0
    ensures EaseOutCubic(t, b, c, d) == b + c - EaseInCubic(d - t, 0.0, c, d)
  {
    MirroredPower(t, d, 3);
  }

  lemma OutQuartMirrorsIn(t: real, b: real, c: real, d: real)
    requires d != 0.0
    ensures EaseOutQuart(t, b, c, d) == b + c - EaseInQuart(d - t, 0.0, c, d)
  {
    MirroredPower(t, d, 4);
  }

  lemma OutQuintMirrorsIn(t: real, b: real, c: real, d: real)
    requires d != 0.0
    ensures EaseOutQuint(t, b, c, d) == b + c - EaseInQuint(d - t, 0.0, c, d)
  {
    MirroredPower(t, d, 5);
  }

  /**
   * easeOutQuad never leaves the closed interval between its start `b` and its
   * end `b + c` while 0 <= t <= d: the fades built on it stay within [0, 1].
   */
  lemma OutQuadBetween(t: real, b: real, c: real, d: real)
    requires d > 0.0 && 0.0 <= t <= d
    ensures c >= 0.0 ==> b <= EaseOutQuad(t, b, c, d) <= b + c
    ensures c <= 0.0 ==> b + c <= EaseOutQuad(t, b, c, d) <= b
  {
    var s := t / d;
    assert 0.0 <= s <= 1.0;
    var g := s * (2.0 - s);
    assert 0.0 <= g <= 1.0 by {
      assert 1.0 - g == (1.0 - s) * (1.0 - s);
    }
    assert EaseOutQuad(t, b, c, d) == c * g + b;
    if c >= 0.0 {
      assert 0.0 <= c * g <= c;
    } else {
      assert c <= c * g <= 0.0;
    }
  }
}
