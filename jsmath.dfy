/** The pieces of JavaScript's number semantics and of its `Math` object
    that the simulator relies on, in exact real arithmetic.

    `Math.sqrt`, `Math.sin`, `Math.cos`, `Math.asin` and `Math.atan2` are
    foreign code: they are handed to the model as a `MathLib` record, and
    `Lawful` states the only facts about them the proofs may use. */
module JsMath {

  /** `Math.PI`: the exact value of the double nearest to pi, which lies
      just below pi. */
  const PI: real := 3.141592653589793115997963468544185161590576171875

  /** A decimal just above pi (and below the next double after `Math.PI`):
      the sine is not positive from here to `TWO_PI`. */
  const PI_ABOVE: real := 3.1415926535897933

  /** A bound on the sine at `Math.PI` (exactly about `1.2246e-16`; the
      library returns the same): the only positive sines on
      `[PI, TWO_PI]` are this close to zero. */
  const SIN_PI_BOUND: real := 0.00000000000000013

  /** One full turn, `2 * Math.PI`. */
  const TWO_PI: real := 2.0 * PI

  /** `k` whole turns. */
  function Turns(k: int): real {
    (k as real) * TWO_PI
  }

  /** `Math.floor`. */
  function Floor(x: real): (k: int)
    ensures k as real <= x < k as real + 1.0
  {
    x.Floor
  }

  /** The floor is the only whole number that sits in `(x - 1, x]`. */
  lemma FloorUnique(x: real, k: int)
    requires k as real <= x < k as real + 1.0
    ensures Floor(x) == k
  {
  }

  /** `Math.trunc`: rounding toward zero. */
  function Trunc(x: real): (k: int)
    ensures 0.0 <= x ==> k == Floor(x)
    ensures x < 0.0 ==> x <= k as real < x + 1.0
  {
    if 0.0 <= x then Floor(x) else -Floor(-x)
  }

  /** `x` is a whole number of `m`s. */
  ghost predicate IsWholeMultiple(x: real, m: real) {
    exists k: int :: Multiple(k, m) == x
  }

  function Multiple(k: int, m: real): real {
    (k as real) * m
  }

  /** The `%` operator on numbers: the remainder keeps the sign of the
      dividend and is smaller than the divisor in magnitude. */
  function Rem(x: real, m: real): (r: real)
    requires 0.0 < m
    ensures 0.0 <= x ==> 0.0 <= r < m
    ensures x < 0.0 ==> -m < r <= 0.0
    ensures IsWholeMultiple(x - r, m)
  {
    var q := Trunc(x / m);
    ScaleBounds(x, m, q);
    assert Multiple(q, m) == x - (x - (q as real) * m);
    x - (q as real) * m
  }

  /** A whole quotient bound holds exactly when the bound multiplied back
      by the (positive) divisor holds. */
  lemma ScaleBounds(x: real, m: real, q: int)
    requires 0.0 < m
    ensures q as real <= x / m <==> (q as real) * m <= x
    ensures x / m < q as real + 1.0 <==> x < (q as real) * m + m
    ensures x / m <= q as real <==> x <= (q as real) * m
    ensures q as real - 1.0 < x / m <==> (q as real) * m - m < x
  {
    ScaleBelow(x, m, q);
    ScaleAbove(x, m, q);
  }

  lemma ScaleBelow(x: real, m: real, q: int)
    requires 0.0 < m
    ensures q as real <= x / m <==> (q as real) * m <= x
    ensures x / m <= q as real <==> x <= (q as real) * m
  {
    var d := x / m - q as real;
    assert x - (q as real) * m == d * m;
    assert 0.0 <= d <==> 0.0 <= d * m;
    assert d <= 0.0 <==> d * m <= 0.0;
  }

  lemma ScaleAbove(x: real, m: real, q: int)
    requires 0.0 < m
    ensures x / m < q as real + 1.0 <==> x < (q as real) * m + m
    ensures q as real - 1.0 < x / m <==> (q as real) * m - m < x
  {
    var d := x / m - q as real;
    assert x - (q as real) * m == d * m;
    assert (d - 1.0) * m == d * m - m;
    assert d < 1.0 <==> (d - 1.0) * m < 0.0;
    assert d < 1.0 <==> x - (q as real) * m < m;
    assert (d + 1.0) * m == d * m + m;
    assert -1.0 < d <==> 0.0 < (d + 1.0) * m;
    assert -1.0 < d <==> -m < x - (q as real) * m;
  }

  /** For a non-negative dividend, `%` leaves what the floor quotient leaves. */
  lemma RemOfNonNegative(x: real, m: real)
    requires 0.0 < m && 0.0 <= x
    ensures Rem(x, m) == x - (Floor(x / m) as real) * m
  {
  }

  /** `%` on integer-valued numbers (`fullSpins`, day numbers). */
  function IntRem(a: int, n: int): (r: int)
    requires 0 < n
    ensures 0 <= a ==> 0 <= r < n
    ensures a < 0 ==> -n < r <= 0
  {
    if 0 <= a then a % n else -((-a) % n)
  }

  /** `IntRem` differs from its argument by a whole multiple of the
      divisor. */
  lemma IntRemCongruent(a: int, n: int)
    requires 0 < n
    ensures (IntRem(a, n) - a) % n == 0
  {
    var b := if 0 <= a then a else -a;
    var q := b / n;
    assert b == q * n + b % n;
    var k := if 0 <= a then -q else q;
    assert IntRem(a, n) - a == k * n;
    MultipleHasNoRemainder(k, n);
  }

  /** A whole multiple of `n` leaves no remainder. */
  lemma MultipleHasNoRemainder(k: int, n: int)
    requires 0 < n
    ensures (k * n) % n == 0
  {
    var q, r := (k * n) / n, (k * n) % n;
    assert k * n == q * n + r;
    assert r == (k - q) * n;
    WholeTimesPositive(k - q, n);
  }

  /** A non-zero whole multiple of `n` is at least `n` away from zero. */
  lemma WholeTimesPositive(d: int, n: int)
    requires 0 < n
    ensures 1 <= d ==> n <= d * n
    ensures d <= -1 ==> d * n <= -n
  {
  }

  /** `IntRem` is the number `%` applied to whole numbers. */
  lemma IntRemIsRem(a: int, n: int)
    requires 0 < n
    ensures IntRem(a, n) as real == Rem(a as real, n as real)
  {
    if 0 <= a {
      WholeRem(a, n);
    } else {
      WholeRem(-a, n);
      RemOfNegation(a as real, n as real);
    }
  }

  /** On whole non-negative numbers `%` is the integer remainder. */
  lemma WholeRem(b: nat, n: int)
    requires 0 < n
    ensures Rem(b as real, n as real) == (b % n) as real
  {
    var q, r := b / n, b % n;
    var x, m := b as real, n as real;
    assert x == (q as real) * m + r as real by {
      assert b == q * n + r;
      assert (q * n) as real == (q as real) * m;
    }
    ScaleBounds(x, m, q);
    FloorUnique(x / m, q);
    RemOfNonNegative(x, m);
  }

  /** `%` is odd in its dividend. */
  lemma RemOfNegation(x: real, m: real)
    requires 0.0 < m
    ensures Rem(-x, m) == -Rem(x, m)
  {
    var y := x / m;
    assert -x / m == -y;
    TruncOfNegation(y);
    var q := Trunc(y);
    calc {
      Rem(-x, m);
      -x - (Trunc(-y) as real) * m;
      -x - ((-q) as real) * m;
      -(x - (q as real) * m);
      -Rem(x, m);
    }
  }

  /** Rounding toward zero is odd. */
  lemma TruncOfNegation(y: real)
    ensures Trunc(-y) == -Trunc(y)
  {
    if y == 0.0 {
      assert -y == 0.0;
    }
  }

  /** `THREE.MathUtils.radToDeg`. */
  function RadToDeg(r: real): real {
    r * (180.0 / PI)
  }

  /** The foreign functions of `Math` that the simulator calls. */
  datatype MathLib = MathLib(
    sqrt: real -> real,
    sin: real -> real,
    cos: real -> real,
    asin: real -> real,
    atan2: (real, real) -> real)

  /** The facts about `Math` that the proofs are allowed to use: ranges,
      signs, and that `sqrt` squares back to its argument. Each holds of
      the library on its arguments, with `PI` the double `Math.PI`:
      `Math.asin(1)` is `Math.PI / 2`, `Math.atan2` may return `-Math.PI`
      (for a negative zero `y`) as well as `Math.PI`, and because
      `Math.PI` is below pi, `Math.sin(Math.PI)` is a tiny positive number;
      the sine is only certain not to be positive from `PI_ABOVE` on. The
      `sqrt` law holds in exact arithmetic only. */
  ghost predicate Lawful(m: MathLib) {
    && (forall x :: -1.0 <= m.cos(x) <= 1.0)
    && (forall x :: -1.0 <= m.sin(x) <= 1.0)
    && (forall x :: PI <= x <= TWO_PI ==> m.sin(x) <= SIN_PI_BOUND)
    && (forall x :: PI_ABOVE <= x <= TWO_PI ==> m.sin(x) <= 0.0)
    && (forall x :: -1.0 <= x <= 1.0 ==> -PI / 2.0 <= m.asin(x) <= PI / 2.0)
    && (forall x :: -1.0 <= x <= 0.0 ==> m.asin(x) <= 0.0)
    && m.asin(0.0) == 0.0
    && (forall x :: 0.0 <= x ==> 0.0 <= m.sqrt(x) && m.sqrt(x) * m.sqrt(x) == x)
    && (forall y, x :: -PI <= m.atan2(y, x) <= PI)
  }
}
