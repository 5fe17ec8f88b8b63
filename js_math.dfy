/** JavaScript numeric helpers shared by both versions of the game.
    Numbers are reals; `Math.sqrt`, `Math.sin`, `Math.cos` and `Math.atan2` are
    uninterpreted functions bundled in `MathLib`, of which only the facts the game's
    code relies on are assumed (`MathLib.Valid`). */
module JsMath {

  /** `Math.min` and `Math.max` on two (non-NaN) numbers. */
  function Min(a: real, b: real): (r: real)
    ensures r <= a && r <= b && (r == a || r == b)
  {
    if a <= b then a else b
  }

  function Max(a: real, b: real): (r: real)
    ensures r >= a && r >= b && (r == a || r == b)
  {
    if a >= b then a else b
  }

  function Abs(a: real): (r: real)
    ensures r >= 0.0 && (r == a || r == -a)
  {
    if a < 0.0 then -a else a
  }

  /** `Math.sign`. */
  function Sign(a: real): (r: real)
    ensures r * a == Abs(a)
    ensures r == 0.0 || r == 1.0 || r == -1.0
  {
    if a > 0.0 then 1.0 else if a < 0.0 then -1.0 else 0.0
  }

  /** Truncation toward zero, the rounding JavaScript's `%` uses. */
  function Trunc(r: real): (t: int)
    ensures Abs(t as real) <= Abs(r) < Abs(t as real) + 1.0
    ensures r >= 0.0 ==> t >= 0
    ensures r <= 0.0 ==> t <= 0
  {
    if r >= 0.0 then r.Floor else -((-r).Floor)
  }

  /** JavaScript's `x % 360` on a number: the remainder of a division truncated toward
      zero, so it takes the sign of `x` (unlike Dafny's Euclidean `%`). */
  function JsMod360(x: real): (r: real)
    ensures -360.0 < r < 360.0
    ensures x >= 0.0 ==> 0.0 <= r
    ensures x <= 0.0 ==> r <= 0.0
    ensures 0.0 <= x < 360.0 ==> r == x
    ensures x - r == 360.0 * (Trunc(x / 360.0) as real)
  {
    x - 360.0 * (Trunc(x / 360.0) as real)
  }

  /** `(a + 360) % 360`: the wrap of an angle into [0, 360) used after every turn. */
  function WrapDeg(a: real): (r: real)
    ensures a >= -360.0 ==> 0.0 <= r < 360.0
    ensures 0.0 <= a < 360.0 ==> r == a
  {
    JsMod360(a + 360.0)
  }

  /** `x` is a whole number of turns. */
  predicate WholeTurns(x: real) {
    (x / 360.0).Floor as real == x / 360.0
  }

  /** `((target - current + 540) % 360) - 180`: the signed turn from `current` to `target`. */
  function ShortestArc(target: real, current: real): (d: real)
    ensures target - current + 540.0 >= 0.0 ==> -180.0 <= d < 180.0
  {
    JsMod360(target - current + 540.0) - 180.0
  }

  /** The turn differs from `target - current` by whole turns, and no representative of
      that class of angles is shorter: the arc never goes the long way round. */
  lemma ShortestArcIsShortest(target: real, current: real, k: int)
    requires target - current + 540.0 >= 0.0
    ensures WholeTurns(target - current - ShortestArc(target, current))
    ensures Abs(ShortestArc(target, current)) <= Abs(target - current + 360.0 * (k as real))
  {
    var d := ShortestArc(target, current);
    var x := target - current + 540.0;
    var q := Trunc(x / 360.0);
    assert x - JsMod360(x) == 360.0 * (q as real);
    var j := q - 1;
    assert target - current - d == 360.0 * (j as real);
    WholeTurnsOf(j);
    NoShorterTurn(d, j + k);
    assert target - current + 360.0 * (k as real) == d + 360.0 * ((j + k) as real);
  }

  lemma WholeTurnsOf(j: int)
    ensures WholeTurns(360.0 * (j as real))
  {
    assert 360.0 * (j as real) / 360.0 == j as real;
  }

  lemma NoShorterTurn(d: real, n: int)
    requires -180.0 <= d < 180.0
    ensures Abs(d) <= Abs(d + 360.0 * (n as real))
  {
    if n >= 1 {
      assert 360.0 * (n as real) >= 360.0;
    } else if n <= -1 {
      assert 360.0 * (n as real) <= -360.0;
    }
  }

  /** A turn limited to `maxTurn` in either direction, as
      `Math.abs(diff) > maxTurn ? Math.sign(diff) * maxTurn : diff`, with the product by the
      sign written out by cases. */
  function ClampTurn(diff: real, maxTurn: real): (r: real)
    ensures maxTurn >= 0.0 ==> Abs(r) <= maxTurn
    ensures Abs(diff) <= maxTurn ==> r == diff
    ensures maxTurn >= 0.0 ==> Abs(r) <= Abs(diff)
    ensures maxTurn >= 0.0 ==> (diff >= 0.0 ==> r >= 0.0) && (diff <= 0.0 ==> r <= 0.0)
  {
    if Abs(diff) > maxTurn then
      (if diff > 0.0 then maxTurn else if diff < 0.0 then -maxTurn else 0.0)
    else diff
  }

  /** The case split is the product by `Math.sign`. */
  lemma ClampTurnIsSignTimes(diff: real, maxTurn: real)
    requires Abs(diff) > maxTurn
    ensures ClampTurn(diff, maxTurn) == Sign(diff) * maxTurn
  {
    if diff > 0.0 {
      assert Sign(diff) == 1.0;
    } else if diff < 0.0 {
      assert Sign(diff) == -1.0;
    } else {
      assert Sign(diff) == 0.0;
    }
  }

  /** Total of a run of frame times. */
  function Sum(ds: seq<real>): real {
    if ds == [] then 0.0 else ds[0] + Sum(ds[1..])
  }

  predicate AllNonNegative(ds: seq<real>) {
    forall i :: 0 <= i < |ds| ==> ds[i] >= 0.0
  }

  /** The library functions the game calls. Angles are in degrees: `sinDeg(a)` stands for
      `Math.sin(a * Math.PI / 180)` and `atan2Deg(x, y)` for `Math.atan2(x, y) * 180 / Math.PI`. */
  datatype MathLib = MathLib(
    sqrt: real -> real,
    sinDeg: real -> real,
    cosDeg: real -> real,
    atan2Deg: (real, real) -> real)
  {
    /** The only facts the game relies on. */
    ghost predicate Valid() {
      && (forall x :: 0.0 <= x ==> 0.0 <= sqrt(x) && Square(sqrt(x)) == x)
      && (forall a :: -1.0 <= sinDeg(a) <= 1.0)
      && (forall a :: -1.0 <= cosDeg(a) <= 1.0)
      && (forall x, y :: -180.0 < atan2Deg(x, y) <= 180.0)
    }

    /** `Math.hypot(dx, dy)`. */
    function Hypot(dx: real, dy: real): real {
      sqrt(dx * dx + dy * dy)
    }
  }

  /** Comparing a square root with a bound is comparing the radicand with the bound squared. */
  lemma SqrtCompare(m: MathLib, d: real, r: real)
    requires m.Valid() && 0.0 <= d && 0.0 <= r
    ensures m.sqrt(d) <= r <==> d <= r * r
    ensures m.sqrt(d) < r <==> d < r * r
  {
    var s := m.sqrt(d);
    assert 0.0 <= s && s * s == d;
    SquareMonoLe(s, r);
    SquareMonoLt(s, r);
  }

  lemma SquareMonoLe(s: real, r: real)
    requires 0.0 <= s && 0.0 <= r
    ensures s <= r <==> s * s <= r * r
  {
    assert s * s - r * r == (s - r) * (s + r);
    if s <= r {
      NonNegMul(r - s, r + s);
      assert (r - s) * (r + s) == r * r - s * s;
    } else {
      PosMul(s - r, s + r);
    }
  }

  lemma SquareMonoLt(s: real, r: real)
    requires 0.0 <= s && 0.0 <= r
    ensures s < r <==> s * s < r * r
  {
    SquareMonoLe(r, s);
  }

  lemma PosMul(a: real, b: real)
    requires 0.0 < a && 0.0 < b
    ensures 0.0 < a * b
  {
  }

  lemma NonNegMul(a: real, b: real)
    requires 0.0 <= a && 0.0 <= b
    ensures 0.0 <= a * b
  {
  }

  /** `x * x` under a name, so that sums of squares stay linear terms for the solver. */
  function Square(x: real): (s: real)
    ensures s >= 0.0
  {
    x * x
  }

  /** A value farther from 0 than `r` has a square above `r * r`. */
  lemma SquareBeyond(d: real, r: real)
    requires 0.0 <= r < Abs(d)
    ensures Square(d) > r * r
  {
    SquareMonoLt(r, Abs(d));
    assert Abs(d) * Abs(d) == d * d;
  }

  /** A distance compared with a radius, as the collision and sight tests do it. */
  lemma HypotCompare(m: MathLib, dx: real, dy: real, r: real)
    requires m.Valid() && 0.0 <= r
    ensures m.Hypot(dx, dy) >= 0.0
    ensures m.Hypot(dx, dy) <= r <==> dx * dx + dy * dy <= r * r
    ensures m.Hypot(dx, dy) < r <==> dx * dx + dy * dy < r * r
  {
    assert dx * dx >= 0.0 && dy * dy >= 0.0;
    SqrtCompare(m, dx * dx + dy * dy, r);
  }
}
