/**
 * Angle and coordinate arithmetic of the unit-circle diagram (src/utils/math.ts).
 * Numbers are mathematical reals: floating-point rounding is not modelled.
 */
module TrigMath {

  /** A point, in math space or in pixel space depending on context. */
  datatype Point = Point(x: real, y: real)

  function Abs(v: real): real { if v < 0.0 then -v else v }
  function Min(a: real, b: real): real { if a <= b then a else b }
  function Max(a: real, b: real): real { if a >= b then a else b }

  /** Math.PI, as the decimal JavaScript prints for it. */
  const PI: real := 3.141592653589793

  /**
   * The library calls the drawing code makes on angles it computes itself
   * (Math.cos, Math.sin, Math.atan2) and Number.prototype.toFixed(2). The
   * model does not compute them: a caller supplies them, and nothing is
   * assumed about their values.
   */
  datatype JsMath = JsMath(cos: real -> real, sin: real -> real, atan2: (real, real) -> real, toFixed2: real -> string)

  /** toRad: degrees to radians. */
  function ToRad(deg: real): real { deg * PI / 180.0 }

  /** toDeg: radians to degrees. */
  function ToDeg(rad: real): real { rad * 180.0 / PI }

  /** Converting to radians and back gives the angle back, and so does the other order. */
  lemma ToDegToRad(deg: real, rad: real)
    ensures ToDeg(ToRad(deg)) == deg
    ensures ToRad(ToDeg(rad)) == rad
  {
  }

  /** The integer part of x, rounded towards zero (what JavaScript's `%` uses). */
  function Trunc(x: real): (t: int)
    ensures Abs(t as real) <= Abs(x) < Abs(t as real) + 1.0
    ensures x >= 0.0 ==> t >= 0
    ensures x <= 0.0 ==> t <= 0
  {
    if x >= 0.0 then x.Floor else -((-x).Floor)
  }

  /**
   * JavaScript's remainder `a % n`: the result has the sign of the dividend
   * and a magnitude smaller than |n|.
   */
  function JsRem(a: real, n: real): (r: real)
    requires n > 0.0
    ensures a >= 0.0 ==> 0.0 <= r < n
    ensures a < 0.0 ==> -n < r <= 0.0
  {
    TruncBounds(a, n);
    a - n * (Trunc(a / n) as real)
  }

  lemma TruncBounds(a: real, n: real)
    requires n > 0.0
    ensures a >= 0.0 ==> 0.0 <= a - n * (Trunc(a / n) as real) < n
    ensures a < 0.0 ==> -n < a - n * (Trunc(a / n) as real) <= 0.0
  {
    var q := a / n;
    assert a == n * q;
    RemBounds(a, n, q, Trunc(q) as real);
  }

  /** The remainder bounds once the quotient q = a / n and its truncation t are fixed. */
  lemma RemBounds(a: real, n: real, q: real, t: real)
    requires n > 0.0 && a == n * q
    requires q >= 0.0 ==> t <= q < t + 1.0
    requires q < 0.0 ==> t - 1.0 < q <= t
    ensures a >= 0.0 ==> 0.0 <= a - n * t < n
    ensures a < 0.0 ==> -n < a - n * t <= 0.0
  {
    SameSign(a, n, q);
    if a >= 0.0 {
      ScaledGap(a, n, q, t, q - t);
      ScaledGap(a, n, q, t + 1.0, q - t - 1.0);
    } else {
      ScaledGap(a, n, q, t, q - t);
      ScaledGap(a, n, q, t - 1.0, q - t + 1.0);
    }
  }

  lemma SameSign(a: real, n: real, q: real)
    requires n > 0.0 && a == n * q
    ensures a >= 0.0 <==> q >= 0.0
  {
    if q < 0.0 { MulMono(n, q, 0.0); }
    if q >= 0.0 { MulMono(n, 0.0, q); }
  }

  /** a - n * t has the sign of q - t when a == n * q. */
  lemma ScaledGap(a: real, n: real, q: real, t: real, g: real)
    requires n > 0.0 && a == n * q && g == q - t
    ensures g >= 0.0 ==> a - n * t >= 0.0
    ensures g < 0.0 ==> a - n * t < 0.0
    ensures g <= 0.0 ==> a - n * t <= 0.0
    ensures g > 0.0 ==> a - n * t > 0.0
  {
    assert a - n * t == n * g;
    if g >= 0.0 { MulMono(n, 0.0, g); } else { MulMono(n, g, 0.0); }
  }

  /** The square of a positive number is positive. */
  lemma PositiveSquare(b: real)
    requires b > 0.0
    ensures b * b > 0.0
  {
    MulMono(b, 0.0, b);
  }

  /** Multiplying by a positive number preserves order. */
  lemma MulMono(n: real, x: real, y: real)
    requires n > 0.0 && x <= y
    ensures n * x <= n * y && x * n <= y * n
    ensures x < y ==> n * x < n * y && x * n < y * n
  {
    assert n * y - n * x == n * (y - x);
  }

  /** normalizeAngle: wraps any angle in degrees into [0, 360). */
  function NormalizeAngle(angle: real): (r: real)
    ensures 0.0 <= r < 360.0
  {
    var a := JsRem(angle, 360.0);
    if a < 0.0 then a + 360.0 else a
  }

  /** normalizeAngle moves its input by a whole number of turns. */
  lemma NormalizeAngleTurns(angle: real) returns (k: int)
    ensures NormalizeAngle(angle) == angle + 360.0 * (k as real)
  {
    var t := Trunc(angle / 360.0);
    var a := JsRem(angle, 360.0);
    assert a == angle - 360.0 * (t as real);
    k := if a < 0.0 then 1 - t else -t;
  }

  /** normalizeAngle leaves an angle already in [0, 360) unchanged. */
  lemma NormalizeAngleIdentity(angle: real)
    requires 0.0 <= angle < 360.0
    ensures NormalizeAngle(angle) == angle
  {
    assert Trunc(angle / 360.0) == 0;
  }

  /** Normalising twice is normalising once. */
  lemma NormalizeAngleIdempotent(angle: real)
    ensures NormalizeAngle(NormalizeAngle(angle)) == NormalizeAngle(angle)
  {
    NormalizeAngleIdentity(NormalizeAngle(angle));
  }

  /** clamp(val, min, max) = Math.min(Math.max(val, min), max). */
  function Clamp(v: real, lo: real, hi: real): (r: real)
    ensures lo <= hi ==> lo <= r <= hi
    ensures lo <= v <= hi ==> r == v
    ensures r <= hi
  {
    Min(Max(v, lo), hi)
  }

  /** mapRange: the affine map sending [inMin, inMax] onto [outMin, outMax]. */
  function MapRange(value: real, inMin: real, inMax: real, outMin: real, outMax: real): (r: real)
    requires inMin != inMax
    ensures value == inMin ==> r == outMin
    ensures value == inMax ==> r == outMax
  {
    var w := inMax - inMin;
    var num := (value - inMin) * (outMax - outMin);
    assert value == inMin ==> num == 0.0;
    assert value == inMax ==> num == w * (outMax - outMin);
    num / w + outMin
  }

  /** Mapping forward and then back with the ranges swapped is the identity. */
  lemma MapRangeInverse(v: real, inMin: real, inMax: real, outMin: real, outMax: real)
    requires inMin != inMax && outMin != outMax
    ensures MapRange(MapRange(v, inMin, inMax, outMin, outMax), outMin, outMax, inMin, inMax) == v
  {
    var w, d := inMax - inMin, outMax - outMin;
    var t := (v - inMin) / w;
    DivAfterMul(v - inMin, d, w);
    var r := MapRange(v, inMin, inMax, outMin, outMax);
    assert r - outMin == t * d;
    DivAfterMul(t * d, w, d);
    assert (t * d) / d == t by { DivAfterMul(t, d, d); }
    assert (t * d) * w / d == t * w;
    DivAfterMul(v - inMin, w, w);
  }

  /** Dividing a product by w is multiplying by the quotient: (x * y) / w = (x / w) * y. */
  lemma DivAfterMul(x: real, y: real, w: real)
    requires w != 0.0
    ensures x * y / w == (x / w) * y
    ensures (x / w) * w == x
  {
  }

  /** MapRange preserves order when both ranges run upward. */
  lemma MapRangeMonotone(v1: real, v2: real, inMin: real, inMax: real, outMin: real, outMax: real)
    requires inMin < inMax && outMin < outMax && v1 <= v2
    ensures MapRange(v1, inMin, inMax, outMin, outMax) <= MapRange(v2, inMin, inMax, outMin, outMax)
  {
    var w := inMax - inMin;
    var d := outMax - outMin;
    MulMono(d, v1 - inMin, v2 - inMin);
    assert (v1 - inMin) * d <= (v2 - inMin) * d;
    MulMono(1.0 / w, (v1 - inMin) * d, (v2 - inMin) * d);
  }

  /** (x, y) lies on the unit circle. */
  predicate OnUnitCircle(x: real, y: real) { x * x + y * y == 1.0 }

  /** A point of the unit circle has both coordinates in [-1, 1]. */
  lemma UnitBound(x: real, y: real)
    requires OnUnitCircle(x, y)
    ensures Abs(x) <= 1.0 && Abs(y) <= 1.0
  {
    if Abs(x) > 1.0 {
      MulMono(Abs(x), 1.0, Abs(x));
      assert false;
    }
    if Abs(y) > 1.0 {
      MulMono(Abs(y), 1.0, Abs(y));
      assert false;
    }
  }

  /** The coordinate bound the mapper clamps math coordinates to. */
  const CLAMP_BOUND: real := 1000.0

  /**
   * createCoordinateMapper(cx, cy, scale): math space (origin-centred, Y up)
   * to pixel space (centre (cx, cy), Y down), clamping each coordinate to
   * [-1000, 1000] first.
   */
  datatype Mapper = Mapper(cx: real, cy: real, scale: real)
  {
    /**
     * A point on a math axis lands on the pixel line through the centre; the
     * rest of the mapping is stated by the lemmas MapUnclamped, MapBounded and
     * MapRoundTrip below.
     */
    function Map(x: real, y: real): (p: Point)
      ensures x == 0.0 ==> p.x == cx
      ensures y == 0.0 ==> p.y == cy
    {
      var safeX := Clamp(x, -CLAMP_BOUND, CLAMP_BOUND);
      var safeY := Clamp(y, -CLAMP_BOUND, CLAMP_BOUND);
      Point(cx + safeX * scale, cy - safeY * scale)
    }

    /** The inverse of Map on unclamped points. */
    function Unmap(p: Point): Point
      requires scale != 0.0
    {
      Point((p.x - cx) / scale, (cy - p.y) / scale)
    }
  }

  lemma ScaledBound(c: real, s: real)
    requires -CLAMP_BOUND <= c <= CLAMP_BOUND
    ensures Abs(c * s) <= CLAMP_BOUND * Abs(s)
  {
    BoundedProduct(c, CLAMP_BOUND, s);
  }

  /** |c| <= b bounds |c * s| by b * |s|. */
  lemma BoundedProduct(c: real, b: real, s: real)
    requires -b <= c && c <= b
    ensures Abs(c * s) <= b * Abs(s)
  {
    if s > 0.0 {
      PositiveBoundedProduct(c, b, s);
    } else if s < 0.0 {
      PositiveBoundedProduct(c, b, -s);
      assert c * -s == -(c * s);
    } else {
      assert c * s == 0.0;
    }
  }

  lemma PositiveBoundedProduct(c: real, b: real, s: real)
    requires -b <= c && c <= b && s > 0.0
    ensures Abs(c * s) <= b * s
  {
    MulMono(s, c, b);
    MulMono(s, -b, c);
    assert -b * s == -(b * s);
  }

  /** However far out the math point, its pixel lies within 1000 scale units of the centre. */
  lemma MapBounded(m: Mapper, x: real, y: real)
    ensures Abs(m.Map(x, y).x - m.cx) <= CLAMP_BOUND * Abs(m.scale)
    ensures Abs(m.Map(x, y).y - m.cy) <= CLAMP_BOUND * Abs(m.scale)
  {
    ScaledBound(Clamp(x, -CLAMP_BOUND, CLAMP_BOUND), m.scale);
    ScaledBound(Clamp(y, -CLAMP_BOUND, CLAMP_BOUND), m.scale);
  }

  /** The math origin lands on the pixel centre. */
  lemma MapOrigin(m: Mapper)
    ensures m.Map(0.0, 0.0) == Point(m.cx, m.cy)
  {
  }

  /** Within the clamp bound, a pixel lies x * scale right of and y * scale above the centre. */
  lemma MapUnclamped(m: Mapper, x: real, y: real)
    requires Abs(x) <= CLAMP_BOUND && Abs(y) <= CLAMP_BOUND
    ensures m.Map(x, y).x - m.cx == x * m.scale && m.Map(x, y).y - m.cy == -(y * m.scale)
  {
  }

  /** Within the clamp bound, Unmap recovers the math point (round trip). */
  lemma MapRoundTrip(m: Mapper, x: real, y: real)
    requires m.scale != 0.0
    requires Abs(x) <= CLAMP_BOUND && Abs(y) <= CLAMP_BOUND
    ensures m.Unmap(m.Map(x, y)) == Point(x, y)
  {
    var p := m.Map(x, y);
    assert p.x - m.cx == x * m.scale;
    assert m.cy - p.y == y * m.scale;
  }

  /** With a positive scale, a higher math point has a smaller (higher on screen) pixel y. */
  lemma MapInvertsY(m: Mapper, x: real, y1: real, y2: real)
    requires m.scale > 0.0 && y1 < y2
    ensures m.Map(x, y2).y <= m.Map(x, y1).y
    ensures -CLAMP_BOUND <= y1 && y2 <= CLAMP_BOUND ==> m.Map(x, y2).y < m.Map(x, y1).y
  {
    var c1 := Clamp(y1, -CLAMP_BOUND, CLAMP_BOUND);
    var c2 := Clamp(y2, -CLAMP_BOUND, CLAMP_BOUND);
    assert c1 <= c2;
    assert -CLAMP_BOUND <= y1 && y2 <= CLAMP_BOUND ==> c1 < c2;
    MulMono(m.scale, c1, c2);
    calc {
      m.Map(x, y2).y;
    ==
      m.cy - c2 * m.scale;
    <= { assert c1 * m.scale <= c2 * m.scale; }
      m.cy - c1 * m.scale;
    ==
      m.Map(x, y1).y;
    }
    if -CLAMP_BOUND <= y1 && y2 <= CLAMP_BOUND {
      calc {
        m.Map(x, y2).y;
      ==
        m.cy - c2 * m.scale;
      < { assert c1 * m.scale < c2 * m.scale; }
        m.cy - c1 * m.scale;
      ==
        m.Map(x, y1).y;
      }
    }
  }

  /** What formatNumber shows: an infinity sign, or the number (fixed-point text not modelled). */
  datatype Readout = Infinite(symbol: string) | Fixed(value: real)

  /** formatNumber: "+∞"/"-∞" beyond ±1000, otherwise the number itself. */
  function FormatNumber(num: real): (r: Readout)
    ensures r.Infinite? <==> Abs(num) > 1000.0
    ensures r == Infinite("+∞") <==> num > 1000.0
    ensures r == Infinite("-∞") <==> num < -1000.0
    ensures r.Fixed? ==> r.value == num
  {
    if Abs(num) > 1000.0 then (if num < 0.0 then Infinite("-∞") else Infinite("+∞"))
    else Fixed(num)
  }
}
