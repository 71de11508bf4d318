/**
  Small value types and numeric helpers shared by every part of the simulation:
  2-D vectors over the reals, axis-aligned rectangles, the C++ truncating cast,
  count-down timers and the clamp used by the wanderers.

  Floating point is modelled by `real`; the transcendental functions the game
  calls (sqrtf, cosf, sinf, atan2f) are not interpreted and are passed around
  as a `Trig` record of total functions.
 */
module Geometry {

  datatype Vec = Vec(x: real, y: real) {
    function Plus(o: Vec): Vec { Vec(x + o.x, y + o.y) }
    function Minus(o: Vec): Vec { Vec(x - o.x, y - o.y) }
    function Scale(k: real): Vec { Vec(x * k, y * k) }
    function Div(k: real): Vec requires k != 0.0 { Vec(x / k, y / k) }
    function Dot(o: Vec): real { x * o.x + y * o.y }
    function Len2(): real { x * x + y * y }
  }

  const Zero: Vec := Vec(0.0, 0.0)

  /** Squared distance between two points. */
  function Dist2(a: Vec, b: Vec): real { a.Minus(b).Len2() }

  /** An axis-aligned rectangle given by its top-left corner and its size. */
  datatype Rect = Rect(x: real, y: real, width: real, height: real)

  /** The math library the game calls into; none of these is interpreted. */
  datatype Trig = Trig(
    sqrt: real -> real,
    cos: real -> real,
    sin: real -> real,
    atan2: (real, real) -> real)

  /** Length of a vector, computed with the library's square root. */
  function Length(m: Trig, v: Vec): real { m.sqrt(v.Len2()) }

  /** The unit vector at angle `a`, as the game builds it from cosf and sinf. */
  function Heading(m: Trig, a: real): Vec { Vec(m.cos(a), m.sin(a)) }

  /** The C++ cast `(int)x`: truncation toward zero. */
  function Trunc(x: real): (r: int)
    ensures 0.0 <= x ==> 0 <= r && r as real <= x < r as real + 1.0
    ensures x < 0.0 ==> r <= 0 && r as real - 1.0 < x <= r as real
  {
    if x >= 0.0 then x.Floor else -((-x).Floor)
  }

  /** A non-zero multiple of a positive `b` is at least `b` away from zero. */
  lemma MulBounds(b: int, k: int)
    requires b > 0
    ensures k >= 1 ==> b * k >= b
    ensures k <= -1 ==> b * k <= -b
    decreases if k >= 0 then k else -k
  {
    if k >= 1 {
      assert b * k == b * (k - 1) + b;
      if k > 1 { MulBounds(b, k - 1); }
    } else if k <= -1 {
      assert b * k == b * (k + 1) - b;
      if k < -1 { MulBounds(b, k + 1); }
    }
  }

  /** Euclidean division leaves a unique remainder in [0, b). */
  lemma ModUnique(x: int, b: int, q: int, r: int)
    requires b > 0 && 0 <= r < b && x == b * q + r
    ensures x % b == r
  {
    var k := q - x / b;
    assert b * k == x % b - r;
    MulBounds(b, k);
  }

  /** The C++ remainder `a % b`, whose sign follows the dividend. */
  function CRem(a: int, b: int): (r: int)
    requires b > 0
    ensures 0 <= a ==> 0 <= r < b
    ensures a < 0 ==> -b < r <= 0
    ensures (a - r) % b == 0
  {
    if a >= 0 then
      var r := a % b;
      ModUnique(a - r, b, a / b, 0);
      r
    else
      var r := -((-a) % b);
      ModUnique(a - r, b, -((-a) / b), 0);
      r
  }

  /** `clampf` of src/Animal.cpp: `v < lo ? lo : (v > hi ? hi : v)`. */
  function Clampf(v: real, lo: real, hi: real): (r: real)
    ensures lo <= hi ==> lo <= r <= hi
    ensures lo <= v <= hi ==> r == v
    ensures v < lo ==> r == lo
    ensures !(v < lo) && v > hi ==> r == hi
  {
    if v < lo then lo else if v > hi then hi else v
  }

  /** One frame of a count-down timer that is only decremented while positive. */
  function Tick(t: real, dt: real): real { if t > 0.0 then t - dt else t }

  function Min(a: real, b: real): real { if a <= b then a else b }
  function Max(a: real, b: real): real { if a >= b then a else b }
}
