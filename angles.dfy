/**
  Angle helpers of the hunter controller: wrapping an angle into (-PI, PI] and
  turning a heading toward a target heading by a bounded step.
 */
module Angles {

  /** raylib's PI. */
  const PI: real := 3.14159265358979323846

  /** `a` shifted by whole turns into (-PI, PI]. */
  ghost function Wrapped(a: real): real {
    a + 2.0 * PI * ((PI - a) / (2.0 * PI)).Floor as real
  }

  lemma WrappedInRange(a: real)
    ensures -PI < Wrapped(a) <= PI
  {
    var n := ((PI - a) / (2.0 * PI)).Floor;
    assert n as real <= (PI - a) / (2.0 * PI) < n as real + 1.0;
  }

  /** The only angle in (-PI, PI] that differs from `a` by whole turns is Wrapped(a). */
  lemma {:induction false} WrappedUnique(a: real, r: real, k: int)
    requires r == a + 2.0 * PI * k as real
    requires -PI < r <= PI
    ensures r == Wrapped(a)
  {
    var n := ((PI - a) / (2.0 * PI)).Floor;
    WrappedInRange(a);
    var w := Wrapped(a);
    assert w == a + 2.0 * PI * n as real;
    assert r - w == 2.0 * PI * (k - n) as real;
    assert -2.0 * PI < r - w < 2.0 * PI;
  }

  /** Adding whole turns does not change the wrapped angle. */
  lemma WrappedShift(a: real, k: int)
    ensures Wrapped(a + 2.0 * PI * k as real) == Wrapped(a)
  {
    var n := ((PI - a) / (2.0 * PI)).Floor;
    WrappedInRange(a);
    WrappedUnique(a + 2.0 * PI * k as real, Wrapped(a), n - k);
  }

  /**
    `wrapPi`: adds 2*PI while the angle is at or below -PI, then subtracts
    2*PI while it is above PI.
   */
  method WrapPi(a: real) returns (r: real)
    ensures -PI < r <= PI
    ensures r == Wrapped(a)
  {
    r := a;
    ghost var k := 0;
    while r <= -PI
      invariant r == a + 2.0 * PI * k as real
      decreases ((PI - r) / (2.0 * PI)).Floor
    {
      r := r + 2.0 * PI;
      k := k + 1;
    }
    while r > PI
      invariant r == a + 2.0 * PI * k as real
      invariant r > -PI
      decreases ((r + PI) / (2.0 * PI)).Floor
    {
      r := r - 2.0 * PI;
      k := k - 1;
    }
    WrappedUnique(a, r, k);
  }

  /**
    The turn `rotateTowards` applies for a wrapped difference `d`: clamped
    first from above at maxStep, then from below at -maxStep.
   */
  function TurnStep(d: real, maxStep: real): (t: real)
    ensures 0.0 <= maxStep ==> -maxStep <= t <= maxStep
    ensures 0.0 <= maxStep ==> (0.0 <= t <= d || d <= t <= 0.0)
    ensures 0.0 <= maxStep && -maxStep <= d <= maxStep ==> t == d
    ensures 0.0 <= maxStep && d > maxStep ==> t == maxStep
    ensures 0.0 <= maxStep && d < -maxStep ==> t == -maxStep
  {
    var c := if d > maxStep then maxStep else d;
    if c < -maxStep then -maxStep else c
  }

  /** The heading `rotateTowards` returns: the current heading turned by TurnStep of the wrapped difference. */
  ghost function Turned(current: real, target: real, maxStep: real): real {
    Wrapped(current + TurnStep(Wrapped(target - current), maxStep))
  }

  /** A target within one step is reached exactly, up to wrapping. */
  lemma TurnedReachesTarget(current: real, target: real, maxStep: real)
    requires 0.0 <= maxStep && -maxStep <= Wrapped(target - current) <= maxStep
    ensures Turned(current, target, maxStep) == Wrapped(target)
  {
    var n := ((PI - (target - current)) / (2.0 * PI)).Floor;
    assert current + TurnStep(Wrapped(target - current), maxStep) == target + 2.0 * PI * n as real;
    WrappedShift(target, n);
  }

  /**
    `rotateTowards`: the wrapped difference to the target, clamped to
    [-maxStep, maxStep], is added to the current heading and the sum wrapped.
    The ghost result `turn` is the clamped difference actually applied.
   */
  method RotateTowards(current: real, target: real, maxStep: real) returns (r: real, ghost turn: real)
    ensures r == Turned(current, target, maxStep) && turn == TurnStep(Wrapped(target - current), maxStep)
    ensures -PI < r <= PI
    ensures r == Wrapped(current + turn)
    ensures 0.0 <= maxStep ==> -maxStep <= turn <= maxStep
    ensures 0.0 <= maxStep ==>
              (0.0 <= turn <= Wrapped(target - current) || Wrapped(target - current) <= turn <= 0.0)
    ensures 0.0 <= maxStep && -maxStep <= Wrapped(target - current) <= maxStep ==> r == Wrapped(target)
    ensures 0.0 <= maxStep && Wrapped(target - current) > maxStep ==> turn == maxStep
    ensures 0.0 <= maxStep && Wrapped(target - current) < -maxStep ==> turn == -maxStep
  {
    var d := WrapPi(target - current);
    if d > maxStep {
      d := maxStep;
    }
    if d < -maxStep {
      d := -maxStep;
    }
    turn := d;
    r := WrapPi(current + d);
    WrappedInRange(current + d);
    if 0.0 <= maxStep && -maxStep <= Wrapped(target - current) <= maxStep {
      TurnedReachesTarget(current, target, maxStep);
    }
  }
}
