/**
 * The differential swerve velocity constraint: how far the path derivative
 * can be scaled on top of a base robot velocity before some wheel exceeds the
 * maximum wheel speed.
 */
module DiffSwerveConstraint {
  import opened Geometry
  import opened RealArith

  /** A velocity bound; `Infinite` is the double +infinity the source can return. */
  datatype Limit = Finite(value: real) | Infinite

  /** The outcome of `get`: a bound, or the UnsatisfiableConstraint exception. */
  datatype Outcome = Bound(limit: Limit) | UnsatisfiableConstraint

  function Max(a: real, b: real): real {
    if a >= b then a else b
  }

  /** `s` is no larger than the limit. */
  predicate Allows(limit: Limit, s: real) {
    limit.Infinite? || s <= limit.value
  }

  /** The smaller of two limits, +infinity being larger than every real. */
  function MinLimit(a: Limit, b: Limit): (r: Limit)
    ensures r == a || r == b
    ensures forall s :: Allows(r, s) <==> Allows(a, s) && Allows(b, s)
  {
    if a.Infinite? then b
    else if b.Infinite? then a
    else if a.value <= b.value then a else b
  }

  /** Speed `w0 + s * w` of a wheel stays within `[-maxWheelVel, maxWheelVel]`. */
  predicate WithinLimit(w0: real, w: real, maxWheelVel: real, s: real) {
    -maxWheelVel <= w0 + s * w <= maxWheelVel
  }

  /** At scale `s` the wheel speed `w0 + s * w` is exactly at +maxWheelVel or -maxWheelVel. */
  predicate AtLimit(w0: real, w: real, maxWheelVel: real, s: real) {
    Abs(w0 + s * w) == maxWheelVel
  }

  /** The largest absolute value in a non-empty list (Kotlin's `maxOf(::abs)`). */
  function MaxAbs(ws: seq<real>): (r: real)
    requires ws != []
    ensures forall i :: 0 <= i < |ws| ==> Abs(ws[i]) <= r
    ensures exists i :: 0 <= i < |ws| && r == Abs(ws[i])
  {
    if |ws| == 1 then Abs(ws[0])
    else
      var rest := MaxAbs(ws[1..]);
      assert forall i :: 1 <= i < |ws| ==> ws[i] == ws[1..][i - 1];
      Max(Abs(ws[0]), rest)
  }

  /**
   * The bound one wheel puts on the scale: the larger of the two scales at
   * which its speed reaches +maxWheelVel and -maxWheelVel. Dividing by a
   * zero `w` gives +infinity and -infinity there, so the term is infinite.
   */
  function WheelTerm(w0: real, w: real, maxWheelVel: real): (r: Limit)
    requires Abs(w0) < maxWheelVel
    ensures r.Infinite? <==> w == 0.0
    ensures r.Finite? ==> r.value > 0.0 && AtLimit(w0, w, maxWheelVel, r.value)
    ensures forall s {:trigger WithinLimit(w0, w, maxWheelVel, s)} ::
      0.0 <= s && Allows(r, s) ==> WithinLimit(w0, w, maxWheelVel, s)
  {
    if w == 0.0 then Infinite
    else
      var up := (maxWheelVel - w0) / w;
      var down := (-maxWheelVel - w0) / w;
      TermFacts(w0, w, maxWheelVel);
      Finite(Max(up, down))
  }

  /** How many wheel pairs `zip` forms: the length of the shorter list. */
  function ZipLength(a: seq<real>, b: seq<real>): nat {
    if |a| < |b| then |a| else |b|
  }

  /**
   * Kotlin's `wheel0.zip(wheel).minOf { ... }`: the smallest wheel term over
   * the paired wheels (infinite when no wheel bounds the scale).
   */
  function MinTerm(wheel0: seq<real>, wheel: seq<real>, maxWheelVel: real): (r: Limit)
    requires forall i :: 0 <= i < |wheel0| ==> Abs(wheel0[i]) < maxWheelVel
    ensures r.Infinite? <==> forall i :: 0 <= i < ZipLength(wheel0, wheel) ==> wheel[i] == 0.0
    ensures r.Finite? ==> exists i :: 0 <= i < ZipLength(wheel0, wheel) && r == WheelTerm(wheel0[i], wheel[i], maxWheelVel)
    ensures forall i :: 0 <= i < ZipLength(wheel0, wheel) ==> r == MinLimit(r, WheelTerm(wheel0[i], wheel[i], maxWheelVel))
    decreases |wheel0|
  {
    if wheel0 == [] || wheel == [] then Infinite
    else
      var rest := MinTerm(wheel0[1..], wheel[1..], maxWheelVel);
      assert forall i :: 1 <= i < ZipLength(wheel0, wheel) ==>
        wheel0[i] == wheel0[1..][i - 1] && wheel[i] == wheel[1..][i - 1];
      MinLimit(WheelTerm(wheel0[0], wheel[0], maxWheelVel), rest)
  }

  /**
   * The body of `get` on the two wheel-speed lists: `wheel0`, the wheel
   * speeds at the base robot velocity, and `wheel`, those of the path
   * derivative. Fails when a base wheel speed already reaches the maximum;
   * otherwise bounds the scale `s` of the derivative so that every wheel
   * speed `w0 + s * w` stays within the maximum.
   */
  function ScaleLimit(wheel0: seq<real>, wheel: seq<real>, maxWheelVel: real): (r: Outcome)
    requires wheel0 != []
    ensures r.UnsatisfiableConstraint? <==> exists i :: 0 <= i < |wheel0| && Abs(wheel0[i]) >= maxWheelVel
    ensures r.Bound? && r.limit.Finite? ==> r.limit.value > 0.0
    ensures r.Bound? ==> forall i, s {:trigger WithinLimit(wheel0[i], wheel[i], maxWheelVel, s)} ::
      0 <= i < ZipLength(wheel0, wheel) && 0.0 <= s && Allows(r.limit, s) ==> WithinLimit(wheel0[i], wheel[i], maxWheelVel, s)
    ensures r.Bound? ==> (r.limit.Infinite? <==> forall i :: 0 <= i < ZipLength(wheel0, wheel) ==> wheel[i] == 0.0)
    ensures r.Bound? && r.limit.Finite? ==>
      exists i :: 0 <= i < ZipLength(wheel0, wheel) && AtLimit(wheel0[i], wheel[i], maxWheelVel, r.limit.value)
  {
    if MaxAbs(wheel0) >= maxWheelVel then UnsatisfiableConstraint
    else
      var limit := MinTerm(wheel0, wheel, maxWheelVel);
      MinTermSafe(wheel0, wheel, maxWheelVel);
      MinTermReached(wheel0, wheel, maxWheelVel);
      Bound(limit)
  }

  /** A finite minimum is positive, and some wheel sits exactly at the limit there. */
  lemma MinTermReached(wheel0: seq<real>, wheel: seq<real>, maxWheelVel: real)
    requires forall i :: 0 <= i < |wheel0| ==> Abs(wheel0[i]) < maxWheelVel
    ensures var r := MinTerm(wheel0, wheel, maxWheelVel);
      r.Finite? ==>
        r.value > 0.0 &&
        exists i :: 0 <= i < ZipLength(wheel0, wheel) && AtLimit(wheel0[i], wheel[i], maxWheelVel, r.value)
  {
    var r := MinTerm(wheel0, wheel, maxWheelVel);
    if r.Finite? {
      var i :| 0 <= i < ZipLength(wheel0, wheel) && r == WheelTerm(wheel0[i], wheel[i], maxWheelVel);
      assert AtLimit(wheel0[i], wheel[i], maxWheelVel, r.value);
    }
  }

  /** Every scale the minimum allows keeps every paired wheel within the limit. */
  lemma MinTermSafe(wheel0: seq<real>, wheel: seq<real>, maxWheelVel: real)
    requires forall i :: 0 <= i < |wheel0| ==> Abs(wheel0[i]) < maxWheelVel
    ensures forall i, s {:trigger WithinLimit(wheel0[i], wheel[i], maxWheelVel, s)} ::
      0 <= i < ZipLength(wheel0, wheel) && 0.0 <= s && Allows(MinTerm(wheel0, wheel, maxWheelVel), s) ==>
      WithinLimit(wheel0[i], wheel[i], maxWheelVel, s)
  {
    var r := MinTerm(wheel0, wheel, maxWheelVel);
    forall i, s | 0 <= i < ZipLength(wheel0, wheel) && 0.0 <= s && Allows(r, s)
      ensures WithinLimit(wheel0[i], wheel[i], maxWheelVel, s)
    {
      var t := WheelTerm(wheel0[i], wheel[i], maxWheelVel);
      assert r == MinLimit(r, t);
      assert Allows(t, s);
    }
  }

  /**
   * The constraint's `get`: wheel speeds at the base velocity and at the
   * path derivative (converted from the field frame to the robot frame) come
   * from the differential swerve kinematics, passed in with the frame change
   * as functions. The previous derivative and the arc length step are unused.
   */
  function Get(maxWheelVel: real, trackWidth: real, pose: Pose2d, deriv: Pose2d, baseRobotVel: Pose2d,
               robotToWheelVelocities: (Pose2d, real) -> seq<real>,
               fieldToRobotVelocity: (Pose2d, Pose2d) -> Pose2d): (r: Outcome)
    requires robotToWheelVelocities(baseRobotVel, trackWidth) != []
    ensures var wheel0 := robotToWheelVelocities(baseRobotVel, trackWidth);
      r.UnsatisfiableConstraint? <==> exists i :: 0 <= i < |wheel0| && Abs(wheel0[i]) >= maxWheelVel
    ensures var wheel0 := robotToWheelVelocities(baseRobotVel, trackWidth);
      var wheel := robotToWheelVelocities(fieldToRobotVelocity(pose, deriv), trackWidth);
      r.Bound? ==> forall i, s {:trigger WithinLimit(wheel0[i], wheel[i], maxWheelVel, s)} ::
        0 <= i < ZipLength(wheel0, wheel) && 0.0 <= s && Allows(r.limit, s) ==> WithinLimit(wheel0[i], wheel[i], maxWheelVel, s)
    ensures r.Bound? && r.limit.Finite? ==> r.limit.value > 0.0
    ensures var wheel := robotToWheelVelocities(fieldToRobotVelocity(pose, deriv), trackWidth);
      r.Bound? ==> (r.limit.Infinite? <==>
        forall i :: 0 <= i < ZipLength(robotToWheelVelocities(baseRobotVel, trackWidth), wheel) ==> wheel[i] == 0.0)
    ensures var wheel0 := robotToWheelVelocities(baseRobotVel, trackWidth);
      var wheel := robotToWheelVelocities(fieldToRobotVelocity(pose, deriv), trackWidth);
      r.Bound? && r.limit.Finite? ==>
        exists i :: 0 <= i < ZipLength(wheel0, wheel) && AtLimit(wheel0[i], wheel[i], maxWheelVel, r.limit.value)
  {
    var wheel0 := robotToWheelVelocities(baseRobotVel, trackWidth);
    var robotDeriv := fieldToRobotVelocity(pose, deriv);
    var wheel := robotToWheelVelocities(robotDeriv, trackWidth);
    ScaleLimit(wheel0, wheel, maxWheelVel)
  }

  lemma TermFacts(w0: real, w: real, m: real)
    requires Abs(w0) < m && w != 0.0
    ensures var t := Max((m - w0) / w, (-m - w0) / w);
      t > 0.0 && AtLimit(w0, w, m, t) &&
      forall s {:trigger WithinLimit(w0, w, m, s)} :: 0.0 <= s <= t ==> WithinLimit(w0, w, m, s)
  {
    if w > 0.0 {
      ForwardTerm(w0, w, m);
    } else {
      BackwardTerm(w0, w, m);
    }
  }

  /** A wheel speeding up along the path is bounded by reaching +maxWheelVel. */
  lemma ForwardTerm(w0: real, w: real, m: real)
    requires -m < w0 < m && w > 0.0
    ensures Max((m - w0) / w, (-m - w0) / w) == (m - w0) / w
    ensures (m - w0) / w > 0.0 && w0 + (m - w0) / w * w == m
    ensures forall s {:trigger WithinLimit(w0, w, m, s)} :: 0.0 <= s <= (m - w0) / w ==> WithinLimit(w0, w, m, s)
  {
    DivPositive(m - w0, w);
    DivNegativeByPositive(-m - w0, w);
    forall s | 0.0 <= s <= (m - w0) / w
      ensures WithinLimit(w0, w, m, s)
    {
      ForwardWithin(w0, w, m, s);
    }
  }

  /** A wheel slowing down along the path is bounded by reaching -maxWheelVel. */
  lemma BackwardTerm(w0: real, w: real, m: real)
    requires -m < w0 < m && w < 0.0
    ensures Max((m - w0) / w, (-m - w0) / w) == (-m - w0) / w
    ensures (-m - w0) / w > 0.0 && w0 + (-m - w0) / w * w == -m
    ensures forall s {:trigger WithinLimit(w0, w, m, s)} :: 0.0 <= s <= (-m - w0) / w ==> WithinLimit(w0, w, m, s)
  {
    DivPositive(m + w0, -w);
    assert (-m - w0) / w == (m + w0) / (-w);
    DivPositive(m - w0, -w);
    assert (m - w0) / w == -((m - w0) / (-w));
    forall s | 0.0 <= s <= (-m - w0) / w
      ensures WithinLimit(w0, w, m, s)
    {
      BackwardWithin(w0, w, m, s);
    }
  }

  lemma ForwardWithin(w0: real, w: real, m: real, s: real)
    requires -m < w0 < m && w > 0.0 && 0.0 <= s <= (m - w0) / w
    ensures -m <= w0 + s * w <= m
  {
    MulLeRight(s, (m - w0) / w, w);
    assert (m - w0) / w * w == m - w0;
    MulNonNeg(s, w);
  }

  lemma BackwardWithin(w0: real, w: real, m: real, s: real)
    requires -m < w0 < m && w < 0.0 && 0.0 <= s <= (-m - w0) / w
    ensures -m <= w0 + s * w <= m
  {
    MulLeRight(s, (-m - w0) / w, -w);
    assert (-m - w0) / w * (-w) == m + w0;
    MulNonNeg(s, -w);
    assert s * (-w) == -(s * w);
  }

  lemma DivPositive(a: real, b: real)
    requires a > 0.0 && b > 0.0
    ensures a / b > 0.0
  {
  }

  lemma DivNegativeByPositive(a: real, b: real)
    requires a < 0.0 && b > 0.0
    ensures a / b < 0.0
  {
  }
}
