/**
 * Swerve drive kinematics on module vectors. Modules are listed front left,
 * rear left, rear right, front right (counter-clockwise); x points forward,
 * y to the left, and headings are measured counter-clockwise in radians.
 * `trackWidth` is the lateral distance between the two sides, `wheelBase`
 * the distance between front and rear modules, and `wheelBase` defaults to
 * `trackWidth` in every entry point.
 */
module SwerveKinematics {
  import opened Geometry

  /**
   * Where each module sits relative to the robot centre, in module order:
   * (+wheelBase/2, +trackWidth/2) for front left, and so on around the robot.
   */
  function ModuleOffsets(trackWidth: real, wheelBase: real := trackWidth): seq<Vector2d> {
    var x := wheelBase / 2.0;
    var y := trackWidth / 2.0;
    [Vector2d(x, y), Vector2d(-x, y), Vector2d(-x, -y), Vector2d(x, -y)]
  }

  /**
   * Velocity of a point of a rigid body at offset `r` from its centre, when
   * the body moves with `vel`: the linear velocity plus `heading x r`.
   */
  function PointVelocity(vel: Pose2d, r: Vector2d): Vector2d {
    Vector2d(vel.x - vel.heading * r.y, vel.y + vel.heading * r.x)
  }

  /**
   * The velocity vector of each module for a robot velocity given in the
   * robot's frame: exactly the rigid-body velocity of each module position.
   */
  function ModuleVelocityVectors(robotVel: Pose2d, trackWidth: real, wheelBase: real := trackWidth): (r: seq<Vector2d>)
    ensures |r| == 4
    ensures forall i :: 0 <= i < 4 ==> r[i] == PointVelocity(robotVel, ModuleOffsets(trackWidth, wheelBase)[i])
  {
    var x := wheelBase / 2.0;
    var y := trackWidth / 2.0;
    var vx := robotVel.x;
    var vy := robotVel.y;
    var omega := robotVel.heading;
    [
      Vector2d(vx - omega * y, vy + omega * x),
      Vector2d(vx - omega * y, vy - omega * x),
      Vector2d(vx + omega * y, vy - omega * x),
      Vector2d(vx + omega * y, vy + omega * x)
    ]
  }

  /** The module acceleration vectors: the velocity formula applied to (ax, ay, alpha). */
  function ModuleAccelerationVectors(robotAccel: Pose2d, trackWidth: real, wheelBase: real := trackWidth): (r: seq<Vector2d>)
    ensures r == ModuleVelocityVectors(robotAccel, trackWidth, wheelBase)
  {
    var x := wheelBase / 2.0;
    var y := trackWidth / 2.0;
    var ax := robotAccel.x;
    var ay := robotAccel.y;
    var alpha := robotAccel.heading;
    var r := [
      Vector2d(ax - alpha * y, ay + alpha * x),
      Vector2d(ax - alpha * y, ay - alpha * x),
      Vector2d(ax + alpha * y, ay - alpha * x),
      Vector2d(ax + alpha * y, ay + alpha * x)
    ];
    var v := ModuleVelocityVectors(robotAccel, trackWidth, wheelBase);
    assert forall i :: 0 <= i < 4 ==> r[i] == v[i];
    r
  }

  /**
   * The rate at which a module's velocity vector turns, given the vector and
   * its derivative: the cross product over the squared length.
   */
  function TurnRate(vel: Vector2d, accel: Vector2d): (r: real)
    requires vel.Dot(vel) != 0.0
    ensures r * vel.Dot(vel) == vel.Cross(accel)
    ensures accel.Cross(vel) == 0.0 ==> r == 0.0
  {
    (vel.x * accel.y - vel.y * accel.x) / (vel.x * vel.x + vel.y * vel.y)
  }

  /**
   * Each module's angular velocity, in module order. The source divides by
   * each module's squared speed, so every module must be moving.
   */
  function ModuleAngularVelocities(robotVel: Pose2d, robotAccel: Pose2d, trackWidth: real, wheelBase: real := trackWidth): (r: seq<real>)
    requires forall i :: 0 <= i < 4 ==>
      ModuleVelocityVectors(robotVel, trackWidth, wheelBase)[i].Dot(ModuleVelocityVectors(robotVel, trackWidth, wheelBase)[i]) != 0.0
    ensures |r| == 4
    ensures forall i :: 0 <= i < 4 ==>
      var v := ModuleVelocityVectors(robotVel, trackWidth, wheelBase)[i];
      r[i] * v.Dot(v) == v.Cross(ModuleAccelerationVectors(robotAccel, trackWidth, wheelBase)[i])
  {
    var vels := ModuleVelocityVectors(robotVel, trackWidth, wheelBase);
    var accels := ModuleAccelerationVectors(robotAccel, trackWidth, wheelBase);
    seq(4, i requires 0 <= i < 4 => TurnRate(vels[i], accels[i]))
  }

  /** Sum of the x coordinates of a list of vectors. */
  function SumX(vs: seq<Vector2d>): real {
    if vs == [] then 0.0 else vs[0].x + SumX(vs[1..])
  }

  /** Sum of the y coordinates of a list of vectors. */
  function SumY(vs: seq<Vector2d>): real {
    if vs == [] then 0.0 else vs[0].y + SumY(vs[1..])
  }

  /**
   * Squared distance from the robot centre to each module. The inverse
   * kinematics divides by four times this value.
   */
  function RadiusSquared(trackWidth: real, wheelBase: real): real {
    (wheelBase / 2.0) * (wheelBase / 2.0) + (trackWidth / 2.0) * (trackWidth / 2.0)
  }

  /** One module's vector: its wheel speed times the unit vector of its orientation. */
  function WheelVector(vel: real, orientation: real, cos: real -> real, sin: real -> real): Vector2d {
    Vector2d(vel * cos(orientation), vel * sin(orientation))
  }

  /**
   * The module vectors built from wheel speeds and module orientations, the
   * two lists paired up to the length of the shorter one. `cos` and `sin`
   * are parameters.
   */
  function WheelVectors(wheelVelocities: seq<real>, moduleOrientations: seq<real>,
                        cos: real -> real, sin: real -> real): (r: seq<Vector2d>)
    ensures |r| == if |wheelVelocities| < |moduleOrientations| then |wheelVelocities| else |moduleOrientations|
    ensures forall i :: 0 <= i < |r| ==> r[i] == WheelVector(wheelVelocities[i], moduleOrientations[i], cos, sin)
  {
    if wheelVelocities == [] || moduleOrientations == [] then []
    else
      [WheelVector(wheelVelocities[0], moduleOrientations[0], cos, sin)]
      + WheelVectors(wheelVelocities[1..], moduleOrientations[1..], cos, sin)
  }

  /**
   * The robot velocity that best explains the given module vectors: the
   * average vector gives (vx, vy), and the rotational components of the
   * first four modules give the heading rate. The first four vectors are
   * read by position, so at least four are needed.
   */
  function RobotVelocityFromVectors(vectors: seq<Vector2d>, trackWidth: real, wheelBase: real := trackWidth): (r: Pose2d)
    requires |vectors| >= 4
    requires RadiusSquared(trackWidth, wheelBase) != 0.0
    ensures 4.0 * r.x == SumX(vectors) && 4.0 * r.y == SumY(vectors)
    ensures r.heading * (4.0 * RadiusSquared(trackWidth, wheelBase)) == OffsetMoment(vectors, trackWidth, wheelBase)
  {
    var x := wheelBase / 2.0;
    var y := trackWidth / 2.0;
    var vx := SumX(vectors) / 4.0;
    var vy := SumY(vectors) / 4.0;
    var frontLeft, rearLeft, rearRight, frontRight := vectors[0], vectors[1], vectors[2], vectors[3];
    var num := y * (rearRight.x + frontRight.x - frontLeft.x - rearLeft.x) +
               x * (frontLeft.y + frontRight.y - rearLeft.y - rearRight.y);
    var den := 4.0 * (x * x + y * y);
    assert num == OffsetMoment(vectors, trackWidth, wheelBase);
    assert den == 4.0 * RadiusSquared(trackWidth, wheelBase);
    var omega := num / den;
    QuotientTimesDivisor(num, den);
    Pose2d(vx, vy, omega)
  }

  /**
   * The moment of the first four module vectors about the robot centre: the
   * sum of each module's offset crossed with its vector (`Cross` written out).
   */
  function OffsetMoment(vectors: seq<Vector2d>, trackWidth: real, wheelBase: real): real
    requires |vectors| >= 4
  {
    var o := ModuleOffsets(trackWidth, wheelBase);
    (o[0].x * vectors[0].y - o[0].y * vectors[0].x) + (o[1].x * vectors[1].y - o[1].y * vectors[1].x) +
    (o[2].x * vectors[2].y - o[2].y * vectors[2].x) + (o[3].x * vectors[3].y - o[3].y * vectors[3].x)
  }

  lemma QuotientTimesDivisor(num: real, den: real)
    requires den != 0.0
    ensures (num / den) * den == num
  {
  }

  /**
   * The source's wheelToRobotVelocities: module vectors from wheel readings,
   * then the solve above. Readings that are those of a rigid motion of the
   * robot give that motion back.
   */
  function WheelToRobotVelocities(wheelVelocities: seq<real>, moduleOrientations: seq<real>,
                                  cos: real -> real, sin: real -> real,
                                  trackWidth: real, wheelBase: real := trackWidth): (r: Pose2d)
    requires |wheelVelocities| >= 4 && |moduleOrientations| >= 4
    requires RadiusSquared(trackWidth, wheelBase) != 0.0
    ensures forall m ::
      (WheelVectors(wheelVelocities, moduleOrientations, cos, sin) == ModuleVelocityVectors(m, trackWidth, wheelBase)) ==> r == m
  {
    var vectors := WheelVectors(wheelVelocities, moduleOrientations, cos, sin);
    RigidVectorsSolved(vectors, trackWidth, wheelBase);
    RobotVelocityFromVectors(vectors, trackWidth, wheelBase)
  }

  /** The solve inverts the forward map on every list of vectors that it produces. */
  lemma RigidVectorsSolved(vectors: seq<Vector2d>, trackWidth: real, wheelBase: real)
    requires |vectors| >= 4
    requires RadiusSquared(trackWidth, wheelBase) != 0.0
    ensures forall m :: vectors == ModuleVelocityVectors(m, trackWidth, wheelBase) ==>
                        RobotVelocityFromVectors(vectors, trackWidth, wheelBase) == m
  {
    forall m | vectors == ModuleVelocityVectors(m, trackWidth, wheelBase)
      ensures RobotVelocityFromVectors(vectors, trackWidth, wheelBase) == m
    {
      RoundTrip(m, trackWidth, wheelBase);
    }
  }

  /** Sums over a list of exactly four vectors, written out. */
  lemma SumOfFour(vs: seq<Vector2d>)
    requires |vs| == 4
    ensures SumX(vs) == vs[0].x + vs[1].x + vs[2].x + vs[3].x
    ensures SumY(vs) == vs[0].y + vs[1].y + vs[2].y + vs[3].y
  {
    var t1, t2, t3 := vs[1..], vs[2..], vs[3..];
    assert t1[1..] == t2 && t2[1..] == t3 && t3[1..] == [];
    assert SumX(t3) == vs[3].x && SumY(t3) == vs[3].y;
  }

  /**
   * The rotational terms cancel: the four module vectors always sum to four
   * times the robot's linear velocity, so a pure rotation sums to zero.
   */
  lemma ModuleVectorsSum(robotVel: Pose2d, trackWidth: real, wheelBase: real)
    ensures SumX(ModuleVelocityVectors(robotVel, trackWidth, wheelBase)) == 4.0 * robotVel.x
    ensures SumY(ModuleVelocityVectors(robotVel, trackWidth, wheelBase)) == 4.0 * robotVel.y
  {
    SumOfFour(ModuleVelocityVectors(robotVel, trackWidth, wheelBase));
  }

  /** Without rotation every module moves with the robot's linear velocity. */
  lemma NoRotationSameVectors(robotVel: Pose2d, trackWidth: real, wheelBase: real)
    requires robotVel.heading == 0.0
    ensures forall i :: 0 <= i < 4 ==>
      ModuleVelocityVectors(robotVel, trackWidth, wheelBase)[i] == robotVel.Vec()
  {
  }

  /** The forward map is additive in the robot velocity. */
  lemma ModuleVectorsAdditive(a: Pose2d, b: Pose2d, trackWidth: real, wheelBase: real, i: int)
    requires 0 <= i < 4
    ensures ModuleVelocityVectors(a.Plus(b), trackWidth, wheelBase)[i] ==
      ModuleVelocityVectors(a, trackWidth, wheelBase)[i].Plus(ModuleVelocityVectors(b, trackWidth, wheelBase)[i])
  {
    PointVelocityAdditive(a, b, ModuleOffsets(trackWidth, wheelBase)[i]);
  }

  lemma PointVelocityAdditive(a: Pose2d, b: Pose2d, r: Vector2d)
    ensures PointVelocity(a.Plus(b), r) == PointVelocity(a, r).Plus(PointVelocity(b, r))
  {
    var h := a.heading;
    var g := b.heading;
    assert (h + g) * r.x == h * r.x + g * r.x;
    assert (h + g) * r.y == h * r.y + g * r.y;
  }

  /** The forward map commutes with scaling the robot velocity. */
  lemma ModuleVectorsHomogeneous(a: Pose2d, k: real, trackWidth: real, wheelBase: real, i: int)
    requires 0 <= i < 4
    ensures ModuleVelocityVectors(a.Times(k), trackWidth, wheelBase)[i] ==
      ModuleVelocityVectors(a, trackWidth, wheelBase)[i].Times(k)
  {
    PointVelocityHomogeneous(a, k, ModuleOffsets(trackWidth, wheelBase)[i]);
  }

  lemma PointVelocityHomogeneous(a: Pose2d, k: real, r: Vector2d)
    ensures PointVelocity(a.Times(k), r) == PointVelocity(a, r).Times(k)
  {
    var h := a.heading;
    assert (k * h) * r.x == k * (h * r.x);
    assert (k * h) * r.y == k * (h * r.y);
    assert k * a.x - (k * h) * r.y == k * (a.x - h * r.y);
    assert k * a.y + (k * h) * r.x == k * (a.y + h * r.x);
  }

  /**
   * Round trip: solving for the robot velocity from the module vectors that
   * a robot velocity produces gives that velocity back, whenever the modules
   * are not all at the centre.
   */
  lemma {:induction false} RoundTrip(robotVel: Pose2d, trackWidth: real, wheelBase: real)
    requires RadiusSquared(trackWidth, wheelBase) != 0.0
    ensures RobotVelocityFromVectors(ModuleVelocityVectors(robotVel, trackWidth, wheelBase), trackWidth, wheelBase) == robotVel
  {
    var vs := ModuleVelocityVectors(robotVel, trackWidth, wheelBase);
    ModuleVectorsSum(robotVel, trackWidth, wheelBase);
    var x := wheelBase / 2.0;
    var y := trackWidth / 2.0;
    var w := robotVel.heading;
    var num := y * (vs[2].x + vs[3].x - vs[0].x - vs[1].x) + x * (vs[0].y + vs[3].y - vs[1].y - vs[2].y);
    assert vs[2].x + vs[3].x - vs[0].x - vs[1].x == 4.0 * w * y;
    assert vs[0].y + vs[3].y - vs[1].y - vs[2].y == 4.0 * w * x;
    assert num == w * (4.0 * (x * x + y * y));
    assert 4.0 * (x * x + y * y) != 0.0;
  }

  /**
   * Wheel readings whose vectors are those of a rigid motion give that motion
   * back through the source's entry point.
   */
  lemma WheelReadingsRoundTrip(wheelVelocities: seq<real>, moduleOrientations: seq<real>,
                               cos: real -> real, sin: real -> real,
                               robotVel: Pose2d, trackWidth: real, wheelBase: real)
    requires |wheelVelocities| >= 4 && |moduleOrientations| >= 4
    requires RadiusSquared(trackWidth, wheelBase) != 0.0
    requires WheelVectors(wheelVelocities, moduleOrientations, cos, sin) == ModuleVelocityVectors(robotVel, trackWidth, wheelBase)
    ensures WheelToRobotVelocities(wheelVelocities, moduleOrientations, cos, sin, trackWidth, wheelBase) == robotVel
  {
    RoundTrip(robotVel, trackWidth, wheelBase);
  }
}
