/**
 * Odometry localizers for tank and swerve drives. Each keeps a pose
 * estimate, an optional pose velocity, and two caches of the previous
 * update (the wheel positions and the external heading); each update moves
 * the pose by the robot-relative motion the wheels saw since the last one.
 *
 * Sensor readings that the source pulls from callbacks (wheel positions,
 * wheel velocities, module orientations) are method parameters here. The
 * drive's external heading sensor is the `Drive` object below. The helpers
 * the source calls but does not define here — tank kinematics, the relative
 * odometry update and angle normalisation — are function-valued fields.
 */
module Localization {
  import opened Geometry
  import opened Wrappers
  import SwerveKinematics

  /** The part of a drive that the localizers use: its external heading sensor. */
  class Drive {
    var externalHeading: real
    var externalHeadingVelocity: Option<real>

    constructor(externalHeading: real, externalHeadingVelocity: Option<real>)
      ensures this.externalHeading == externalHeading
      ensures this.externalHeadingVelocity == externalHeadingVelocity
    {
      this.externalHeading := externalHeading;
      this.externalHeadingVelocity := externalHeadingVelocity;
    }
  }

  /** Kotlin's `current.zip(last).map { it.first - it.second }`. */
  function WheelDeltas(current: seq<real>, last: seq<real>): (r: seq<real>)
    ensures |r| == if |current| < |last| then |current| else |last|
    ensures forall i :: 0 <= i < |r| ==> r[i] == current[i] - last[i]
  {
    if current == [] || last == [] then []
    else [current[0] - last[0]] + WheelDeltas(current[1..], last[1..])
  }

  /**
   * The heading change used for an odometry step: the normalised difference
   * of the external heading readings when both the current and the previous
   * one exist, and the heading change seen by the wheels otherwise.
   */
  function HeadingDelta(extHeading: Option<real>, lastExtHeading: Option<real>,
                        wheelHeadingDelta: real, normDelta: real -> real): (r: real)
    ensures extHeading.Some? && lastExtHeading.Some? ==> r == normDelta(extHeading.value - lastExtHeading.value)
    ensures extHeading.None? || lastExtHeading.None? ==> r == wheelHeadingDelta
  {
    match (extHeading, lastExtHeading)
    case (Some(h), Some(lastH)) => normDelta(h - lastH)
    case _ => wheelHeadingDelta
  }

  /** The external heading reading, when the sensor is in use. */
  function HeadingReading(useExternalHeading: bool, heading: real): (r: Option<real>)
    ensures r.Some? <==> useExternalHeading
    ensures r.Some? ==> r.value == heading
  {
    if useExternalHeading then Some(heading) else None
  }

  /**
   * The velocity reported by a localizer: the wheel-derived velocity, with its
   * heading rate replaced by the external heading velocity when there is one.
   */
  function WithHeadingVelocity(vel: Pose2d, extHeadingVel: Option<real>): (r: Pose2d)
    ensures r.Vec() == vel.Vec()
    ensures r.heading == if extHeadingVel.Some? then extHeadingVel.value else vel.heading
  {
    if extHeadingVel.Some? then PoseOf(vel.Vec(), extHeadingVel.value) else vel
  }

  /**
   * One odometry step from the previous wheel positions: none when there is
   * no previous reading, otherwise the relative update by the wheel motion
   * with the heading change chosen by `HeadingDelta`.
   */
  function OdometryPose(pose: Pose2d, lastWheelPositions: seq<real>, robotPoseDelta: Pose2d,
                        extHeading: Option<real>, lastExtHeading: Option<real>,
                        normDelta: real -> real, relativeOdometryUpdate: (Pose2d, Pose2d) -> Pose2d): (r: Pose2d)
    ensures lastWheelPositions == [] ==> r == pose
    ensures lastWheelPositions != [] ==>
      r == relativeOdometryUpdate(pose, PoseOf(robotPoseDelta.Vec(), HeadingDelta(extHeading, lastExtHeading, robotPoseDelta.heading, normDelta)))
  {
    if lastWheelPositions == [] then pose
    else
      var finalHeadingDelta := HeadingDelta(extHeading, lastExtHeading, robotPoseDelta.heading, normDelta);
      relativeOdometryUpdate(pose, PoseOf(robotPoseDelta.Vec(), finalHeadingDelta))
  }

  /** When both external readings exist, the wheels' own heading estimate does not matter. */
  lemma ExternalHeadingWins(extHeading: real, lastExtHeading: real, a: real, b: real, normDelta: real -> real)
    ensures HeadingDelta(Some(extHeading), Some(lastExtHeading), a, normDelta) ==
            HeadingDelta(Some(extHeading), Some(lastExtHeading), b, normDelta)
  {
  }

  /** Localizer for a tank drive. */
  class TankLocalizer {
    const trackWidth: real
    const drive: Drive
    const useExternalHeading: bool
    /** TankKinematics.wheelToRobotVelocities(wheels, trackWidth). */
    const wheelToRobotVelocities: (seq<real>, real) -> Pose2d
    /** Kinematics.relativeOdometryUpdate(pose, robotPoseDelta). */
    const relativeOdometryUpdate: (Pose2d, Pose2d) -> Pose2d
    /** Angle.normDelta: the normalised angle difference (no range is relied on here). */
    const normDelta: real -> real

    var poseEstimate: Pose2d
    var poseVelocity: Option<Pose2d>
    var lastWheelPositions: seq<real>
    var lastExtHeading: Option<real>

    constructor(trackWidth: real, drive: Drive,
                wheelToRobotVelocities: (seq<real>, real) -> Pose2d,
                relativeOdometryUpdate: (Pose2d, Pose2d) -> Pose2d,
                normDelta: real -> real,
                useExternalHeading: bool := true)
      ensures this.trackWidth == trackWidth && this.drive == drive
      ensures this.useExternalHeading == useExternalHeading
      ensures this.wheelToRobotVelocities == wheelToRobotVelocities
      ensures this.relativeOdometryUpdate == relativeOdometryUpdate
      ensures this.normDelta == normDelta
      ensures poseEstimate == Pose2d() && poseVelocity == None
      ensures lastWheelPositions == [] && lastExtHeading == None
    {
      this.trackWidth := trackWidth;
      this.drive := drive;
      this.useExternalHeading := useExternalHeading;
      this.wheelToRobotVelocities := wheelToRobotVelocities;
      this.relativeOdometryUpdate := relativeOdometryUpdate;
      this.normDelta := normDelta;
      poseEstimate := Pose2d();
      poseVelocity := None;
      lastWheelPositions := [];
      lastExtHeading := None;
    }

    /**
     * The poseEstimate setter: forgets both caches (so the next update only
     * takes readings), moves the external heading sensor to the new heading
     * when it is in use, and stores the pose.
     */
    method SetPoseEstimate(value: Pose2d)
      modifies this, drive
      ensures poseEstimate == value
      ensures lastWheelPositions == [] && lastExtHeading == None
      ensures poseVelocity == old(poseVelocity)
      ensures drive.externalHeading == if useExternalHeading then value.heading else old(drive.externalHeading)
      ensures drive.externalHeadingVelocity == old(drive.externalHeadingVelocity)
    {
      lastWheelPositions := [];
      lastExtHeading := None;
      if useExternalHeading {
        drive.externalHeading := value.heading;
      }
      poseEstimate := value;
    }

    /**
     * One localization step from the current wheel positions and, when
     * available, wheel velocities. The pose moves only when there were
     * previous positions; the velocity keeps its old value when no wheel
     * velocities are given; the caches then hold the readings just taken.
     */
    method Update(wheelPositions: seq<real>, wheelVelocities: Option<seq<real>>)
      modifies this
      ensures var extHeading := HeadingReading(useExternalHeading, drive.externalHeading);
        poseEstimate == OdometryPose(old(poseEstimate), old(lastWheelPositions),
          wheelToRobotVelocities(WheelDeltas(wheelPositions, old(lastWheelPositions)), trackWidth),
          extHeading, old(lastExtHeading), normDelta, relativeOdometryUpdate)
      ensures wheelVelocities.None? ==> poseVelocity == old(poseVelocity)
      ensures wheelVelocities.Some? ==>
        poseVelocity == Some(WithHeadingVelocity(wheelToRobotVelocities(wheelVelocities.value, trackWidth),
          if useExternalHeading then drive.externalHeadingVelocity else None))
      ensures lastWheelPositions == wheelPositions
      ensures lastExtHeading == HeadingReading(useExternalHeading, drive.externalHeading)
    {
      var extHeading := HeadingReading(useExternalHeading, drive.externalHeading);
      if lastWheelPositions != [] {
        var wheelDeltas := WheelDeltas(wheelPositions, lastWheelPositions);
        var robotPoseDelta := wheelToRobotVelocities(wheelDeltas, trackWidth);
        var finalHeadingDelta := HeadingDelta(extHeading, lastExtHeading, robotPoseDelta.heading, normDelta);
        poseEstimate := relativeOdometryUpdate(poseEstimate, PoseOf(robotPoseDelta.Vec(), finalHeadingDelta));
      }
      var extHeadingVel := if useExternalHeading then drive.externalHeadingVelocity else None;
      if wheelVelocities.Some? {
        poseVelocity := Some(WithHeadingVelocity(wheelToRobotVelocities(wheelVelocities.value, trackWidth), extHeadingVel));
      }
      lastWheelPositions := wheelPositions;
      lastExtHeading := extHeading;
    }
  }

  /**
   * The swerve localizer's solve for the robot motion, as written: the
   * inverse kinematics receives the wheel base where it expects the track
   * width and the track width where it expects the wheel base.
   */
  function SwerveRobotMotion(wheels: seq<real>, moduleOrientations: seq<real>,
                             cos: real -> real, sin: real -> real,
                             trackWidth: real, wheelBase: real): (r: Pose2d)
    requires |wheels| >= 4 && |moduleOrientations| >= 4
    requires SwerveKinematics.RadiusSquared(trackWidth, wheelBase) != 0.0
    ensures r.Vec() == SwerveKinematics.WheelToRobotVelocities(wheels, moduleOrientations, cos, sin, trackWidth, wheelBase).Vec()
  {
    SwappedRadius(trackWidth, wheelBase);
    SwerveKinematics.WheelToRobotVelocities(wheels, moduleOrientations, cos, sin, wheelBase, trackWidth)
  }

  /** The same solve with the dimensions in the parameter slots that name them. */
  function IntendedSwerveRobotMotion(wheels: seq<real>, moduleOrientations: seq<real>,
                                     cos: real -> real, sin: real -> real,
                                     trackWidth: real, wheelBase: real): (r: Pose2d)
    requires |wheels| >= 4 && |moduleOrientations| >= 4
    requires SwerveKinematics.RadiusSquared(trackWidth, wheelBase) != 0.0
    ensures forall m ::
      (SwerveKinematics.WheelVectors(wheels, moduleOrientations, cos, sin) ==
       SwerveKinematics.ModuleVelocityVectors(m, trackWidth, wheelBase)) ==> r == m
  {
    SwerveKinematics.WheelToRobotVelocities(wheels, moduleOrientations, cos, sin, trackWidth, wheelBase)
  }

  /** Swapping the two dimensions keeps the modules' distance from the centre. */
  lemma SwappedRadius(trackWidth: real, wheelBase: real)
    ensures SwerveKinematics.RadiusSquared(wheelBase, trackWidth) == SwerveKinematics.RadiusSquared(trackWidth, wheelBase)
  {
  }

  /**
   * With the dimensions in their intended slots, wheel readings produced by
   * a rigid motion of the robot give that motion back.
   */
  lemma IntendedMotionRoundTrip(wheels: seq<real>, moduleOrientations: seq<real>,
                                cos: real -> real, sin: real -> real,
                                robotMotion: Pose2d, trackWidth: real, wheelBase: real)
    requires |wheels| >= 4 && |moduleOrientations| >= 4
    requires SwerveKinematics.RadiusSquared(trackWidth, wheelBase) != 0.0
    requires SwerveKinematics.WheelVectors(wheels, moduleOrientations, cos, sin) ==
             SwerveKinematics.ModuleVelocityVectors(robotMotion, trackWidth, wheelBase)
    ensures IntendedSwerveRobotMotion(wheels, moduleOrientations, cos, sin, trackWidth, wheelBase) == robotMotion
  {
    SwerveKinematics.WheelReadingsRoundTrip(wheels, moduleOrientations, cos, sin, robotMotion, trackWidth, wheelBase);
  }

  /**
   * As written, the solve misreads rotation on a non-square robot: with a
   * track width of 2 and a wheel base of 1, a robot turning in place at 1
   * rad/s is read as turning at 0.8 rad/s (the intended solve gives 1 rad/s
   * back, by `SwerveKinematics.RoundTrip`).
   */
  lemma SwappedSolveMisreadsTurn()
    ensures SwerveKinematics.RobotVelocityFromVectors(
      SwerveKinematics.ModuleVelocityVectors(Pose2d(0.0, 0.0, 1.0), 2.0, 1.0), 1.0, 2.0) == Pose2d(0.0, 0.0, 0.8)
  {
    SwappedTurnInPlace(1.0, 2.0, 1.0, 0.8);
  }

  /** A turn in place at rate `w` is read by the swapped solve as a turn in place at rate `read`. */
  lemma SwappedTurnInPlace(w: real, trackWidth: real, wheelBase: real, read: real)
    requires SwerveKinematics.RadiusSquared(trackWidth, wheelBase) != 0.0
    requires read * (trackWidth * trackWidth + wheelBase * wheelBase) == 2.0 * trackWidth * wheelBase * w
    ensures SwerveKinematics.RobotVelocityFromVectors(
      SwerveKinematics.ModuleVelocityVectors(Pose2d(0.0, 0.0, w), trackWidth, wheelBase), wheelBase, trackWidth) == Pose2d(0.0, 0.0, read)
  {
    SwappedSolveScalesTurn(Pose2d(0.0, 0.0, w), trackWidth, wheelBase);
    var r := SwerveKinematics.RobotVelocityFromVectors(
      SwerveKinematics.ModuleVelocityVectors(Pose2d(0.0, 0.0, w), trackWidth, wheelBase), wheelBase, trackWidth);
    var s := trackWidth * trackWidth + wheelBase * wheelBase;
    assert s != 0.0 by {
      assert 4.0 * SwerveKinematics.RadiusSquared(trackWidth, wheelBase) == s;
    }
    MulCancel(r.heading, read, s);
  }

  lemma MulCancel(a: real, b: real, c: real)
    requires a * c == b * c && c != 0.0
    ensures a == b
  {
    assert (a - b) * c == 0.0;
  }

  /**
   * In general the swapped solve reads the linear velocity correctly but
   * scales the turn rate by 2 * trackWidth * wheelBase / (trackWidth^2 + wheelBase^2),
   * which is 1 only for a square robot.
   */
  lemma {:induction false} SwappedSolveScalesTurn(robotVel: Pose2d, trackWidth: real, wheelBase: real)
    requires SwerveKinematics.RadiusSquared(trackWidth, wheelBase) != 0.0
    ensures SwerveKinematics.RadiusSquared(wheelBase, trackWidth) != 0.0
    ensures var r := SwerveKinematics.RobotVelocityFromVectors(
        SwerveKinematics.ModuleVelocityVectors(robotVel, trackWidth, wheelBase), wheelBase, trackWidth);
      r.Vec() == robotVel.Vec() &&
      r.heading * (trackWidth * trackWidth + wheelBase * wheelBase) == 2.0 * trackWidth * wheelBase * robotVel.heading
  {
    SwappedRadius(trackWidth, wheelBase);
    var vs := SwerveKinematics.ModuleVelocityVectors(robotVel, trackWidth, wheelBase);
    SwerveKinematics.ModuleVectorsSum(robotVel, trackWidth, wheelBase);
    var x := wheelBase / 2.0;
    var y := trackWidth / 2.0;
    var w := robotVel.heading;
    assert vs[2].x + vs[3].x - vs[0].x - vs[1].x == 4.0 * w * y;
    assert vs[0].y + vs[3].y - vs[1].y - vs[2].y == 4.0 * w * x;
    var num := x * (vs[2].x + vs[3].x - vs[0].x - vs[1].x) + y * (vs[0].y + vs[3].y - vs[1].y - vs[2].y);
    assert num == 8.0 * w * x * y;
    var den := 4.0 * (y * y + x * x);
    assert den * 4.0 == 4.0 * (trackWidth * trackWidth + wheelBase * wheelBase);
    var r := SwerveKinematics.RobotVelocityFromVectors(vs, wheelBase, trackWidth);
    assert r.heading == num / den;
    assert r.heading * den == num;
  }

  /** Localizer for a swerve drive. */
  class SwerveLocalizer {
    const trackWidth: real
    const wheelBase: real
    const drive: Drive
    const useExternalHeading: bool
    const cos: real -> real
    const sin: real -> real
    const relativeOdometryUpdate: (Pose2d, Pose2d) -> Pose2d
    const normDelta: real -> real

    var poseEstimate: Pose2d
    var poseVelocity: Option<Pose2d>
    var lastWheelPositions: seq<real>
    var lastExtHeading: Option<real>

    /** The modules are not all at the robot centre. */
    predicate Valid()
      reads this
    {
      SwerveKinematics.RadiusSquared(trackWidth, wheelBase) != 0.0
    }

    constructor(trackWidth: real, drive: Drive, cos: real -> real, sin: real -> real,
                relativeOdometryUpdate: (Pose2d, Pose2d) -> Pose2d, normDelta: real -> real,
                wheelBase: real := trackWidth, useExternalHeading: bool := true)
      requires SwerveKinematics.RadiusSquared(trackWidth, wheelBase) != 0.0
      ensures Valid()
      ensures this.trackWidth == trackWidth && this.wheelBase == wheelBase && this.drive == drive
      ensures this.useExternalHeading == useExternalHeading
      ensures this.cos == cos && this.sin == sin
      ensures this.relativeOdometryUpdate == relativeOdometryUpdate && this.normDelta == normDelta
      ensures poseEstimate == Pose2d() && poseVelocity == None
      ensures lastWheelPositions == [] && lastExtHeading == None
    {
      this.trackWidth := trackWidth;
      this.wheelBase := wheelBase;
      this.drive := drive;
      this.useExternalHeading := useExternalHeading;
      this.cos := cos;
      this.sin := sin;
      this.relativeOdometryUpdate := relativeOdometryUpdate;
      this.normDelta := normDelta;
      poseEstimate := Pose2d();
      poseVelocity := None;
      lastWheelPositions := [];
      lastExtHeading := None;
    }

    /** The poseEstimate setter: the same reset as the tank localizer's. */
    method SetPoseEstimate(value: Pose2d)
      requires Valid()
      modifies this, drive
      ensures Valid()
      ensures poseEstimate == value
      ensures lastWheelPositions == [] && lastExtHeading == None
      ensures poseVelocity == old(poseVelocity)
      ensures drive.externalHeading == if useExternalHeading then value.heading else old(drive.externalHeading)
      ensures drive.externalHeadingVelocity == old(drive.externalHeadingVelocity)
    {
      lastWheelPositions := [];
      lastExtHeading := None;
      if useExternalHeading {
        drive.externalHeading := value.heading;
      }
      poseEstimate := value;
    }

    /**
     * One localization step from the wheel positions, the module
     * orientations and, when available, the wheel velocities. Unlike the
     * tank localizer, the velocity is cleared when no wheel velocities are
     * given. Both solves go through `SwerveRobotMotion`, with the dimensions
     * swapped as the source passes them; a solve reads four modules, so
     * the lists it uses must cover four, while a step with no solve (no
     * previous positions and no wheel velocities) accepts readings of any
     * length.
     */
    method Update(wheelPositions: seq<real>, moduleOrientations: seq<real>, wheelVelocities: Option<seq<real>>)
      requires Valid()
      requires lastWheelPositions != [] ==>
        |wheelPositions| >= 4 && |lastWheelPositions| >= 4 && |moduleOrientations| >= 4
      requires wheelVelocities.Some? ==> |wheelVelocities.value| >= 4 && |moduleOrientations| >= 4
      modifies this
      ensures Valid()
      ensures var extHeading := HeadingReading(useExternalHeading, drive.externalHeading);
        poseEstimate == OdometryPose(old(poseEstimate), old(lastWheelPositions),
          if old(lastWheelPositions) == [] then Pose2d()
          else SwerveRobotMotion(WheelDeltas(wheelPositions, old(lastWheelPositions)), moduleOrientations, cos, sin, trackWidth, wheelBase),
          extHeading, old(lastExtHeading), normDelta, relativeOdometryUpdate)
      ensures poseVelocity == if wheelVelocities.None? then None
        else Some(WithHeadingVelocity(SwerveRobotMotion(wheelVelocities.value, moduleOrientations, cos, sin, trackWidth, wheelBase),
          if useExternalHeading then drive.externalHeadingVelocity else None))
      ensures lastWheelPositions == wheelPositions
      ensures lastExtHeading == HeadingReading(useExternalHeading, drive.externalHeading)
    {
      var extHeading := HeadingReading(useExternalHeading, drive.externalHeading);
      if lastWheelPositions != [] {
        var wheelDeltas := WheelDeltas(wheelPositions, lastWheelPositions);
        var robotPoseDelta := SwerveRobotMotion(wheelDeltas, moduleOrientations, cos, sin, trackWidth, wheelBase);
        var finalHeadingDelta := HeadingDelta(extHeading, lastExtHeading, robotPoseDelta.heading, normDelta);
        poseEstimate := relativeOdometryUpdate(poseEstimate, PoseOf(robotPoseDelta.Vec(), finalHeadingDelta));
      }
      var extHeadingVel := if useExternalHeading then drive.externalHeadingVelocity else None;
      if wheelVelocities.Some? {
        var vel := SwerveRobotMotion(wheelVelocities.value, moduleOrientations, cos, sin, trackWidth, wheelBase);
        poseVelocity := Some(WithHeadingVelocity(vel, extHeadingVel));
      } else {
        poseVelocity := None;
      }
      lastWheelPositions := wheelPositions;
      lastExtHeading := extHeading;
    }
  }

  /**
   * Resetting the pose and then updating leaves the pose where it was set:
   * the first update after a reset only records readings.
   */
  method FirstUpdateAfterResetKeepsPose(loc: TankLocalizer, value: Pose2d, wheelPositions: seq<real>)
    modifies loc, loc.drive
    ensures loc.poseEstimate == value
    ensures loc.lastWheelPositions == wheelPositions
  {
    loc.SetPoseEstimate(value);
    loc.Update(wheelPositions, None);
  }

  /** The same for the swerve localizer. */
  method SwerveFirstUpdateAfterResetKeepsPose(loc: SwerveLocalizer, value: Pose2d,
                                              wheelPositions: seq<real>, moduleOrientations: seq<real>)
    requires loc.Valid()
    modifies loc, loc.drive
    ensures loc.poseEstimate == value
    ensures loc.poseVelocity == None
  {
    loc.SetPoseEstimate(value);
    loc.Update(wheelPositions, moduleOrientations, None);
  }
}
