/**
 * The shared part of a differential swerve drive. Each module is driven by
 * two gears (top and bottom): turning them in opposite directions spins the
 * wheel, turning them together rotates the module. The drive stores the wheel
 * speeds and accelerations last commanded, points each module's orientation
 * controller at the commanded orientation, and on every update composes the
 * four gear velocities and accelerations from the stored wheel motion, the
 * controllers' outputs, and the direction each module should face.
 */
module DiffSwerveDrive {
  import opened Geometry
  import opened RealArith

  /** kotlin.math.PI. */
  const PI: real := 3.141592653589793

  predicate IsInteger(q: real) {
    q.Floor as real == q
  }

  /**
   * `x.wrap(lo, hi)`: the value in [lo, hi) that differs from `x` by a whole
   * number of periods `hi - lo`.
   */
  function Wrap(x: real, lo: real, hi: real): (r: real)
    requires lo < hi
    ensures lo <= r < hi
    ensures IsInteger((x - r) / (hi - lo))
  {
    var q := (x - lo) / (hi - lo);
    var n := q.Floor;
    var r := FractionOfSpan(lo, hi - lo, q - n as real);
    WholePeriods(x, lo, hi - lo, q, n as real, r);
    r
  }

  /** The point a fraction `f` of the way along [lo, lo + span). */
  function FractionOfSpan(lo: real, span: real, f: real): (r: real)
    requires span > 0.0 && 0.0 <= f < 1.0
    ensures lo <= r < lo + span
    ensures r == lo + f * span
  {
    FractionInSpan(f, span);
    lo + f * span
  }

  /** A fraction in [0, 1) of a positive span lies in [0, span). */
  lemma FractionInSpan(f: real, span: real)
    requires span > 0.0 && 0.0 <= f < 1.0
    ensures 0.0 <= f * span < span
  {
    MulNonNeg(f, span);
    MulLtRight(f, 1.0, span);
  }

  /** Cutting off the fractional part of (x - lo) / span leaves whole periods. */
  lemma WholePeriods(x: real, lo: real, span: real, q: real, n: real, r: real)
    requires span > 0.0 && q == (x - lo) / span && r == lo + (q - n) * span
    ensures (x - r) / span == n
  {
    assert q * span == x - lo;
    assert x - r == n * span;
  }

  /**
   * The direction a module drives its wheel: 1 when its orientation error,
   * wrapped into [-pi, pi), is at most a quarter turn, and -1 otherwise (the
   * module then drives backwards instead of turning the long way round).
   */
  function Direction(target: real, current: real): (r: int)
    ensures r == 1 || r == -1
    ensures r == 1 <==> Abs(Wrap(target - current, -PI, PI)) <= PI * 0.5
  {
    if Abs(Wrap(target - current, -PI, PI)) <= PI * 0.5 then 1 else -1
  }

  /**
   * Wrap picks the one representative: any value in [lo, hi) that differs
   * from `x` by a whole number of periods is the wrapped value.
   */
  lemma {:induction false} WrapUnique(x: real, lo: real, hi: real, y: real)
    requires lo < hi && lo <= y < hi
    requires IsInteger((x - y) / (hi - lo))
    ensures Wrap(x, lo, hi) == y
  {
    var span := hi - lo;
    var r := Wrap(x, lo, hi);
    var a := (x - r) / span;
    var b := (x - y) / span;
    var k := b.Floor - a.Floor;
    assert b - a == k as real;
    assert r - y == (b - a) * span == (k as real) * span;
    SmallWholeMultipleIsZero(k, span, r - y);
  }

  /** The only whole multiple of a positive span strictly inside (-span, span) is 0. */
  lemma SmallWholeMultipleIsZero(k: int, span: real, diff: real)
    requires span > 0.0 && diff == (k as real) * span && -span < diff < span
    ensures k == 0
  {
    if k >= 1 {
      MulLeRight(1.0, k as real, span);
    } else if k <= -1 {
      MulLeRight(k as real, -1.0, span);
    }
  }

  /**
   * A module never turns more than a quarter turn: when its direction is -1
   * it drives backwards, and the module turned half way round is then within
   * a quarter turn of its target.
   */
  lemma {:induction false} ModuleTurnsAtMostQuarterTurn(target: real, current: real)
    ensures Direction(target, current) == 1 ==> Abs(Wrap(target - current, -PI, PI)) <= PI * 0.5
    ensures Direction(target, current) == -1 ==> Abs(Wrap(target - current - PI, -PI, PI)) < PI * 0.5
  {
    var d := target - current;
    var w := Wrap(d, -PI, PI);
    var k := (d - w) / (PI - -PI);
    if Direction(target, current) == -1 {
      if w > 0.0 {
        var y := w - PI;
        assert (d - PI - y) / (PI - -PI) == k;
        WrapUnique(d - PI, -PI, PI, y);
      } else {
        var y := w + PI;
        assert (d - PI - y) / (PI - -PI) == k - 1.0;
        assert (k - 1.0).Floor == k.Floor - 1;
        WrapUnique(d - PI, -PI, PI, y);
      }
    }
  }

  /**
   * The four gear velocities, ordered top left, bottom left, top right,
   * bottom right: for each module the wheel speed (times its direction) with
   * opposite signs on its two gears, plus the module's control output on both.
   */
  function GearVelocities(leftVel: real, leftDirection: int, leftControl: real,
                          rightVel: real, rightDirection: int, rightControl: real): (r: seq<real>)
    ensures |r| == 4
    ensures r[0] + r[1] == 2.0 * leftControl && r[0] - r[1] == 2.0 * leftVel * leftDirection as real
    ensures r[2] + r[3] == 2.0 * rightControl && r[2] - r[3] == 2.0 * rightVel * rightDirection as real
  {
    [
      leftVel * leftDirection as real + leftControl, -leftVel * leftDirection as real + leftControl,
      rightVel * rightDirection as real + rightControl, -rightVel * rightDirection as real + rightControl
    ]
  }

  /**
   * The four gear accelerations, in the same order: each module's wheel
   * acceleration (times its direction) with opposite signs on its two gears.
   */
  function GearAccelerations(leftAccel: real, leftDirection: int,
                             rightAccel: real, rightDirection: int): (r: seq<real>)
    ensures |r| == 4
    ensures r[0] + r[1] == 0.0 && r[0] - r[1] == 2.0 * leftAccel * leftDirection as real
    ensures r[2] + r[3] == 0.0 && r[2] - r[3] == 2.0 * rightAccel * rightDirection as real
  {
    [
      leftAccel * leftDirection as real, -leftAccel * leftDirection as real,
      rightAccel * rightDirection as real, -rightAccel * rightDirection as real
    ]
  }

  /**
   * Velocities and accelerations share their shape: the gear velocities are
   * what the acceleration formula gives for the wheel speeds, shifted by each
   * module's control output on both of its gears.
   */
  lemma VelocitiesAreShiftedAccelerations(leftVel: real, leftDirection: int, leftControl: real,
                                          rightVel: real, rightDirection: int, rightControl: real)
    ensures var v := GearVelocities(leftVel, leftDirection, leftControl, rightVel, rightDirection, rightControl);
      var a := GearAccelerations(leftVel, leftDirection, rightVel, rightDirection);
      v[0] == a[0] + leftControl && v[1] == a[1] + leftControl &&
      v[2] == a[2] + rightControl && v[3] == a[3] + rightControl
  {
  }

  /** The motion a drive is asked to follow: a velocity and an acceleration. */
  datatype DriveSignal = DriveSignal(vel: Pose2d := Pose2d(), accel: Pose2d := Pose2d())

  /**
   * The differential swerve kinematics the drive calls; its formulas are not
   * part of this model. Each function returns one entry per module (left,
   * right).
   */
  datatype DiffSwerveKinematics = DiffSwerveKinematics(
    robotToWheelVelocities: (Pose2d, real) -> seq<real>,
    robotToWheelAccelerations: (Pose2d, Pose2d, real) -> seq<real>,
    robotToModuleOrientations: (Pose2d, real) -> seq<real>)

  /** The state of a module orientation controller that the drive sets. */
  class PIDController {
    var targetPosition: real
    var inputBounded: bool
    var minInput: real
    var maxInput: real
    var outputBounded: bool

    constructor()
      ensures !inputBounded
    {
      inputBounded := false;
    }

    method SetTarget(target: real)
      modifies this
      ensures targetPosition == target
      ensures inputBounded == old(inputBounded) && minInput == old(minInput) && maxInput == old(maxInput)
      ensures outputBounded == old(outputBounded)
    {
      targetPosition := target;
    }

    /** Marks the input as an angle-like value wrapping around on [minInput, maxInput]. */
    method SetInputBounds(minInput: real, maxInput: real)
      modifies this
      ensures inputBounded && this.minInput == minInput && this.maxInput == maxInput
      ensures targetPosition == old(targetPosition) && outputBounded == old(outputBounded)
    {
      inputBounded := true;
      this.minInput := minInput;
      this.maxInput := maxInput;
    }

    method SetOutputBounded(bounded: bool)
      modifies this
      ensures outputBounded == bounded
      ensures targetPosition == old(targetPosition)
      ensures inputBounded == old(inputBounded) && minInput == old(minInput) && maxInput == old(maxInput)
    {
      outputBounded := bounded;
    }
  }

  class DiffSwerveDriveBase {
    const trackWidth: real
    const kinematics: DiffSwerveKinematics
    const leftModuleController: PIDController
    const rightModuleController: PIDController

    var leftVel: real
    var leftAccel: real
    var rightVel: real
    var rightAccel: real

    /** The two modules have controllers of their own. */
    predicate Valid()
      reads this
    {
      leftModuleController != rightModuleController
    }

    /**
     * Both controllers take angles wrapping on a half turn and have unbounded
     * output; nothing has been commanded yet.
     */
    constructor(trackWidth: real, kinematics: DiffSwerveKinematics)
      ensures Valid()
      ensures this.trackWidth == trackWidth && this.kinematics == kinematics
      ensures fresh(leftModuleController) && fresh(rightModuleController)
      ensures leftModuleController.inputBounded && rightModuleController.inputBounded
      ensures leftModuleController.minInput == -PI * 0.5 && leftModuleController.maxInput == PI * 0.5
      ensures rightModuleController.minInput == -PI * 0.5 && rightModuleController.maxInput == PI * 0.5
      ensures !leftModuleController.outputBounded && !rightModuleController.outputBounded
      ensures leftVel == 0.0 && leftAccel == 0.0 && rightVel == 0.0 && rightAccel == 0.0
    {
      this.trackWidth := trackWidth;
      this.kinematics := kinematics;
      var left := new PIDController();
      var right := new PIDController();
      left.SetInputBounds(-PI * 0.5, PI * 0.5);
      right.SetInputBounds(-PI * 0.5, PI * 0.5);
      left.SetOutputBounded(false);
      right.SetOutputBounded(false);
      leftModuleController := left;
      rightModuleController := right;
      leftVel := 0.0;
      leftAccel := 0.0;
      rightVel := 0.0;
      rightAccel := 0.0;
    }

    /**
     * Stores the wheel speeds and accelerations for the signal and points
     * each module's controller at the module orientation it calls for.
     */
    method SetDriveSignal(driveSignal: DriveSignal)
      requires Valid()
      requires |kinematics.robotToWheelVelocities(driveSignal.vel, trackWidth)| >= 2
      requires |kinematics.robotToWheelAccelerations(driveSignal.vel, driveSignal.accel, trackWidth)| >= 2
      requires |kinematics.robotToModuleOrientations(driveSignal.vel, trackWidth)| >= 2
      modifies this, leftModuleController, rightModuleController
      ensures Valid()
      ensures var vels := kinematics.robotToWheelVelocities(driveSignal.vel, trackWidth);
        leftVel == vels[0] && rightVel == vels[1]
      ensures var accels := kinematics.robotToWheelAccelerations(driveSignal.vel, driveSignal.accel, trackWidth);
        leftAccel == accels[0] && rightAccel == accels[1]
      ensures var orientations := kinematics.robotToModuleOrientations(driveSignal.vel, trackWidth);
        leftModuleController.targetPosition == orientations[0] &&
        rightModuleController.targetPosition == orientations[1]
      ensures ControllerSettingsKept(leftModuleController) && ControllerSettingsKept(rightModuleController)
    {
      var vels := kinematics.robotToWheelVelocities(driveSignal.vel, trackWidth);
      var accels := kinematics.robotToWheelAccelerations(driveSignal.vel, driveSignal.accel, trackWidth);
      var orientations := kinematics.robotToModuleOrientations(driveSignal.vel, trackWidth);
      leftVel := vels[0];
      leftAccel := accels[0];
      rightVel := vels[1];
      rightAccel := accels[1];
      leftModuleController.SetTarget(orientations[0]);
      rightModuleController.SetTarget(orientations[1]);
    }

    /**
     * Open-loop driving: wheel speeds and orientations for the power as if
     * the track width were 1, and no acceleration.
     */
    method SetDrivePower(drivePower: Pose2d)
      requires Valid()
      requires |kinematics.robotToWheelVelocities(drivePower, 1.0)| >= 2
      requires |kinematics.robotToModuleOrientations(drivePower, 1.0)| >= 2
      modifies this, leftModuleController, rightModuleController
      ensures Valid()
      ensures var vels := kinematics.robotToWheelVelocities(drivePower, 1.0);
        leftVel == vels[0] && rightVel == vels[1]
      ensures leftAccel == 0.0 && rightAccel == 0.0
      ensures var orientations := kinematics.robotToModuleOrientations(drivePower, 1.0);
        leftModuleController.targetPosition == orientations[0] &&
        rightModuleController.targetPosition == orientations[1]
      ensures ControllerSettingsKept(leftModuleController) && ControllerSettingsKept(rightModuleController)
    {
      var vels := kinematics.robotToWheelVelocities(drivePower, 1.0);
      var orientations := kinematics.robotToModuleOrientations(drivePower, 1.0);
      leftVel := vels[0];
      leftAccel := 0.0;
      rightVel := vels[1];
      rightAccel := 0.0;
      leftModuleController.SetTarget(orientations[0]);
      rightModuleController.SetTarget(orientations[1]);
    }

    /** A controller's bounds are as they were before the call. */
    twostate predicate ControllerSettingsKept(c: PIDController)
      reads c
    {
      c.inputBounded == old(c.inputBounded) && c.minInput == old(c.minInput) &&
      c.maxInput == old(c.maxInput) && c.outputBounded == old(c.outputBounded)
    }

    /**
     * One orientation update: given the measured module orientations and the
     * controllers' outputs for them, the gear velocities and accelerations
     * handed to the motors, in the order top left, bottom left, top right,
     * bottom right.
     */
    method UpdateModuleOrientations(left: real, right: real, leftControl: real, rightControl: real)
      returns (velocities: seq<real>, accelerations: seq<real>)
      ensures |velocities| == 4 && |accelerations| == 4
      ensures var leftDirection := Direction(leftModuleController.targetPosition, left);
        var rightDirection := Direction(rightModuleController.targetPosition, right);
        velocities == GearVelocities(leftVel, leftDirection, leftControl, rightVel, rightDirection, rightControl) &&
        accelerations == GearAccelerations(leftAccel, leftDirection, rightAccel, rightDirection)
    {
      var leftDirection := Direction(leftModuleController.targetPosition, left);
      var rightDirection := Direction(rightModuleController.targetPosition, right);
      velocities := GearVelocities(leftVel, leftDirection, leftControl, rightVel, rightDirection, rightControl);
      accelerations := GearAccelerations(leftAccel, leftDirection, rightAccel, rightDirection);
    }
  }
}
