# joos motion and command core, in Dafny

This project models the core of joos, a robotics library for FTC robots. It
covers the exact-arithmetic part of its motion stack and the small state
machines of its command scheduler:

- **Geometry** (`geometry.dfy`): the immutable `Vector2d` and `Pose2d`
  records. Their componentwise operators and the scalar extension operators
  are modelled, with the algebra that relates them: inverses, symmetry,
  antisymmetry, and the orthogonality of a projection.
- **Swerve kinematics** (`swerve_kinematics.dfy`):
  - the forward map from a robot velocity to the four module velocity
    vectors (front left, rear left, rear right, front right), and the same
    map for accelerations;
  - the module turn rates;
  - the closed-form inverse solve from wheel readings, with the proof that
    the inverse undoes the forward map.
- **Differential swerve velocity constraint** (`diff_swerve_constraint.dfy`):
  the bound on the scale of a path derivative that keeps every wheel within
  its maximum speed. An infeasible base velocity gives an explicit
  `UnsatisfiableConstraint` outcome.
- **Localizers** (`localization.dfy`): the tank and swerve odometry
  localizers.
  - Both are classes whose `Update` and `SetPoseEstimate` methods rewrite the
    pose estimate, the pose velocity and the two caches of the previous
    reading.
  - The swerve localizer keeps the source's argument order when it calls the
    inverse kinematics (see Findings).
- **Differential swerve drive** (`diff_swerve_drive.dfy`):
  - the stored wheel motion and the module orientation controllers' targets;
  - the choice of the direction each module drives;
  - the composition of the four gear velocities and accelerations.
- **Commands** (`commands.dfy`): the sequential and race command groups,
  over child commands that log the calls they receive.
- **Trigger** (`trigger.dfy`): the analog trigger treated as a button with
  edge detection.

Numbers are exact reals. The helpers the core calls but does not define are
parameters or function-valued fields:

- tank and differential swerve kinematics;
- the relative odometry update;
- angle normalisation;
- the field-to-robot frame change;
- cosine and sine;
- the PID controller's output.

## Model

| member | source | states |
|---|---|---|
| Geometry.Vector2d.Plus | navigation/src/main/kotlin/com/amarcolini/joos/geometry/Vector2d.kt:50-51 | the zero vector is an identity on either side; `Minus` undoes the sum (see `PlusMinusCancel`) |
| Geometry.Vector2d.Minus | navigation/src/main/kotlin/com/amarcolini/joos/geometry/Vector2d.kt:56-57 | adding back the subtrahend gives the original vector; the difference is zero exactly when the vectors are equal |
| Geometry.Vector2d.Times | navigation/src/main/kotlin/com/amarcolini/joos/geometry/Vector2d.kt:62 | the scaled vector is parallel to the original (zero cross product) and its dot with the original is the scalar times the squared length |
| Geometry.Vector2d.Div | navigation/src/main/kotlin/com/amarcolini/joos/geometry/Vector2d.kt:67 | for a non-zero scalar, multiplying the quotient back gives the original vector |
| Geometry.Vector2d.Negate | navigation/src/main/kotlin/com/amarcolini/joos/geometry/Vector2d.kt:72 | the negation is the additive inverse and equals scaling by -1 |
| Geometry.Vector2d.DistSquared | navigation/src/main/kotlin/com/amarcolini/joos/geometry/Vector2d.kt:87 | the squared distance is never negative and is zero from a vector to itself |
| Geometry.Vector2d.ProjectOnto | navigation/src/main/kotlin/com/amarcolini/joos/geometry/Vector2d.kt:92 | the projection lies on the line of the target vector, and the residual is orthogonal to it |
| Geometry.Vector2d.EpsilonEquals | navigation/src/main/kotlin/com/amarcolini/joos/geometry/Vector2d.kt:103-104 | closeness holds coordinate by coordinate, so every vector is close to itself whenever the scalar relation is reflexive |
| Geometry.ScalarTimes | navigation/src/main/kotlin/com/amarcolini/joos/geometry/Vector2d.kt:109 | `s * v` is undone by `s / v` for non-zero `s` |
| Geometry.ScalarDiv | navigation/src/main/kotlin/com/amarcolini/joos/geometry/Vector2d.kt:111 | `s / v` divides the vector by the scalar: multiplying it by `s` gives `v` back |
| Geometry.PlusMinusCancel | navigation/src/main/kotlin/com/amarcolini/joos/geometry/Vector2d.kt:50-57 | `(a + b) - b == a`, and `a - a` is the zero vector |
| Geometry.TimesDivCancel | navigation/src/main/kotlin/com/amarcolini/joos/geometry/Vector2d.kt:62-67 | `(v * s) / s == v` for non-zero `s` |
| Geometry.DotSymmetric | navigation/src/main/kotlin/com/amarcolini/joos/geometry/Vector2d.kt:77 | dot is symmetric; `v dot v` is `x² + y²`, the squared distance from the origin |
| Geometry.CrossAntisymmetric | navigation/src/main/kotlin/com/amarcolini/joos/geometry/Vector2d.kt:82 | `a cross b == -(b cross a)` and `v cross v == 0` |
| Geometry.DistSquaredSymmetric | navigation/src/main/kotlin/com/amarcolini/joos/geometry/Vector2d.kt:87 | the squared distance does not depend on argument order |
| Geometry.ScalarOperatorsCommute | navigation/src/main/kotlin/com/amarcolini/joos/geometry/Vector2d.kt:109-111 | `s * v == v * s`, and `s / v` means `v / s` |
| Geometry.Pose2d.Vec | navigation/src/main/kotlin/com/amarcolini/joos/geometry/Pose2d.kt:20 | the position part: together with the heading it rebuilds the pose (and `PoseOf` builds a pose back from it) |
| Geometry.Pose2d.Plus | navigation/src/main/kotlin/com/amarcolini/joos/geometry/Pose2d.kt:30-31 | positions add as vectors and headings as scalars |
| Geometry.Pose2d.Minus | navigation/src/main/kotlin/com/amarcolini/joos/geometry/Pose2d.kt:36-37 | subtraction is undone by adding back, and gives the origin exactly for equal poses |
| Geometry.Pose2d.Times | navigation/src/main/kotlin/com/amarcolini/joos/geometry/Pose2d.kt:42-43 | the position scales as a vector and the heading as a scalar |
| Geometry.Pose2d.Div | navigation/src/main/kotlin/com/amarcolini/joos/geometry/Pose2d.kt:48-49 | for a non-zero scalar, multiplying the quotient back gives the pose |
| Geometry.Pose2d.Negate | navigation/src/main/kotlin/com/amarcolini/joos/geometry/Pose2d.kt:54 | negation is the additive inverse and equals scaling by -1 |
| Geometry.Pose2d.EpsilonEquals | navigation/src/main/kotlin/com/amarcolini/joos/geometry/Pose2d.kt:56-57 | close poses have close positions, and every pose is close to itself whenever the scalar relation is reflexive |
| Geometry.PoseOf | navigation/src/main/kotlin/com/amarcolini/joos/geometry/Pose2d.kt:15 | the pose built from a vector has that vector as its position and the given heading, 0 by default |
| Geometry.ScalarTimesPose | navigation/src/main/kotlin/com/amarcolini/joos/geometry/Pose2d.kt:65 | `s * p` is undone by `s / p` for non-zero `s` |
| Geometry.ScalarDivPose | navigation/src/main/kotlin/com/amarcolini/joos/geometry/Pose2d.kt:67 | `s / p` divides the pose by the scalar |
| Geometry.DefaultPoseIsOrigin | navigation/src/main/kotlin/com/amarcolini/joos/geometry/Pose2d.kt:10-15 | the default pose is (0, 0, 0); a pose built from a vector alone has heading 0 |
| Geometry.PosePlusMinusCancel | navigation/src/main/kotlin/com/amarcolini/joos/geometry/Pose2d.kt:30-37 | `(a + b) - b == a`, and `a - a` is the origin pose |
| Geometry.PoseTimesDivCancel | navigation/src/main/kotlin/com/amarcolini/joos/geometry/Pose2d.kt:42-54 | `(p * s) / s == p` for non-zero `s`, and `-p == p * (-1)` |
| Geometry.PoseScalarOperatorsCommute | navigation/src/main/kotlin/com/amarcolini/joos/geometry/Pose2d.kt:65-67 | `s * p == p * s`, and `s / p` means `p / s` |
| Geometry.PoseEpsilonEqualsComponents | navigation/src/main/kotlin/com/amarcolini/joos/geometry/Pose2d.kt:56-57 | approximate equality holds iff all three components are close; it is reflexive and symmetric when the scalar relation is |
| SwerveKinematics.ModuleVelocityVectors | navigation/src/commonMain/kotlin/com/amarcolini/joos/kinematics/SwerveKinematics.kt:35-53 | exactly four vectors; each is the velocity of the rigid robot at its module's offset (±wheelBase/2, ±trackWidth/2), in front left, rear left, rear right, front right order; wheel base defaults to track width |
| SwerveKinematics.ModuleAccelerationVectors | navigation/src/commonMain/kotlin/com/amarcolini/joos/kinematics/SwerveKinematics.kt:107-125 | the acceleration vectors are the velocity formula applied to the acceleration |
| SwerveKinematics.TurnRate | navigation/src/commonMain/kotlin/com/amarcolini/joos/kinematics/SwerveKinematics.kt:184-186 | the turn rate times the squared speed is `vel cross accel`; an acceleration parallel to the velocity gives no turn |
| SwerveKinematics.ModuleAngularVelocities | navigation/src/commonMain/kotlin/com/amarcolini/joos/kinematics/SwerveKinematics.kt:168-186 | one turn rate per module, each satisfying the `TurnRate` relation for that module's velocity and acceleration vectors |
| SwerveKinematics.WheelVectors | navigation/src/commonMain/kotlin/com/amarcolini/joos/kinematics/SwerveKinematics.kt:207-214 | the zip of wheel speeds and orientations: as long as the shorter list, each vector is `(v cos θ, v sin θ)` |
| SwerveKinematics.RobotVelocityFromVectors | navigation/src/commonMain/kotlin/com/amarcolini/joos/kinematics/SwerveKinematics.kt:204-224 | `(vx, vy)` is the average of the module vectors (their sum over 4); the heading rate times `4 (x² + y²)` is the moment of the first four vectors about the robot centre, the sum of each module offset crossed with its vector |
| SwerveKinematics.WheelToRobotVelocities | navigation/src/commonMain/kotlin/com/amarcolini/joos/kinematics/SwerveKinematics.kt:198-225 | wheel speeds and orientations whose vectors are those of any rigid motion of the robot make the solve return exactly that motion |
| SwerveKinematics.RigidVectorsSolved | navigation/src/commonMain/kotlin/com/amarcolini/joos/kinematics/SwerveKinematics.kt:216-224 | the solve gives back every robot velocity from the module vectors it produces |
| SwerveKinematics.SumOfFour | navigation/src/commonMain/kotlin/com/amarcolini/joos/kinematics/SwerveKinematics.kt:216-217 | the `sumOf` over four vectors is the sum of their components |
| SwerveKinematics.ModuleVectorsSum | navigation/src/commonMain/kotlin/com/amarcolini/joos/kinematics/SwerveKinematics.kt:47-52 | the rotational terms cancel: the four module vectors sum to `4 (vx, vy)` |
| SwerveKinematics.NoRotationSameVectors | navigation/src/commonMain/kotlin/com/amarcolini/joos/kinematics/SwerveKinematics.kt:47-52 | with no rotation every module vector is `(vx, vy)` |
| SwerveKinematics.ModuleVectorsAdditive | navigation/src/commonMain/kotlin/com/amarcolini/joos/kinematics/SwerveKinematics.kt:40-52 | the forward map is additive in the robot velocity |
| SwerveKinematics.ModuleVectorsHomogeneous | navigation/src/commonMain/kotlin/com/amarcolini/joos/kinematics/SwerveKinematics.kt:40-52 | the forward map commutes with scaling the robot velocity |
| SwerveKinematics.RoundTrip | navigation/src/commonMain/kotlin/com/amarcolini/joos/kinematics/SwerveKinematics.kt:198-225 | solving the forward module vectors gives back `(vx, vy, ω)` exactly whenever `trackWidth² + wheelBase² ≠ 0` |
| SwerveKinematics.WheelReadingsRoundTrip | navigation/src/commonMain/kotlin/com/amarcolini/joos/kinematics/SwerveKinematics.kt:198-225 | wheel speeds and orientations whose vectors are those of a rigid motion make `wheelToRobotVelocities` return that motion |
| DiffSwerveConstraint.MinLimit | navigation/src/commonMain/kotlin/com/amarcolini/joos/trajectory/constraints/DiffSwerveVelocityConstraint.kt:25-30 | the smaller of two bounds (infinity included) is one of them and allows exactly the scales both allow |
| DiffSwerveConstraint.MaxAbs | navigation/src/commonMain/kotlin/com/amarcolini/joos/trajectory/constraints/DiffSwerveVelocityConstraint.kt:18 | `maxOf(::abs)` is an upper bound of every magnitude and is attained |
| DiffSwerveConstraint.WheelTerm | navigation/src/commonMain/kotlin/com/amarcolini/joos/trajectory/constraints/DiffSwerveVelocityConstraint.kt:26-29 | a wheel's term is infinite iff its derivative speed is 0; otherwise it is positive, the wheel sits exactly at ±max there, and every scale from 0 up to it keeps the wheel within ±max |
| DiffSwerveConstraint.TermFacts | navigation/src/commonMain/kotlin/com/amarcolini/joos/trajectory/constraints/DiffSwerveVelocityConstraint.kt:26-29 | for a moving wheel below the limit, `max((M - w0)/w, (-M - w0)/w)` is positive, reaches ±M exactly, and is safe below |
| DiffSwerveConstraint.MinTerm | navigation/src/commonMain/kotlin/com/amarcolini/joos/trajectory/constraints/DiffSwerveVelocityConstraint.kt:25-30 | the minimum over the zipped wheels is infinite iff every derivative speed is 0, is some wheel's term, and is no larger than any wheel's term |
| DiffSwerveConstraint.MinTermSafe | navigation/src/commonMain/kotlin/com/amarcolini/joos/trajectory/constraints/DiffSwerveVelocityConstraint.kt:25-30 | every scale in `[0, minimum]` keeps every wheel within ±max |
| DiffSwerveConstraint.MinTermReached | navigation/src/commonMain/kotlin/com/amarcolini/joos/trajectory/constraints/DiffSwerveVelocityConstraint.kt:25-30 | a finite minimum is positive and some wheel sits exactly at ±max there |
| DiffSwerveConstraint.ScaleLimit | navigation/src/commonMain/kotlin/com/amarcolini/joos/trajectory/constraints/DiffSwerveVelocityConstraint.kt:17-30 | unsatisfiable iff some base wheel speed has magnitude at least the max; otherwise a bound that is positive, safe for every wheel and every scale it allows, infinite iff no wheel moves, and tight at some wheel |
| DiffSwerveConstraint.Get | navigation/src/commonMain/kotlin/com/amarcolini/joos/trajectory/constraints/DiffSwerveVelocityConstraint.kt:16-31 | on the kinematics' wheel lists: unsatisfiable iff some base wheel speed has magnitude at least the max; otherwise a bound that is positive, safe for every wheel and every scale it allows, infinite iff no wheel of the derivative moves, and tight at some wheel |
| Localization.WheelDeltas | navigation/src/commonMain/kotlin/com/amarcolini/joos/localization/TankLocalizer.kt:44-46 | pairwise `current - last`, as long as the shorter list |
| Localization.HeadingDelta | navigation/src/commonMain/kotlin/com/amarcolini/joos/localization/TankLocalizer.kt:49-52 | the normalised external heading difference when both readings exist, the wheel heading change otherwise |
| Localization.HeadingReading | navigation/src/commonMain/kotlin/com/amarcolini/joos/localization/TankLocalizer.kt:42 | there is an external heading reading exactly when the sensor is in use, and it is the drive's heading |
| Localization.WithHeadingVelocity | navigation/src/commonMain/kotlin/com/amarcolini/joos/localization/TankLocalizer.kt:62-66 | the linear velocity is kept; the heading rate is the external one when present |
| Localization.OdometryPose | navigation/src/commonMain/kotlin/com/amarcolini/joos/localization/TankLocalizer.kt:43-57 | without previous positions the pose is unchanged; otherwise it is the relative update by the wheel motion with the chosen heading change |
| Localization.ExternalHeadingWins | navigation/src/commonMain/kotlin/com/amarcolini/joos/localization/TankLocalizer.kt:50-52 | with both external readings the wheel heading estimate has no influence |
| Localization.TankLocalizer.constructor | navigation/src/commonMain/kotlin/com/amarcolini/joos/localization/TankLocalizer.kt:19-38 | the estimate starts at the origin, the velocity is absent, both caches are empty; the external heading is used by default |
| Localization.TankLocalizer.SetPoseEstimate | navigation/src/commonMain/kotlin/com/amarcolini/joos/localization/TankLocalizer.kt:29-34 | clears both caches, moves the drive's external heading to the new heading when in use, stores the pose, changes nothing else |
| Localization.TankLocalizer.Update | navigation/src/commonMain/kotlin/com/amarcolini/joos/localization/TankLocalizer.kt:40-71 | the new pose is `OdometryPose` of the old state; the velocity is kept when no wheel velocities are given and is otherwise the kinematics' velocity with the external heading rate; the caches hold the readings just taken |
| Localization.FirstUpdateAfterResetKeepsPose | navigation/src/commonMain/kotlin/com/amarcolini/joos/localization/TankLocalizer.kt:29-43 | setting the pose and then updating leaves the pose as set |
| Localization.SwerveRobotMotion | navigation/src/commonMain/kotlin/com/amarcolini/joos/localization/SwerveLocalizer.kt:53-58 | the solve with the dimensions swapped, as written; its linear velocity agrees with the correctly ordered solve |
| Localization.IntendedSwerveRobotMotion | navigation/src/commonMain/kotlin/com/amarcolini/joos/localization/SwerveLocalizer.kt:53-58 | the corrected call, with each dimension in its own slot: wheel readings of any rigid motion give that motion back |
| Localization.SwappedRadius | navigation/src/commonMain/kotlin/com/amarcolini/joos/localization/SwerveLocalizer.kt:53-58 | swapping the dimensions keeps `trackWidth² + wheelBase²`, so the swapped solve is defined whenever the intended one is |
| Localization.SwappedSolveScalesTurn | navigation/src/commonMain/kotlin/com/amarcolini/joos/localization/SwerveLocalizer.kt:53-58 | the swapped solve of a rigid motion returns its linear velocity but the turn rate times `2 tw wb / (tw² + wb²)` |
| Localization.SwappedTurnInPlace | navigation/src/commonMain/kotlin/com/amarcolini/joos/localization/SwerveLocalizer.kt:53-58 | a turn in place at rate `w` is read by the swapped solve as a turn in place at the rate `r` with `r (tw² + wb²) = 2 tw wb w` |
| Localization.SwappedSolveMisreadsTurn | navigation/src/commonMain/kotlin/com/amarcolini/joos/localization/SwerveLocalizer.kt:53-58 | with track width 2 and wheel base 1, turning in place at 1 rad/s is read as 0.8 rad/s |
| Localization.IntendedMotionRoundTrip | navigation/src/commonMain/kotlin/com/amarcolini/joos/localization/SwerveLocalizer.kt:53-58 | with the dimensions in their own slots, wheel readings of a rigid motion give that motion back |
| Localization.SwerveLocalizer.constructor | navigation/src/commonMain/kotlin/com/amarcolini/joos/localization/SwerveLocalizer.kt:22-43 | the estimate starts at the origin, no velocity, empty caches; wheel base defaults to track width, external heading used by default |
| Localization.SwerveLocalizer.SetPoseEstimate | navigation/src/commonMain/kotlin/com/amarcolini/joos/localization/SwerveLocalizer.kt:34-38 | clears both caches, moves the external heading when in use, stores the pose |
| Localization.SwerveLocalizer.Update | navigation/src/commonMain/kotlin/com/amarcolini/joos/localization/SwerveLocalizer.kt:45-86 | the new pose is `OdometryPose` over the swapped solve; the velocity is cleared when no wheel velocities are given, and is otherwise the swapped solve with the external heading rate; the caches hold the readings just taken |
| Localization.SwerveFirstUpdateAfterResetKeepsPose | navigation/src/commonMain/kotlin/com/amarcolini/joos/localization/SwerveLocalizer.kt:34-49 | setting the pose and then updating without wheel velocities keeps the pose and clears the velocity |
| DiffSwerveDrive.Wrap | navigation/src/commonMain/kotlin/com/amarcolini/joos/drive/AbstractDiffSwerveDrive.kt:104 | the wrapped value lies in `[lo, hi)` and differs from the input by a whole number of periods |
| DiffSwerveDrive.WrapUnique | navigation/src/commonMain/kotlin/com/amarcolini/joos/drive/AbstractDiffSwerveDrive.kt:104 | any value in `[lo, hi)` that differs from the input by whole periods is the wrapped value |
| DiffSwerveDrive.Direction | navigation/src/commonMain/kotlin/com/amarcolini/joos/drive/AbstractDiffSwerveDrive.kt:103-108 | the direction is ±1, and +1 iff the wrapped orientation error is at most π/2 in magnitude |
| DiffSwerveDrive.ModuleTurnsAtMostQuarterTurn | navigation/src/commonMain/kotlin/com/amarcolini/joos/drive/AbstractDiffSwerveDrive.kt:103-108 | going forwards the module is within π/2 of its target; going backwards the reversed module is strictly within π/2 of it |
| DiffSwerveDrive.GearVelocities | navigation/src/commonMain/kotlin/com/amarcolini/joos/drive/AbstractDiffSwerveDrive.kt:109-112 | four velocities, top left, bottom left, top right, bottom right; for each module the two gears sum to twice the control and differ by twice the signed wheel speed |
| DiffSwerveDrive.GearAccelerations | navigation/src/commonMain/kotlin/com/amarcolini/joos/drive/AbstractDiffSwerveDrive.kt:113-116 | four accelerations in the same order; each module's two are exact negatives and differ by twice the signed wheel acceleration |
| DiffSwerveDrive.VelocitiesAreShiftedAccelerations | navigation/src/commonMain/kotlin/com/amarcolini/joos/drive/AbstractDiffSwerveDrive.kt:109-116 | each gear velocity is the acceleration formula applied to the wheel speed plus its module's control |
| DiffSwerveDrive.DiffSwerveDriveBase.constructor | navigation/src/commonMain/kotlin/com/amarcolini/joos/drive/AbstractDiffSwerveDrive.kt:80-93 | two distinct fresh controllers with input bounded to `[-π/2, π/2]` and output unbounded; all stored wheel motion 0 |
| DiffSwerveDrive.DiffSwerveDriveBase.SetDriveSignal | navigation/src/commonMain/kotlin/com/amarcolini/joos/drive/AbstractDiffSwerveDrive.kt:36-56 | stores both wheel velocities and accelerations from the kinematics and sets each controller's target to its module orientation; the controllers' bounds are kept |
| DiffSwerveDrive.DiffSwerveDriveBase.SetDrivePower | navigation/src/commonMain/kotlin/com/amarcolini/joos/drive/AbstractDiffSwerveDrive.kt:58-70 | wheel velocities and orientations for track width 1.0, both accelerations 0, targets set, bounds kept |
| DiffSwerveDrive.DiffSwerveDriveBase.UpdateModuleOrientations | navigation/src/commonMain/kotlin/com/amarcolini/joos/drive/AbstractDiffSwerveDrive.kt:98-118 | the lists handed to the motors are the gear velocities and accelerations for the stored wheel motion, the controls and each module's direction |
| Commands.AnyFinished | command/src/main/kotlin/com/amarcolini/joos/command/RaceCommand.kt:25 | true iff at least one command reports finished |
| Commands.AllInterruptable | command/src/main/kotlin/com/amarcolini/joos/command/SequentialCommand.kt:10 | true iff every command is interruptable |
| Commands.SequentialCommand.constructor | command/src/main/kotlin/com/amarcolini/joos/command/SequentialCommand.kt:6-18 | the commands and flag as given, index -1 |
| Commands.SequentialCommand.Of | command/src/main/kotlin/com/amarcolini/joos/command/SequentialCommand.kt:10 | the group is interruptable iff all of its commands are; index -1 |
| Commands.SequentialCommand.IsFinished | command/src/main/kotlin/com/amarcolini/joos/command/SequentialCommand.kt:37 | on a valid group, finished exactly when the index equals the number of commands; a group not yet initialised is never finished, even when empty |
| Commands.SequentialCommand.Add | command/src/main/kotlin/com/amarcolini/joos/command/SequentialCommand.kt:13-16 | appends the command; interruptable becomes the conjunction with the new command's flag |
| Commands.SequentialCommand.Init | command/src/main/kotlin/com/amarcolini/joos/command/SequentialCommand.kt:20-23 | index 0, only the first command initialised; an empty group fails the lookup |
| Commands.SequentialCommand.Execute | command/src/main/kotlin/com/amarcolini/joos/command/SequentialCommand.kt:25-35 | outside the running range nothing changes; otherwise only the running command executes, and if it is then finished it is ended not interrupted, the index advances by one and the next command, if any, is initialised |
| Commands.SequentialCommand.End | command/src/main/kotlin/com/amarcolini/joos/command/SequentialCommand.kt:39-42 | interrupting ends only the running command, as interrupted; ending normally or before init ends nothing; interrupting a finished group fails the lookup |
| Commands.ExecuteBeforeInit | command/src/main/kotlin/com/amarcolini/joos/command/SequentialCommand.kt:18-37 | before init the group is not finished and executing it changes nothing |
| Commands.RaceCommand.constructor | command/src/main/kotlin/com/amarcolini/joos/command/RaceCommand.kt:6-9 | the commands and flag as given |
| Commands.RaceCommand.IsFinished | command/src/main/kotlin/com/amarcolini/joos/command/RaceCommand.kt:25 | the race is finished iff at least one of its commands is |
| Commands.RaceCommand.Init | command/src/main/kotlin/com/amarcolini/joos/command/RaceCommand.kt:11-13 | every command is initialised exactly once |
| Commands.RaceCommand.Execute | command/src/main/kotlin/com/amarcolini/joos/command/RaceCommand.kt:15-18 | every command executes; then exactly those finished after executing are ended, not interrupted |
| Commands.RaceCommand.End | command/src/main/kotlin/com/amarcolini/joos/command/RaceCommand.kt:20-23 | ending normally ends exactly the unfinished commands; interrupting ends all; both as interrupted |
| Commands.FinishedCommands | command/src/main/kotlin/com/amarcolini/joos/command/RaceCommand.kt:17-21 | the filter: exactly the commands whose finished state is as asked, each once |
| Commands.EndAll | command/src/main/kotlin/com/amarcolini/joos/command/RaceCommand.kt:17-23 | the `forEach { end(...) }`: each listed command is ended once |
| Gamepad.Trigger.constructor | command/src/main/kotlin/com/amarcolini/joos/gamepad/Trigger.kt:6-16 | value 0 and threshold 0.5 by default; the last value equals the value, so state equals last state |
| Gamepad.Trigger.State | command/src/main/kotlin/com/amarcolini/joos/gamepad/Trigger.kt:18-19 | pressed when the value is at or above the threshold; with a steady reading (value equal to the last value) it is pressed now exactly when it was pressed before |
| Gamepad.Trigger.Update | command/src/main/kotlin/com/amarcolini/joos/gamepad/Trigger.kt:10-25 | the value becomes the reading and the last value the value before it, so the last state is the state before the reading; the threshold is kept |
| Gamepad.Trigger.SetThreshold | command/src/main/kotlin/com/amarcolini/joos/gamepad/Trigger.kt:8 | the threshold is writable without touching the readings |
| Gamepad.RepeatedReadingIsSteady | command/src/main/kotlin/com/amarcolini/joos/gamepad/Trigger.kt:10-21 | two identical readings in a row leave state equal to last state |
| Gamepad.PressIsRisingEdge | command/src/main/kotlin/com/amarcolini/joos/gamepad/Trigger.kt:18-25 | a reading below the threshold followed by one at or above it is pressed now and not before |

## Left out

- Floating point: doubles and the trigger's `Float` are exact reals, so there is no rounding, NaN or infinity. Where the source divides by zero and gets an infinity, or NaN when the numerator is zero too, the model requires a non-zero divisor (`Vector2d.Div`, `ScalarDiv`, `Pose2d.Div`, `ScalarDivPose`, `TurnRate`, `ModuleAngularVelocities`, `RobotVelocityFromVectors`). For `TurnRate`, `ModuleAngularVelocities` and `RobotVelocityFromVectors` the excluded case always gives NaN, because a zero module velocity, or a zero track width and wheel base, makes the numerator zero as well; a NaN there would spread through the localizer's pose. The one infinity the constraint relies on, a wheel that does not move, is the explicit `Infinite` bound.
- Functions that need square roots or trigonometry are not modelled: `polar`, `norm`, `angle`, `angleBetween`, `rotated`, `headingVec`, and the source's `distTo`, which is the square root of `DistSquared`. Cosine and sine in `wheelToRobotVelocities` are parameters. So are the differential swerve kinematics (`robotToWheelVelocities`, `robotToWheelAccelerations`, `robotToModuleOrientations`, `gearToModuleOrientation`). The swerve `robotToWheelVelocities` and `robotToWheelAccelerations` take or divide by a norm and are not modelled.
- Approximate equality (`epsilonEquals`) takes the closeness relation as a parameter instead of the source's fixed tolerance. `Pose2d.epsilonEqualsHeading` and `Vector2d.of` are not modelled.
- Geometry.Vector2d.DistSquared: proved non-negative and zero for equal vectors; that it is zero only for equal vectors is not proved (the solver does not settle sums of squares).
- Geometry.Vector2d.ProjectOnto: requires the target's squared length to be non-zero. That is the condition under which the source's division is finite.
- SwerveKinematics.WheelToRobotVelocities: requires at least four wheel readings. The source's destructuring of fewer vectors fails with an index error, which is not modelled.
- DiffSwerveConstraint.Get: requires the base wheel list to be non-empty, because `maxOf` on an empty list throws. When the derivative's wheel list is empty, the source's `minOf` throws; the model returns an infinite bound. The previous derivative and the arc-length step are unused by the source and are dropped.
- Localization: wheel positions, wheel velocities and module orientations are method parameters instead of callbacks. The external heading sensor is the `Drive` class. `TankKinematics.wheelToRobotVelocities`, `Kinematics.relativeOdometryUpdate` and `normDelta` are function-valued fields.
- Localization.SwerveLocalizer.Update: requires four entries in every list that a solve reads: the current and previous wheel positions and the orientations when there are previous positions, and the wheel velocities and orientations when velocities are given. With fewer, the source's destructuring in the inverse kinematics fails with an index error, which is not modelled. A step with no solve accepts lists of any length, as the source does.
- Angles are plain reals in radians. The `Angle` type's unit conversions (`.radians`, `.rad`) are the identity. In `setDrivePower` the heading reinterpretation `heading.value.rad` is therefore the identity too.
- DiffSwerveDrive.Wrap: `wrap` is a library utility outside this model. It is given a floor-based body with the contract the drive relies on.
- DiffSwerveDrive.DiffSwerveDriveBase.UpdateModuleOrientations: reading the module orientations and the PID controllers' `update` are not modelled; both come in as parameters. The controllers' internal state (integral, last error) and their coefficients are not modelled. `setWheelVelocities` and `setMotorPowers` are abstract in the source; the method returns the two lists instead.
- The drive's localizer property and the older JVM copy of the drive are not part of this model.
- Commands: the children are leaf commands that log their calls, and being finished is a function of that log. Command groups as children of groups are not modelled.
- Commands: the groups require distinct children. The source accepts the same command twice; the calls would then interleave on one object.
- The `CommandGroup` base and the `Command`/`Toggleable` bases are not part of this model.
- Commands.SequentialCommand.Init: on an empty group the source throws `IndexOutOfBoundsException` after setting the index to 0. Here it returns `thrown = true` after the same state change.
- Commands.SequentialCommand.End: interrupting a group whose commands have all run throws `IndexOutOfBoundsException` in the source. Here it returns `thrown = true` and changes nothing.

## Findings

| source | as written | input that shows it | evidently intended | confidence | as-written member | corrected member |
|---|---|---|---|---|---|---|
| navigation/src/commonMain/kotlin/com/amarcolini/joos/localization/SwerveLocalizer.kt:53-58 | the odometry solve, and the velocity solve at lines 73-77, pass `wheelBase, trackWidth` into the `trackWidth, wheelBase` parameters of `SwerveKinematics.wheelToRobotVelocities` | track width 2, wheel base 1, robot turning in place at 1 rad/s: the module vectors are read back as a turn of 0.8 rad/s (in general the turn rate is scaled by `2 tw wb / (tw² + wb²)`; the linear velocity is unaffected) | pass `trackWidth, wheelBase`, so that the solve returns the robot's motion | high for non-square robots; not executed | Localization.SwappedSolveMisreadsTurn | Localization.IntendedMotionRoundTrip |

The localizer class keeps the source's argument order. `Localization.IntendedSwerveRobotMotion` is the corrected solve. `Localization.IntendedMotionRoundTrip` proves that the corrected solve recovers the robot's motion.
