# franka-deploy: a verified model

franka-deploy drives a Franka FR3 arm from a remote policy server. A policy thread fetches chunks of
action rows, turns each row into a joint target, clamps it and sends it to a second process, where a 1 kHz
loop tracks the target through a jerk-limited filter. This project models that path, the schedule that
feeds it, the monitors around it and the staged rollout that starts it, and proves what they keep.

| files | what they model |
|---|---|
| `ReferenceFilter`, `FilterContainment`, `BrakingArc`, `FilterNoOvershoot`, `FilterConvergence`, `FilterSettles`, `FilterRates` | the saturated second-order filter: containment, monotone approach, convergence from rest and from any motion, rate limits |
| `FilterSmallMoves`, `FilterSmallApproach`, `FilterFastMoves`, `FilterCounterexamples` | exactly when small moves meet containment and approach, what moves of any length need, and where each fails |
| `Smoothing`, `Limits`, `Runtime`, `RuntimeTargets` | the target pipeline and the two-rate system of policy ticks, servo ticks, stops and faults; what its target is after any history, and that the command gets there |
| `Scheduler`, `Pacing` | the chunk scheduler of `ControlLoop._run` and its clock |
| `Linear`, `Quaternions`, `AxisAngle`, `RotationLog`, `Rot6d` | rotations and their four representations |
| `Kinematics`, `LinkGeometry`, `InverseKinematics` | forward kinematics and the geometry of the arm, the Jacobian, clipped IK |
| `ActionSpace`, `JointRows`, `EndEffectorRows` | action rows of every kind and what they ask for |
| `Watchdog`, `WatchdogMeaning`, `Gripper` | the oscillation watchdog, in counts of ticks too, and the gripper automaton over whole histories |
| `PolicyClient`, `ClientSession`, `FieldOrder`, `SessionRun` | nested request bodies, what they carry over a session and when field order matters, the order in which a run consumes its answers, and what its shutdown leaves |
| `Rollout`, `RolloutHistory`, `RolloutLoops` | routes, lifecycle, policy threads and the robot node as one interleaved state machine, and what its states say about the events before them |
| `Numeric`, `Outcomes` | shared arithmetic, optional values and results |

Numbers are exact reals. `sqrt`, `sin`, `cos` and `arccos` are parameters (`AxisAngle.Trig`) with their usual
laws (`AxisAngle.Laws`, and the addition theorems `Kinematics.Adds`). The linear solve inside IK, the
flange-to-tool transform, clock readings, inference durations, chunk lengths, robot readings, server replies,
request ids and the outcomes of robot-node calls are parameters too.

Where the code and its own text differ, the model follows the code:

- The filter's docstring promises no overshoot by construction, from critical damping. Where no clamp acts that
  is so exactly for short ticks (`SmallMovesApproachIff`). For moves of any length the limits matter too: the
  conditions `Tuned` suffice, each of three weaker ones is needed (`OvershootFreeNeeds`), and
  `FilterCounterexamples` overshoots. The shipped constants are tuned (`ShippedTuned`).
- The per-tick jerk limit does not hold where the velocity clamp cuts a tick (`JerkKeptIff`); the shipped
  constants can change acceleration by up to 4 rad/s2 in a tick where the limit is 3 (`ShippedJerk`).
- A rotation delta given as a quaternion or six columns is applied in the base frame, the same delta given as a
  rotation vector in the tool frame, although the comment calls it the same convention (`DeltaFramesAgreeIff`,
  with an input in `DeltaFramesDiffer`).
- Near a half turn `_rot_to_axis_angle` reads a wrong axis off every rotation that is neither a half turn nor
  about a coordinate axis (`ExpLogIff`, `BandRotationIsLost`), so `ee_step_to_joint` does not always rebuild the
  commanded pose (`LabelLosesCommand`).
- The routes describe detect, then confirm, then start. Confirm has no guard and start connects by itself, so
  confirm and start suffice (`DetectIsNotNeeded`; `DetectedFirstIff` gives the guard that is missing), and
  confirming while running allows a second policy thread (`TwoThreads`).
- The handlers run concurrently. A disconnect during start's policy reset is overtaken by it: the start connects
  live and its thread is out of every route's reach (`DisconnectDuringStart`). A thread that a disconnect did not
  join moves the robot in the next live session (`OldThreadMovesNextSession`). `AlwaysSafeIff` is the exact
  condition on a run.
- An emergency stop halts the node's servo loop and leaves the stub live, so a later start skips the connect that
  would restart it and runs without moving anything (`StartAfterEstopIsDead`; `StartMovesIff` is the exact
  condition).
- A start writes RUNNING last, also over the ERROR of a thread that failed meanwhile or the STOPPED of a stop that
  joined it (`AnnouncedDeadIff`, `RunningWithoutThread`, `RunningAfterStop`).
- The request schema does not say that dotted names must not be prefixes of one another. Without that the body
  depends on the order of the fields, down to whether it can be built (`OrderFreeIff`).

## Model

| member | source | states |
|---|---|---|
| ReferenceFilter.JerkLimitedReferenceFilter.Reset | franka_deploy/robot/reference_filter.py:68-72 | every joint rests at the latched pose |
| ReferenceFilter.JerkLimitedReferenceFilter.Step | franka_deploy/robot/reference_filter.py:74-91 | every joint takes exactly the saturated tick of the scalar recurrence, and the new command is returned |
| FilterContainment.BelowStays | franka_deploy/robot/reference_filter.py:74-91 | one tick to any target below hi keeps the region below hi, whether the pull is met or the acceleration clamp holds it back |
| FilterContainment.InsideStays | franka_deploy/robot/reference_filter.py:74-91 | one tick to any target in [lo, hi] keeps the faceted region of positions, velocities and accelerations |
| FilterContainment.Containment | franka_deploy/robot/reference_filter.py:74-91 | from rest in [lo, hi], no sequence of jumping targets in [lo, hi] drives the command out, for every tuned parameter set and number of facets |
| FilterContainment.ShippedTuned | franka_deploy/safety/limits.py:33-36 | the shipped constants are tuned: six facets show that no more braking than aMax is ever asked for, though none would not, and none show that braking at aMax is in time |
| FilterNoOvershoot.NoOvershoot | franka_deploy/robot/reference_filter.py:42-44 | run from rest at a constant target above, each tick of a tuned filter moves up or stays and never passes the target |
| FilterNoOvershoot.NoUndershoot | franka_deploy/robot/reference_filter.py:42-44 | the same toward a target below |
| FilterSmallApproach.SmallMovesApproachIff | franka_deploy/robot/reference_filter.py:42-44 | for every parameter set: moves up to some length never pass their target, and approach it monotonically, exactly when (wn dt)^2 + 2 wn dt <= 2 |
| FilterFastMoves.OvershootFreeNeeds | franka_deploy/robot/reference_filter.py:42-44 | for every parameter set: a filter that never passes a target, from any rest and at any distance, has that short tick, wn (vMax - aMax dt) < 4 aMax and 2 wn^2 vMax < jMax (3 + 2 wn dt)(3 + 3 wn dt) |
| FilterFastMoves.AlwaysContainedNeeds | franka_deploy/robot/reference_filter.py:74-91 | a filter that contains every run needs the same |
| FilterFastMoves.TunedIsFree | franka_deploy/robot/reference_filter.py:42-44 | a tuned filter never passes a target, from any rest and at any distance |
| FilterConvergence.ReachesTarget | franka_deploy/robot/reference_filter.py:74-91 | held at a constant target on either side, the command of a tuned filter comes within any distance of it and stays there, on its own side |
| FilterSettles.SettlesFromAnywhere | franka_deploy/robot/reference_filter.py:74-91 | the same from any state within the velocity and acceleration limits, moving either way on either side of the target: the command comes within any distance of it and stays there |
| FilterRates.RunRates | franka_deploy/robot/reference_filter.py:78-90 | on every run velocity and surviving acceleration keep their limits; the acceleration changes by at most jMax dt in an uncut tick and max(jMax dt, aMax) in any |
| FilterRates.JerkKeptIff | franka_deploy/robot/reference_filter.py:81-90 | the per-tick jerk limit holds on every run exactly when aMax <= jMax dt or 2 vMax <= jMax dt^2 |
| FilterRates.ShippedJerk | franka_deploy/safety/limits.py:33-36 | with the shipped constants some run breaks the jerk limit, and none exceeds 4 |
| FilterSmallMoves.SmallMovesContainedIff | franka_deploy/robot/reference_filter.py:74-91 | whatever the limits, some range of small moves is contained exactly when (wn dt)^2 + 2 wn dt <= 2 |
| FilterCounterexamples.JerkLimitNeeded | franka_deploy/robot/reference_filter.py:42-44 | with too low a jerk limit a constant target is passed, the other conditions holding |
| FilterCounterexamples.BrakesNeeded | franka_deploy/robot/reference_filter.py:42-44 | with too low an acceleration limit a constant target is passed, the other conditions holding |
| Smoothing.EMASmoother.Step | franka_deploy/safety/smoothing.py:28-34 | the first value is taken as it is, later ones are blended per joint |
| Smoothing.StaysInHull | franka_deploy/safety/smoothing.py:25-34 | the output never leaves the range of its start and inputs |
| Smoothing.ConstantTargetError | franka_deploy/safety/smoothing.py:28-34 | against a constant target the error is exactly (1 - alpha)^n times the first |
| Limits.SafeTargetBounds | franka_deploy/control_loop.py:312-314 | every target is inside the shrunken limits; where some angle there is within a step of the measured joint it is the one nearest to the smoothed target, otherwise the limit nearest to the joint |
| Runtime.FR3Runtime.SetJointTarget | franka_deploy/robot/fr3_runtime.py:139-144 | refused exactly in read-only mode; otherwise the target is the given one, and nothing else changes |
| Runtime.FR3Runtime.StartControl | franka_deploy/robot/fr3_runtime.py:232-248 | fails exactly where some desired joint is more than 0.05 from the measured one, and otherwise latches target and command to the desired pose |
| Runtime.FR3Runtime.ControlTick | franka_deploy/robot/fr3_runtime.py:250-263 | writes the command the servo specification gives |
| Runtime.FR3Runtime.Stop | franka_deploy/robot/fr3_runtime.py:181-183 | freezes the target at the measured pose while the loop is alive |
| Runtime.CommandsContained | franka_deploy/control_loop.py:310-325 | for any rows, measurements and interleaving of policy ticks, servo ticks, stops and faults, every command stays in a box that holds the clipped limits, the latched pose and the frozen poses |
| Runtime.ShippedStaysInJointLimits | franka_deploy/robot/fr3_runtime.py:243-257 | with the shipped constants, written out, the 1 kHz command stays inside the FR3 joint limits |
| RuntimeTargets.TargetIsLastWritten | franka_deploy/robot/fr3_runtime.py:139-183 | over any history after the latch, the target of a joint is what its last writer wrote: the latched angle, the safe angle nearest to the smoothed rows of the last policy tick, or the angle last measured before a stop that found the loop alive |
| RuntimeTargets.CommandReachesTarget | franka_deploy/robot/fr3_runtime.py:248-262 | after any history that leaves the loop running, enough further servo ticks bring every joint's command within any distance of that target, and keep it there |
| RuntimeTargets.AliveIff | franka_deploy/robot/fr3_runtime.py:248-265 | over any history the loop is alive exactly while no fault occurred, and runs exactly while it was not told to end |
| RuntimeTargets.StartFailsIff | franka_deploy/robot/fr3_runtime.py:233-246 | the loop refuses to start exactly when some desired joint is more than 0.05 from the measured one, and otherwise starts at rest at the desired pose |
| RuntimeTargets.ReadOnlyNeverMoves | franka_deploy/robot/fr3_runtime.py:139-142 | a read-only robot takes no target and moves no joint, over any history |
| RuntimeTargets.ReadOnlyReads | franka_deploy/robot/fr3_runtime.py:209-222 | and holds the joints last read, over any history |
| Scheduler.PolicyLoop.Iterate | franka_deploy/control_loop.py:276-311 | one pass of the loop body is the scheduler step, including a raising index |
| Scheduler.PolicyLoop.RunLoop | franka_deploy/control_loop.py:275-311 | the loop is the scheduler run, row by row |
| Scheduler.RunKeepsBooks | franka_deploy/control_loop.py:264-301 | at most one prediction in flight, issued = n_replans + in flight, each consumed once and in issue order, n_late <= n_replans - 1, and no more swaps than rows |
| Scheduler.CountersCount | franka_deploy/control_loop.py:281-301 | over every run n_replans is one more than the number of iterations that swapped, and n_late is the number of those that swapped in a pending prediction that was not done |
| Scheduler.CrashesIff | franka_deploy/control_loop.py:281-311 | for every configuration, indexing raises in a run exactly when some iteration swaps in a chunk too short: an empty one for exec_horizon >= 1, otherwise one of at most -exec_horizon rows |
| Scheduler.RowsInRangeIff | franka_deploy/control_loop.py:281-311 | every row executed lies in the executed part of its chunk, on every run, exactly when exec_horizon >= 1 |
| Scheduler.NonpositiveHorizon | franka_deploy/control_loop.py:292-294 | with exec_horizon below one every iteration of every run swaps in a chunk and runs row exec_horizon - 1, counted from its end |
| Scheduler.SyncCallsIff | franka_deploy/control_loop.py:281-301 | for every configuration, chunk lengths and run: an exhausted chunk makes the control thread call predict exactly when lead_ticks <= 0 or no iteration ran yet |
| Scheduler.SyncReachableIff | franka_deploy/control_loop.py:281-301 | over nonempty chunks some run calls predict on the control thread exactly when lead_ticks <= 0 or exec_horizon <= 0 |
| Scheduler.NeverSync | franka_deploy/control_loop.py:281-301 | with lead_ticks >= 1, whenever a chunk is exhausted a prediction is already in flight |
| Scheduler.SwapAligns | franka_deploy/control_loop.py:281-294 | at a swap t_obs belongs to the chunk swapped in, and the row started with is within dt/2 of the elapsed time unless it is the last one |
| Scheduler.ExactAlignment | franka_deploy/control_loop.py:275-311 | under exact pacing every row after the first swap is numbered by the ticks since its chunk's observation |
| Pacing.PaceTick | franka_deploy/control_loop.py:338-343 | the end of the loop body is the pacing step |
| Pacing.RateBound | franka_deploy/control_loop.py:338-343 | any n + 1 consecutive tick ends span at least (n - 2) dt, however late ticks and sleeps are |
| Pacing.RateBoundTight | franka_deploy/control_loop.py:338-343 | for every n >= 2 some run attains the bound exactly |
| Pacing.ExactSchedule | franka_deploy/control_loop.py:338-341 | ticks that fit their period, with exact sleeps, end exactly on schedule |
| Pacing.StallRenews | franka_deploy/control_loop.py:338-343 | a tick that does not sleep leaves the schedule at most a period behind, and one more than a period late ends exactly on its new schedule |
| Pacing.StallRecovers | franka_deploy/control_loop.py:338-343 | after such a tick, ticks that fit end exactly one period apart, counted from its end |
| Linear.RotationMul | franka_deploy/kinematics/fr3_kinematics.py:51-52 | products of proper rotations are proper rotations |
| Linear.MulTranspose | franka_deploy/kinematics/fr3_kinematics.py:127 | a rotation's transpose is its inverse on both sides |
| Quaternions.QuatToRotIsRotation | franka_deploy/kinematics/rotations.py:17-28 | any four numbers give a proper rotation |
| Quaternions.DivisorAtLeastTwo | franka_deploy/control_loop.py:98-110 | whatever the matrix, the branch taken divides by at least two |
| Quaternions.RotationRoundTrip | franka_deploy/control_loop.py:96-111 | matrix to quaternion and back is the identity exactly on rotations, and the quaternion is unit |
| Quaternions.QuatRoundTrip | franka_deploy/kinematics/rotations.py:17-28 | a quaternion with squared norm at least 1e-12 comes back as plus or minus itself over its norm |
| AxisAngle.AxisAngleToRotIsRotation | franka_deploy/kinematics/fr3_kinematics.py:73-79 | any rotation vector gives a proper rotation |
| AxisAngle.LogExp | franka_deploy/kinematics/fr3_kinematics.py:55-79 | a rotation vector of length in [1e-9, pi - 1e-4] comes back unchanged |
| RotationLog.ExpLogIff | franka_deploy/kinematics/fr3_kinematics.py:55-79 | a rotation survives logarithm and exponential exactly when it is the identity, or its angle is at least 1e-9 and it is in the regular range, a half turn or about a coordinate axis |
| RotationLog.BandRotationIsLost | franka_deploy/kinematics/fr3_kinematics.py:55-70 | every rotation within 1e-4 of a half turn, and not a half turn, about an axis that is no coordinate axis comes back as another one |
| RotationLog.SlantedIsLost | franka_deploy/kinematics/fr3_kinematics.py:55-70 | one such: about (0.6, 0.8, 0) by pi - 0.00005 |
| Rot6d.Rot6dIsRotationIff | franka_deploy/kinematics/rotations.py:31-40 | six numbers give a proper rotation exactly when neither Gram-Schmidt length is below its floor |
| Rot6d.Rot6dRoundTrip | franka_deploy/kinematics/fr3_kinematics.py:225-226 | a rotation's first two columns give the rotation back |
| Rot6d.ParallelIsNotRotation | franka_deploy/kinematics/rotations.py:31-40 | parallel or vanishing columns never give a rotation |
| Kinematics.Fk | franka_deploy/kinematics/fr3_kinematics.py:37-52 | the loop computes the product of the link transforms and the tool; what a link transform is, is stated by the next rows |
| LinkGeometry.FrameGeometry | franka_deploy/kinematics/fr3_kinematics.py:40-51 | each frame on the one before it: the origin is moved by a along the old x axis and d along the new z axis, that axis is turned by alpha about the old x, and the x axis by the joint angle about the new z |
| LinkGeometry.ArmGeometry | franka_deploy/kinematics/fr3_kinematics.py:19-28 | the table in numbers, for every joint vector: the flange is the base moved by the arm's seven lengths along its frames' axes, and each z axis is parallel or at a right angle to the one before it, on the stated side |
| LinkGeometry.UprightPose | franka_deploy/kinematics/fr3_kinematics.py:37-52 | with all joints at zero and no tool the end effector is at (0.088, 0, 0.926), turned over about x |
| LinkGeometry.ElbowedPose | franka_deploy/kinematics/fr3_kinematics.py:37-52 | with joint 4 at -pi/2 and joint 6 at pi/2 it is at (0.5545, 0, 0.6245), turned the same way |
| Kinematics.FkWithFrames | franka_deploy/kinematics/fr3_kinematics.py:82-104 | the same pose as fk, with every joint frame's z axis and origin |
| Kinematics.EePoseRigid | franka_deploy/kinematics/fr3_kinematics.py:37-52 | forward kinematics is rigid for every joint vector |
| Kinematics.MovingOneJoint | franka_deploy/kinematics/fr3_kinematics.py:82-104 | moving joint i by any angle turns the end effector by that angle about the axis and origin reported for the joint |
| InverseKinematics.JacobianAnalytic | franka_deploy/kinematics/fr3_kinematics.py:107-115 | the loop fills the geometric Jacobian, with the pose of fk |
| InverseKinematics.JacobianMovesEndEffector | franka_deploy/kinematics/fr3_kinematics.py:107-115 | a Jacobian column gives the exact finite motion of its joint: sin delta times the column plus its second-order term, and the turn |
| InverseKinematics.Ik | franka_deploy/kinematics/fr3_kinematics.py:118-133 | the loop with its early exit is the clipped iteration that the next rows describe |
| InverseKinematics.IkPath | franka_deploy/kinematics/fr3_kinematics.py:118-133 | for any solver there is a path from the seed to the result in which every joint of a step is the angle inside its limits nearest to the old one plus its correction, every earlier pose is off by tol or more, and the last one is closer than tol or ends exactly iters steps |
| InverseKinematics.ErrorLeadsToTarget | franka_deploy/kinematics/fr3_kinematics.py:126-128 | the error added to the position gives the target's, and turning by it gives the target's rotation exactly when the relative rotation survives the logarithm |
| InverseKinematics.IkRange | franka_deploy/kinematics/fr3_kinematics.py:118-133 | for any solver and iteration count the result is the untouched seed or inside the limits |
| InverseKinematics.IkStaysInLimits | franka_deploy/kinematics/fr3_kinematics.py:118-133 | a seed inside the limits gives a result inside them |
| InverseKinematics.IkAtTarget | franka_deploy/kinematics/fr3_kinematics.py:125-130 | asked for the pose it has, IK returns the seed unchanged |
| InverseKinematics.EeStepToJoint | franka_deploy/kinematics/fr3_kinematics.py:163-191 | the joints are IK of the delta's target from the measured joints, the gripper mapped to 0..1 |
| InverseKinematics.EeTargetRigid | franka_deploy/kinematics/fr3_kinematics.py:182-186 | every delta gives a target with a proper rotation |
| InverseKinematics.EeTargetRecoversCommand | franka_deploy/kinematics/fr3_kinematics.py:167-178 | the training label's target has the commanded position always, and the commanded rotation exactly when the relative rotation survives the logarithm |
| InverseKinematics.LabelLosesCommand | franka_deploy/kinematics/fr3_kinematics.py:167-178 | for any nonzero maxima, a measured and a commanded pose whose training label rebuilds another pose |
| InverseKinematics.ZeroDeltaHolds | franka_deploy/kinematics/fr3_kinematics.py:163-191 | a zero delta returns the measured joints unchanged |
| InverseKinematics.ToolFrameTurn | franka_deploy/kinematics/fr3_kinematics.py:174-177 | turning about the rotated axis in the base is turning about the axis in the tool |
| ActionSpace.RowToJointTarget | franka_deploy/schema/apply.py:51-108 | for rows of any length, the joints and gripper of a row of each kind, or an error exactly where the gripper column or the joints have none; what they are is stated by the next rows |
| JointRows.JointRowReadIff | franka_deploy/schema/apply.py:65-77 | a joint row raises exactly unless it has seven numbers or more, or a single one |
| JointRows.AbsoluteRow | franka_deploy/schema/apply.py:65-66 | an absolute row asks for its own first seven numbers, wherever the robot is |
| JointRows.DeltaRow | franka_deploy/schema/apply.py:67-68 | a delta row moves every joint from where it was measured by its own number times the scale |
| JointRows.ZeroDeltaRow | franka_deploy/schema/apply.py:67-68 | a delta row of zeros gives the measured joints |
| JointRows.SingleDeltaRow | franka_deploy/schema/apply.py:67-68 | a delta row with one nonzero number moves that joint and no other |
| JointRows.DeltaRowsAdd | franka_deploy/schema/apply.py:67-68 | one delta row and then another, from where the first leads, is their sum |
| JointRows.GripperScale | franka_deploy/schema/apply.py:30-33 | both conventions are monotone into [0, 1]; the signed one takes -1, 0, 1 to 0, 1/2, 1 and halves differences, the other is the identity on [0, 1] |
| JointRows.GripperColumn | franka_deploy/schema/apply.py:60-63 | the opening comes from column dim - 1, the last one for a dim of zero, and is missing exactly where the row has none there |
| EndEffectorRows.RotationReadIff | franka_deploy/schema/apply.py:36-43 | the columns of a rotation are read exactly if there are four, six or three of them by its kind, or fewer than three shorter than 1e-9, which are no turn |
| EndEffectorRows.NamedPoseIsGoal | franka_deploy/schema/apply.py:81-87 | an absolute row that names a rigid pose asks for exactly that pose, wherever the robot is |
| EndEffectorRows.DeltaRowTranslates | franka_deploy/schema/apply.py:89-108 | a delta row that names no turn moves the goal along the tool's axes by its first three numbers scaled, and keeps its rotation |
| EndEffectorRows.JointsSeekGoal | franka_deploy/schema/apply.py:81-108 | the joints of an end-effector row are the end of at most thirty clipped corrections from the measured joints toward its goal, at an error below 1e-5 unless there were thirty |
| ActionSpace.FittingRowsAreRead | franka_deploy/schema/apply.py:81-108 | a row that fits its format always gives a goal, unless the format has no rotation |
| ActionSpace.GoalRigidIff | franka_deploy/schema/apply.py:81-108 | an end-effector goal has a proper rotation exactly unless six dependent columns were given |
| ActionSpace.PresentPoseHolds | franka_deploy/schema/apply.py:81-87 | a row naming the present pose moves nothing: by quaternion or six columns always, by rotation vector when the rotation survives the logarithm |
| ActionSpace.DeltaFramesAgreeIff | franka_deploy/schema/apply.py:89-108 | the rotation-vector and the quaternion or six-column path agree exactly when the delta commutes with the measured rotation |
| ActionSpace.DeltaFramesDiffer | franka_deploy/schema/apply.py:89-108 | one radian about x, from a tool turned a quarter about z, gives two different goals |
| Watchdog.OscillationWatchdog.Update | franka_deploy/safety/watchdog.py:61-89 | answers whether the last trip_count windows of the whole history since reset are full and oscillate |
| WatchdogMeaning.BadIff | franka_deploy/safety/watchdog.py:67-84 | a window is bad exactly when it is full and for some joint the ticks at which it reverses, both samples beyond the deadzone and of opposite sign, outnumber threshold times the ticks with both beyond it |
| WatchdogMeaning.TripsIff | franka_deploy/safety/watchdog.py:61-89 | it trips exactly when that is so of each of the last trip_count windows |
| WatchdogMeaning.CalmDoesNotTrip | franka_deploy/safety/watchdog.py:77-89 | if in the current window every joint reverses in at most a threshold share of its moving ticks it does not trip, whatever came before |
| Watchdog.StreakTrips | franka_deploy/safety/watchdog.py:85-89 | the consecutive counter is the length of the run of oscillating windows |
| Watchdog.NoiseIsIgnored | franka_deploy/safety/watchdog.py:70-84 | histories that differ only within the deadzone get the same answer |
| Watchdog.SteadyNeverTrips | franka_deploy/safety/watchdog.py:77-89 | without a reversal between two moving samples it never trips |
| Watchdog.ThresholdOneNeverTrips | franka_deploy/safety/watchdog.py:81-89 | a threshold of one or more never trips |
| Watchdog.ShakingTrips | franka_deploy/safety/watchdog.py:61-89 | a joint reversing at every sample is caught within window + trip_count - 1 samples, whatever came before |
| Gripper.GripperHysteresis.Decision | franka_deploy/robot/gripper_runtime.py:49-60 | one decision and the new state |
| Gripper.NextCommandIff | franka_deploy/robot/gripper_runtime.py:49-60 | after any run the next poll grasps exactly when the dwell is over, the gripper open and the trigger at least close_at, opens exactly when it is over, the gripper closed and the trigger at most open_at, and else issues nothing |
| Gripper.Alternates | franka_deploy/robot/gripper_runtime.py:49-60 | over any run commands alternate from a grasp, each beyond its threshold |
| Gripper.DwellApart | franka_deploy/robot/gripper_runtime.py:50-60 | commands i and j are at least (j - i) dwells apart, for any clock |
| Gripper.BandHolds | franka_deploy/robot/gripper_runtime.py:49-60 | triggers inside the band never issue anything, whatever came before |
| PolicyClient.PutFailsIff | franka_deploy/schema/client.py:44-50 | assigning fails exactly when a proper prefix of the name holds a value that is not a dict |
| PolicyClient.PutThenLookup | franka_deploy/schema/client.py:44-50 | the value is found at its own name |
| PolicyClient.PutKeepsOthers | franka_deploy/schema/client.py:44-50 | names that are no prefix of one another do not disturb each other |
| PolicyClient.PolicyClient.BuildBody | franka_deploy/schema/client.py:77-85 | the loop is the field-by-field build, its counter kept even when it raises |
| PolicyClient.PolicyClient.Reset | franka_deploy/schema/client.py:97-105 | the counter restarts once the body is built, even if the request then fails; the session id only changes on success |
| PolicyClient.EveryFieldAtItsPath | franka_deploy/schema/client.py:77-85 | with prefix-free names and resolving sources the body is built and holds every value at its own name |
| ClientSession.BuiltIff | franka_deploy/schema/client.py:64-85 | with prefix-free names a body is built exactly when every source resolves, and then every name holds what its source must give: the session id, the counter advanced by the sequence fields before it, or the supplied value |
| ClientSession.SessionIdCarried | franka_deploy/schema/client.py:97-105 | in any order of calls, a body sent after a reset that was answered and before another one is, holds that answer's id at the name of every session:id field |
| ClientSession.InstructionCarried | franka_deploy/schema/client.py:100-101 | a reset given an instruction sends it at its own name |
| ClientSession.RaisesAt | franka_deploy/schema/client.py:77-85 | where a build raises: the fields before it build, that field's source is unknown or its name blocked, and the counter has passed the sequence fields up to and including it |
| ClientSession.FailedCallKeepsCount | franka_deploy/schema/client.py:67-70 | a call whose body cannot be built keeps the session id, takes no number back and skips no more than it has sequence fields |
| PolicyClient.BodyIgnoresFieldOrder | franka_deploy/schema/client.py:77-85 | with prefix-free names and repeatable sources the body, or the failure to build it, is the same in any field order |
| PolicyClient.PrefixNamesClash | franka_deploy/schema/client.py:44-50 | for any name that is a proper prefix of another, on any tree: a plain value at the shorter one makes the longer one raise, and in the other order it drops the longer one's value |
| PolicyClient.LeavesCommuteIff | franka_deploy/schema/client.py:44-50 | on any tree two plain values at different names commute exactly when neither name is a prefix of the other or the longer one cannot be assigned; on the empty tree both always can |
| FieldOrder.OrderFreeIff | franka_deploy/schema/client.py:77-85 | for distinct names with plain repeatable values the body, or the failure to build it, is the same in every field order exactly when no name is a prefix of another |
| PolicyClient.SequenceNumbers | franka_deploy/schema/client.py:67-70 | with one sequence field the i-th call after a reset carries number i |
| PolicyClient.SentNumbersIncrease | franka_deploy/schema/client.py:67-70 | when some calls fail to build, those sent still carry strictly increasing numbers |
| SessionRun.ChunksFollowSequence | franka_deploy/control_loop.py:281-301 | after a reset the chunk in use answers request n_replans - 1, and the only request that can be outstanding is the last one sent, number n_replans |
| SessionRun.PickSends | franka_deploy/control_loop.py:301-301 | the worker takes only the pending prediction, and taking it is what sends its request |
| SessionRun.FiringOnlyQueues | franka_deploy/control_loop.py:298-301 | an iteration that fires ahead queues one task and sends nothing |
| SessionRun.PlayIsRun | franka_deploy/control_loop.py:264-301 | whatever the pool's worker does in between, the scheduler is where its completed iterations put it |
| SessionRun.OnePredictionRuns | franka_deploy/control_loop.py:264-301 | in every interleaving of control thread and worker at most one prediction runs, and none while the control thread makes its own |
| SessionRun.NothingOutstanding | franka_deploy/control_loop.py:350-351 | wherever the loop is left, a predict of its own that raised included, after the shutdown every request sent has returned; there are n_replans or n_replans + 1 of them, numbered 0, 1, 2, ..., and at most one more prediction was queued, which was cancelled unsent |
| SessionRun.ShutdownSendsNothing | franka_deploy/control_loop.py:350-351 | the shutdown sends nothing: it cancels exactly what was still queued, and what was running had been sent |
| Rollout.ControlLoop.Detect | franka_deploy/control_loop.py:195-212 | detect keeps its result and awaits a confirm, or falls back to CONNECTED |
| RolloutLoops.DetectAgain | franka_deploy/control_loop.py:198-212 | over every run no loop is left in DETECTING without a detection under way, and when a detection ends, failed or not, another can begin at once |
| RolloutLoops.DetectNeedsConnect | franka_deploy/control_loop.py:195-212 | over every run a loop is only detected after a connect of it was answered |
| Rollout.ControlLoop.Start | franka_deploy/control_loop.py:220-242 | start spawns a thread exactly when confirmed, reset, live and readable, and what it leaves behind otherwise |
| RolloutLoops.AbandonedIsOver | franka_deploy/control_loop.py:229-235 | a start that raised is over: whatever happens afterwards it connects and spawns nothing |
| RolloutLoops.ErrorStays | franka_deploy/control_loop.py:244-249 | after any run a thread that fails leaves its loop in ERROR, which no number of stops clears |
| RolloutLoops.StopThenStartIff | franka_deploy/api/routes_control.py:117-130 | after any run, a start begins on a loop just stopped exactly when it was confirmed and did not fail |
| RolloutLoops.ClearingsCount | franka_deploy/api/routes_control.py:147-158 | over every run clearings of the installed loop never outnumber the disconnects that went through, and the difference is about to happen |
| Rollout.AcceptedTargetWasEarned | franka_deploy/api/routes_control.py:82-158 | in every interleaving, start and disconnect overlapping anything, a target is taken only from a thread whose loop was confirmed and connected live, while the node's runtime is live |
| Rollout.EarnedSinceReleaseIff | franka_deploy/api/routes_control.py:147-158 | those two steps lie after the last clearing of the installed loop exactly when the thread's loop is still installed |
| Rollout.AlwaysSafeIff | franka_deploy/control_loop.py:220-254 | throughout a run, starts that raise included, the only thread alive is the installed loop's own, and the only starts under way are that loop's, exactly when every start begins on the installed loop, threads are spawned when none is alive, and the loop is cleared when none is alive and no start is under way |
| Rollout.OrderlyRunsAreSafe | franka_deploy/control_loop.py:220-254 | in such runs at most one thread is alive, and every accepted target was earned since the last disconnect |
| Rollout.DisconnectDuringStart | franka_deploy/control_loop.py:220-242 | a disconnect during the policy reset of a start leaves a live thread on a loop no route reaches |
| Rollout.TwoThreads | franka_deploy/api/routes_control.py:110-130 | confirming while running lets a second policy thread start |
| Rollout.TimedOutThreadStillSends | franka_deploy/control_loop.py:244-254 | a disconnect whose join timed out leaves a thread whose targets are taken, by a halted servo |
| Rollout.OldThreadMovesNextSession | franka_deploy/api/routes_control.py:147-158 | that thread moves the robot once the next session connects live, unconfirmed |
| RolloutHistory.RunningIff | franka_deploy/robot/robot_node.py:50-80 | over every run the node's servo loop runs exactly when some event powered it and none halted it since |
| RolloutHistory.LivesIff | franka_deploy/control_loop.py:244-249 | over every run a thread is alive exactly when it was spawned and neither ended nor was joined since |
| RolloutHistory.MovesIff | franka_deploy/control_loop.py:220-254 | over every run a thread's targets move the arm exactly when it is so alive, the node so powered, and powered live and not read-only since |
| RolloutHistory.AcceptedMovesNothingIff | franka_deploy/control_loop.py:250-254 | accepted targets move nothing exactly when the node was halted since it was last powered |
| RolloutHistory.StartMovesIff | franka_deploy/control_loop.py:230-242 | after any run a start that goes through moves the arm always on a stub that is not live, and on a live one exactly when the node is still powered live |
| RolloutLoops.HasStubIff | franka_deploy/control_loop.py:156-160 | over every run a loop has a stub, so that an emergency stop calls the node, exactly when a connect of it was ever attempted |
| RolloutLoops.StubLiveIff | franka_deploy/control_loop.py:230-234 | and the stub counts as live exactly when the last connect that was answered was a live one |
| Rollout.StartAfterEstopIsDead | franka_deploy/control_loop.py:230-234 | one such: a start after an emergency stop does not reconnect, and its accepted targets move nothing |
| RolloutHistory.StagedOrder | franka_deploy/api/routes_control.py:110-130 | over every run a thread's loop was confirmed, then a start began on it, then the thread was spawned, and before that the loop was connected live |
| RolloutHistory.DetectedFirstIff | franka_deploy/api/routes_control.py:110-114 | in a whole run every loop is detected before each of its confirms exactly when every confirm meets a loop already detected |
| Rollout.DetectIsNotNeeded | franka_deploy/api/routes_control.py:110-130 | one where it is not: confirm and start alone move the robot |
| RolloutHistory.AnnouncedDeadIff | franka_deploy/control_loop.py:240-249 | after any run the RUNNING a start writes is for a thread no longer alive exactly when that thread ended or was joined since it was spawned |
| Rollout.RunningWithoutThread | franka_deploy/control_loop.py:240-242 | one such: the thread fails before start returns, and no thread is left |
| RolloutHistory.RunningAfterStop | franka_deploy/control_loop.py:240-249 | another: a stop joins it before start returns, and no thread is left |

## Left out

- Floating point: all arithmetic is over exact reals; NaN and infinities do not occur.
- FilterContainment.Containment: Tuned is sufficient for moves of any length; AlwaysContainedNeeds gives necessary conditions of the same kind, and the exact condition between the two is not stated. On braking, for short ticks and many facets, Tuned admits wn vMax up to about 3.3 aMax and the necessary side refuses 4 aMax; Agile also asks jMax to follow 2 wn aMax.
- FilterNoOvershoot.NoOvershoot: likewise between Tuned and OvershootFreeNeeds, though exact for small moves (SmallMovesApproachIff); a target that changes mid-move is covered by containment only.
- FilterNoOvershoot.NoUndershoot: the same.
- FilterConvergence.ReachesTarget: tuned filters only.
- FilterSettles.SettlesFromAnywhere: likewise, and without a bound on how far a joint already moving swings past.
- RuntimeTargets.CommandReachesTarget: about the command; how the arm follows it is physics outside the model.
- Runtime.CommandsContained: the poses frozen by stop are assumed inside the box, since the code freezes the measured pose unchecked; stop's polling for standstill is one event.
- Watchdog.OscillationWatchdog.Update: a window of at least one sample; the deque and its arrays are sequences.
- InverseKinematics.IkRange: says nothing about convergence; the damped linear solve is an arbitrary function to seven joints.
- PolicyClient.PutFailsIff: the payload is a tree of values assigned recursively, so that two names sharing one dict object in place is not modelled; field encodings are part of the supplied values.
- Rollout.AcceptedTargetWasEarned: start is split at its blocking calls and its RUNNING write, detect at its end, disconnect at its clearing of the installed loop; the stretches between these are one event each. The FCI, ZMQ and HTTP are reduced to whether a call was answered, refused or lost.
- SessionRun.NothingOutstanding: whether the worker's predict returned or raised is not told apart; the prediction before the loop has returned; requests are numbered as in runs whose bodies build.
- ee_waypoint_step_to_joint, ee_chunk_to_joint_chunk and compute_proprio_single: variants and field packing over the same functions.
- Cameras, image encoding, plugins, environment substitution in headers, telemetry, the dashboard, persistence and workspace bounds: input and output, or copies and box checks that would add only easy members.
- Response detection: heuristic thresholds that a person confirms.
