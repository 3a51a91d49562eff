# Robot arm control scripts, modelled in Dafny

This project models the control logic of five Unity scripts from a robot-arm simulation.
- **CCDIKSolver** is a Cyclic Coordinate Descent inverse-kinematics solver. It turns the arm's joints, one after another, so the gripper tip moves towards a target.
- **JointSender** publishes joint positions over ROS, but only when they have changed.
- **GripperController**, **SimpleGripper** and **RobotArmController** open and close the gripper, attach grasped objects and test whether the tool has arrived.

Unity's objects appear as Dafny classes whose fields the scripts update in place (`unity.dfy`): `Transform`, `ArticulationBody` and `Rigidbody`. Unity's structs are datatypes: `Vector3`, `Quaternion` and `ArticulationDrive`. C# `float` and `double` are modelled as `real`.

The solver (`ccd_ik.dfy`) follows the source's structure:
- its two nested loops run over the transform array and the articulation-body array;
- the joint rotations and drive targets are written in place;
- the early exits and the early `break` are kept.

The solver's quaternion and vector operations are uninterpreted functions (`UnityMath`). The tip position, a joint's position and a joint's parent rotation are functions of the joints' world rotations (`SceneGraph`). `SceneGraph.below` says which joint transforms lie under which. Writing a joint's world rotation turns every joint below it by the same change, as Unity's `Transform.rotation` setter does (`Turn`).

`SolveIK` is proved to leave the arrays exactly as the specification function `Solve` describes. A ghost log records each joint update it performs. `ccd_ik_properties.dfy` then proves what a solve does:
- the step-angle cap holds;
- drive targets fall in (-180, 180];
- each sweep visits the actuated joints, tip to base;
- fixed joints keep their drives, joints that nothing above them can turn keep their rotations, and no drive setting changes except the target;
- the final chain is exactly the logged updates replayed in order;
- at most `iterations` sweeps run, and the loop stops right after the first sweep that reaches the target.

JointSender (`joint_sender.dfy`) keeps the source's loops and arrays. Published messages are appended to a ghost log. SimpleGripper (`simple_gripper.dfy`) is a state machine over the closing flag and the optional fixed joint, and each event handler of the class is proved to perform one step of it. `gripper_controller.dfy` and `robot_arm_controller.dfy` model the other two controllers.

## Model

| member | source | states |
|---|---|---|
| CcdIk.WrapAngle | Assets/Scripts/CCDIKSolver.cs:103-109 | an Euler angle in [0, 360) is mapped into (-180, 180]; angles up to 180 are kept and larger ones lose one full turn |
| CcdIkProperties.WrapAngleUnique | Assets/Scripts/CCDIKSolver.cs:103-109 | the wrapped value is the only angle in (-180, 180] a whole number of turns away from an input in [0, 360) |
| CcdIk.ClampAngle | Assets/Scripts/CCDIKSolver.cs:88-91 | the step angle never exceeds maxAngleChange, smaller angles pass unchanged, and there is no lower clamp |
| CcdIk.Update | Assets/Scripts/CCDIKSolver.cs:76-109 | the update for joint j concerns joint j; its AngleAxis angle is at most maxAngleChange; its drive target is in (-180, 180] when Euler angles lie in [0, 360) |
| CcdIk.Turn | Assets/Scripts/CCDIKSolver.cs:117 | writing joint j's world rotation q sets joint j's rotation to q; each joint below j becomes `q * inverse(old rotation of j) * its old rotation`; every other joint keeps its rotation |
| CcdIk.Apply | Assets/Scripts/CCDIKSolver.cs:111-117 | writing one joint update keeps the chain's length |
| CcdIkProperties.ApplyWrites | Assets/Scripts/CCDIKSolver.cs:111-117 | writing an update sets the joint's world rotation and its drive target; no rotation outside the joint's subtree changes, no other drive changes, and no other drive setting of that joint changes |
| CcdIk.JointStep | Assets/Scripts/CCDIKSolver.cs:67-117 | the inner loop body keeps the chain the same length as the joint arrays |
| CcdIk.SweepDown | Assets/Scripts/CCDIKSolver.cs:65-118 | the reverse joint loop keeps the chain the same length as the joint arrays |
| CcdIk.Sweeps | Assets/Scripts/CCDIKSolver.cs:62-125 | the outer loop keeps the chain the same length as the joint arrays |
| CcdIk.Solve | Assets/Scripts/CCDIKSolver.cs:52-125 | the whole solve keeps the chain the same length as the joint arrays |
| CcdIk.SweepsStep | Assets/Scripts/CCDIKSolver.cs:62-125 | one outer iteration is a sweep, followed by a stop when the tip is within tolerance and by the remaining iterations otherwise |
| CcdIk.CCDIKSolver.constructor | Assets/Scripts/CCDIKSolver.cs:7-17 | inspector references and parameters are stored; the articulation array starts null |
| CcdIk.CCDIKSolver.Start | Assets/Scripts/CCDIKSolver.cs:19-34 | for a non-empty joint array, a fresh array of the same length holds each joint's ArticulationBody; otherwise the articulation array is left as it was (null after construction) |
| CcdIk.CCDIKSolver.Rotations | Assets/Scripts/CCDIKSolver.cs:94 | one world rotation per joint transform, in order |
| CcdIk.CCDIKSolver.SolveIK | Assets/Scripts/CCDIKSolver.cs:42-126 | with a reference unassigned no transform or body changes; otherwise the arrays end holding exactly the chain of Solve on the entry state, and the ghost log holds Solve's joint updates; only the joint transforms' rotations and the bodies' xDrive may change |
| CcdIk.CCDIKSolver.RunSweeps | Assets/Scripts/CCDIKSolver.cs:62-125 | the sweep loop performs exactly Sweeps with `iterations` iterations, changing only rotations and xDrives |
| CcdIk.CCDIKSolver.SweepAndCheck | Assets/Scripts/CCDIKSolver.cs:65-124 | one sweep, changing only rotations and xDrives, and a result that is true exactly when the new tip is within tolerance |
| CcdIk.CCDIKSolver.SweepJoints | Assets/Scripts/CCDIKSolver.cs:65-118 | the reverse joint loop performs exactly one Sweep, changing only rotations and xDrives |
| CcdIk.CCDIKSolver.StepJoint | Assets/Scripts/CCDIKSolver.cs:67-117 | the inner loop body performs exactly JointStep on joint j: a joint with no degree of freedom is skipped; for an actuated one its drive target is written, and its world rotation is written together with those of the joints below it; only the joint transforms' rotations, joint j's xDrive and the ghost log may change |
| CcdIk.CCDIKSolver.ComputeUpdate | Assets/Scripts/CCDIKSolver.cs:76-109 | the angle, drive target and new world rotation computed from the current transforms are exactly those of Update on the current chain |
| CcdIk.CCDIKSolver.WriteDriveTarget | Assets/Scripts/CCDIKSolver.cs:112-114 | only the target of joint j's xDrive changes, and no other body's drive |
| CcdIk.CCDIKSolver.SetRotation | Assets/Scripts/CCDIKSolver.cs:117 | the joint transforms' rotations become exactly Turn of the old ones: joint j takes the new rotation and the joints below it turn with it |
| CcdIkProperties.JointStepBounded | Assets/Scripts/CCDIKSolver.cs:88-109 | one joint step keeps every logged angle within the cap and every drive target in range |
| CcdIkProperties.SweepDownBounded | Assets/Scripts/CCDIKSolver.cs:65-118 | every update of a partial sweep respects the angle cap and the drive-target range |
| CcdIkProperties.SweepsBounded | Assets/Scripts/CCDIKSolver.cs:62-125 | every update of the outer loop respects the angle cap and the drive-target range |
| CcdIkProperties.SolveBounded | Assets/Scripts/CCDIKSolver.cs:88-109 | in a whole solve, no AngleAxis angle exceeds maxAngleChange and every drive target is in (-180, 180] |
| CcdIkProperties.Joints | Assets/Scripts/CCDIKSolver.cs:65 | the joint index of each logged update, in order |
| CcdIkProperties.ExtendTwice | Assets/Scripts/CCDIKSolver.cs:62-118 | the updates logged by two consecutive stretches of the loop are those of the first followed by those of the second |
| CcdIkProperties.ActuatedBelowSpec | Assets/Scripts/CCDIKSolver.cs:65-74 | the list of joints a sweep visits holds exactly the joints with a nonzero dofCount, in strictly decreasing index order |
| CcdIkProperties.JointStepAppends | Assets/Scripts/CCDIKSolver.cs:70-117 | one joint step keeps the earlier log and logs an update for that joint exactly when it has a degree of freedom |
| CcdIkProperties.SweepDownVisits | Assets/Scripts/CCDIKSolver.cs:65-118 | a sweep keeps the earlier log and appends exactly one update per actuated joint, from the tip to the base |
| CcdIkProperties.Repeat | Assets/Scripts/CCDIKSolver.cs:62 | k copies of a visit list are k times as long |
| CcdIkProperties.SweepsVisits | Assets/Scripts/CCDIKSolver.cs:62-125 | the outer loop logs the tip-to-base visit list once per sweep run and nothing else |
| CcdIkProperties.ConformsTransitive | Assets/Scripts/CCDIKSolver.cs:112-117 | the relation "fixed drives, anchored rotations and every drive setting but the target unchanged" composes |
| CcdIkProperties.JointStepConforms | Assets/Scripts/CCDIKSolver.cs:70-117 | one joint step keeps fixed drives, anchored rotations and every drive setting but the target |
| CcdIkProperties.SweepDownConforms | Assets/Scripts/CCDIKSolver.cs:65-118 | a sweep keeps fixed joints' drives and anchored joints' rotations, and changes no drive field but the target |
| CcdIkProperties.SweepsConform | Assets/Scripts/CCDIKSolver.cs:62-125 | the outer loop keeps fixed joints' drives and anchored joints' rotations, and changes no drive field but the target |
| CcdIkProperties.SolveConforms | Assets/Scripts/CCDIKSolver.cs:70-117 | a joint with dofCount 0 keeps its drive, and also its rotation when it lies below no actuated joint; on every joint, every drive field except the target is preserved |
| CcdIkProperties.ApplyAll | Assets/Scripts/CCDIKSolver.cs:111-117 | replaying updates keeps the chain's length |
| CcdIkProperties.JointStepReplays | Assets/Scripts/CCDIKSolver.cs:111-117 | one joint step keeps the chain equal to its log replayed onto the starting chain |
| CcdIkProperties.SweepDownReplays | Assets/Scripts/CCDIKSolver.cs:65-118 | a sweep's chain is its log replayed onto the chain it started from |
| CcdIkProperties.SweepsReplay | Assets/Scripts/CCDIKSolver.cs:62-125 | the outer loop's chain is its log replayed onto the chain it started from |
| CcdIkProperties.SolveReplays | Assets/Scripts/CCDIKSolver.cs:111-117 | the final chain is the logged joint updates applied in order to the entry chain, so nothing else is written |
| CcdIkProperties.Iterate | Assets/Scripts/CCDIKSolver.cs:62-118 | k unconditional sweeps keep the chain the same length as the joint arrays |
| CcdIkProperties.SweepsStop | Assets/Scripts/CCDIKSolver.cs:62-125 | at most `iterations` sweeps run, and at least one when `iterations > 0`; the result is that many sweeps; every sweep before the last misses the target; stopping before the bound means the target was reached |
| CcdIkProperties.SolveAlreadyReached | Assets/Scripts/CCDIKSolver.cs:52-56 | a tip already within tolerance ends the solve with no update and the chain unchanged |
| JointSending.ActiveJointsMembers | Assets/Scripts/JointSender.cs:47-54 | a joint is in the active list exactly when it is in the input, is not a FixedJoint and has a positive dofCount |
| JointSending.ActiveJointsAppend | Assets/Scripts/JointSender.cs:47-54 | the filter keeps the input order: filtering a concatenation gives the concatenated filtered parts |
| JointSending.Abs | Assets/Scripts/JointSender.cs:122 | Math.Abs is nonnegative and equals the input or its negation |
| JointSending.UnchangedAfterSend | Assets/Scripts/JointSender.cs:122 | with a nonnegative threshold, positions equal to the snapshot never count as changed |
| JointSending.FirstPositions | Assets/Scripts/JointSender.cs:119 | one reading per active joint: its `jointPosition[0]` |
| JointSending.Message | Assets/Scripts/JointSender.cs:133-140 | the message has one name and one position per active joint: name[i] is joint i's name and position[i] is cur[i] |
| JointSending.JointSender.constructor | Assets/Scripts/JointSender.cs:10-29 | the field initialisers: no time elapsed, no active joints, no snapshot, first send pending, nothing published |
| JointSending.JointSender.Start | Assets/Scripts/JointSender.cs:44-56 | the active list gains the filtered joints in order; the snapshot is a fresh array of the same length, all zeros |
| JointSending.JointSender.CheckAndSendJointState | Assets/Scripts/JointSender.cs:107-150 | the result is true exactly when some position moved strictly more than changeThreshold; a message with the current positions is published exactly on the first call or on a change, and then the snapshot becomes the current positions; otherwise nothing changes; afterwards no first send is pending |
| JointSending.JointSender.ReadPositions | Assets/Scripts/JointSender.cs:109-126 | a fresh array of the current positions, and whether one differs from the snapshot by more than the threshold |
| JointSending.JointSender.Publish | Assets/Scripts/JointSender.cs:128-147 | the message of names and current positions is appended to the log, and the snapshot takes the current positions |
| JointSending.JointSender.Update | Assets/Scripts/JointSender.cs:60-105 | below minPublishInterval only time accumulates; otherwise a message goes out on the first call or a change, and the clock is reset only on a change, so a first send with no change leaves it running |
| SimpleGripping.TriggerAttachesIff | Assets/Scripts/SimpleGripper.cs:37-53 | after a trigger a joint is held exactly when one was held before, or the collider is tagged "Target" and has a rigidbody; a new joint holds that rigidbody at break force 5000; a held joint blocks any new attachment; the closing flag is untouched |
| SimpleGripping.TriggerIgnoresClosing | Assets/Scripts/SimpleGripper.cs:37-53 | whether a trigger attaches does not depend on the closing flag |
| SimpleGripping.HoldUntilReleased | Assets/Scripts/SimpleGripper.cs:37-60 | a held joint stays the same through any events other than Open and a joint break |
| SimpleGripping.BreakForceAlwaysGrasp | Assets/Scripts/SimpleGripper.cs:47-49 | every joint ever held breaks at 5000, whatever the breakForce field holds |
| SimpleGripping.SimpleGripper.constructor | Assets/Scripts/SimpleGripper.cs:5-9 | not closing, no joint, breakForce 600 |
| SimpleGripping.SimpleGripper.Open | Assets/Scripts/SimpleGripper.cs:11-19 | the gripper stops closing and drops any attached joint |
| SimpleGripping.SimpleGripper.Close | Assets/Scripts/SimpleGripper.cs:21-24 | the gripper starts closing and keeps the joint it holds |
| SimpleGripping.SimpleGripper.OnTriggerEnter | Assets/Scripts/SimpleGripper.cs:37-53 | the handler performs exactly the trigger step of the state machine |
| SimpleGripping.SimpleGripper.OnJointBreak | Assets/Scripts/SimpleGripper.cs:56-60 | the joint is forgotten and the closing flag kept |
| GripperControl.WithAxisValue | Assets/Scripts/GripperController.cs:86-102 | reading the chosen axis back gives the value written, and the other two components are unchanged |
| GripperControl.WithOwnAxisValue | Assets/Scripts/GripperController.cs:71-102 | writing back the value just read changes nothing |
| GripperControl.WithAxisValueTwice | Assets/Scripts/GripperController.cs:86-102 | of two writes to the same axis only the second counts |
| GripperControl.LerpApproaches | Assets/Scripts/GripperController.cs:33-34 | a FixedUpdate step lands between the current value and the target; with `deltaTime * moveSpeed` at least 1 it lands on the target, and at 0 or less it stays put |
| GripperControl.GripperController.constructor | Assets/Scripts/GripperController.cs:5-22 | inspector settings are stored; currentTarget starts at 0 |
| GripperControl.GripperController.SetAxisValue | Assets/Scripts/GripperController.cs:86-102 | only the selected component of the local position changes, and reading it back gives the value written |
| GripperControl.GripperController.OpenGripper | Assets/Scripts/GripperController.cs:41-54 | the target becomes openPos, and every present finger script stops closing and releases its joint; breakForce and everything else is untouched |
| GripperControl.GripperController.CloseGripper | Assets/Scripts/GripperController.cs:56-69 | the target becomes closePos, and every present finger script starts closing and keeps its joint; only the closing flags change |
| GripperControl.GripperController.Start | Assets/Scripts/GripperController.cs:25-28 | the gripper starts open: the target is openPos, every present finger script is not closing and holds no joint, and its breakForce is unchanged |
| GripperControl.GripperController.FixedUpdate | Assets/Scripts/GripperController.cs:30-38 | the left finger moves to the Lerp of its own value towards the target, and the right finger to the negation of that; the right finger's old value is not read; afterwards the fingers mirror each other |
| ArmControl.RobotArmController.constructor | Assets/Scripts/RobotArmController.cs:5-20 | inspector settings are stored; both debug flags start cleared |
| ArmControl.RobotArmController.IsAtTarget | Assets/Scripts/RobotArmController.cs:45-54 | false when the tool link or the target is missing; true only for a positive tolerance |
| ArmControl.RobotArmController.IsAtTargetIsDistanceTest | Assets/Scripts/RobotArmController.cs:53 | for the distance d between tool link and target, the test is exactly `d < tolerance`, strictly |
| ArmControl.RobotArmController.IsAtTargetAgreesWithSolver | Assets/Scripts/RobotArmController.cs:53 | for a positive tolerance the arm's test agrees with the solver's squared-distance stopping test |
| ArmControl.RobotArmController.SetGripperState | Assets/Scripts/RobotArmController.cs:103-121 | every present finger's drive gets gripperCloseValue when closing and gripperOpenValue otherwise; no other drive field changes |
| ArmControl.RobotArmController.PerformGrasp | Assets/Scripts/RobotArmController.cs:57-80 | the fingers close; a present object is parented to the tool link, and its rigidbody, if any, becomes kinematic |
| ArmControl.RobotArmController.ReleaseGrasp | Assets/Scripts/RobotArmController.cs:83-100 | the fingers open; a present object is detached, and its rigidbody, if any, stops being kinematic |
| ArmControl.RobotArmController.Update | Assets/Scripts/RobotArmController.cs:29-42 | both debug flags end cleared; a set release flag opens the fingers even when the grasp flag was also set; a grasp flag alone closes them; with neither set the drives are unchanged |
| ArmControl.SquareMonotone | Assets/Scripts/RobotArmController.cs:53 | on nonnegative distances, comparing squares decides the same as comparing distances |

## Left out

- Quaternion and vector numerics are uninterpreted: Normalize, FromToRotation, ToAngleAxis, AngleAxis, quaternion product, Inverse and eulerAngles.x. So the solver's results are stated relative to these operations, and convergence is not claimed.
- Unity moves child transforms when a rotation is written (line 117). The model propagates the change to the world rotations of the joints below (`Turn`, `SceneGraph.below`). Transforms outside the joint array, such as the gripper tip, are not stepped: their positions are SceneGraph functions of the joint rotations. Positions are not stored in the joint transforms either.
- CcdIk.CCDIKSolver: the entries of `jointArr` are non-null. A null inspector slot is not modelled, because the source dereferences it at lines 27, 77 and 94 and throws.
- CcdIk.CCDIKSolver.SolveIK requires `Wired()`: both arrays have the same length, every articulation body is present, and no transform or body occurs twice. The source dereferences a missing body at line 71, which throws; Start only logs it (lines 28-31).
- CcdIk.CCDIKSolver.SolveIK: the root joint's `parent` may be null at line 98. The model reads the parent rotation through the SceneGraph, so it does not model that exception.
- CCDIKSolver.FixedUpdate (lines 36-40) only calls SolveIK. That call is the SolveIK model itself.
- All the solver's parameters come as constructor arguments. Their inspector defaults are iterations 10, maxAngleChange 10 and tolerance 0.01.
- An empty joint array leaves the articulation array null (CcdIk.CCDIKSolver.Start). SolveIK then takes its unassigned branch. The model states these two contracts separately, with no lemma combining them.
- The ROS connection, topic registration and `ros.Publish` (JointSender.cs lines 35-38 and 146) are I/O. Publishing is modelled as appending to the ghost log `published`.
- `GetComponentsInChildren<ArticulationBody>()` (JointSender.cs line 44) is the array argument of JointSending.JointSender.Start.
- JointSending.JointSender.CheckAndSendJointState requires `Started()`: Start has run, and every active joint has at least one position reading (line 119 indexes `jointPosition[0]`).
- The body of CheckAndSendJointState is split into ReadPositions and Publish, along the source's two loops.
- `publishRate` (JointSender.cs line 11) is only read by commented-out code. It is not modelled.
- `Time.deltaTime` is a parameter of JointSender.Update and GripperController.FixedUpdate.
- Commented-out code is not modelled: JointSender.cs lines 69-97, SimpleGripper.cs lines 26-36 and RobotArmController.cs line 76.
- `Debug.Log` and `Debug.LogError` are not modelled. Neither is `Destroy` of the fixed-joint component: the joint is an optional value.
- `AddComponent<FixedJoint>` is represented by the `FixedJoint` value. The physics engine's decision to break a joint is the `OnJointBreak` event.
- Which Unity lifecycle callback runs when, and how often, is not modelled. Each callback is a method the caller may invoke in any order its precondition allows.
- GripperControl.GripperController: `leftFinger` and `rightFinger` are non-null. The source would throw in FixedUpdate without them.
- GripperControl.GripperController.FixedUpdate: when both fingers are the same transform, only the right finger's value is stated, and the mirroring is not.
- Unity's `leftPhysic == true` test is its null check.
- `Mathf.Lerp` is modelled by its documented definition `a + (b - a) * Clamp01(t)`, on reals.
- `Transform.SetParent` is modelled as assigning `parent` only. The world-position-preserving update of the local position is left out.
- RobotArmController.Start (lines 23-26) is empty and has no model.
- ArmControl.RobotArmController.IsAtTarget decides `Vector3.Distance(...) < tolerance` on squared distances, because there is no square root on reals here. IsAtTargetIsDistanceTest proves the two agree for the distance `d` between tool link and target.
- Floating-point rounding and single precision are not modelled: `float` and `double` are `real`.
- Assets/Scripts/GraspDatasetCollector.cs is not part of this model: it is coroutine, random, file and capture glue.
- Assets/Scripts/TargetDetector.cs is not part of this model: it is a camera raycast and physics query.
