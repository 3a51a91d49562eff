/**
 * RobotArmController.cs: opens and closes the two finger joints of the arm's gripper by
 * setting their drive targets, attaches a grasped object to the tool link and lets it go
 * again, and tells whether the tool link has reached a target.
 */
module ArmControl {
  import opened Unity
  import CcdIk

  /** A transform that may be absent, as a set for frames. */
  function PresentTransform(t: Transform?): set<Transform> {
    if t == null then {} else {t}
  }

  /** A joint that may be absent, as a set for frames. */
  function PresentBody(b: ArticulationBody?): set<ArticulationBody> {
    if b == null then {} else {b}
  }

  /** The rigidbody of an object that may be absent, as a set for frames. */
  function PresentRigidbody(t: Transform?): set<Rigidbody> {
    if t == null || t.rigidbody == null then {} else {t.rigidbody}
  }

  class RobotArmController {
    const toolLink: Transform?
    const leftFingerJoint: ArticulationBody?
    const rightFingerJoint: ArticulationBody?
    const gripperOpenValue: real
    const gripperCloseValue: real
    var testGrasp: bool
    var testRelease: bool

    /** Lines 5-20: the inspector settings; both debug flags start cleared. */
    constructor (toolLink: Transform?, leftFingerJoint: ArticulationBody?, rightFingerJoint: ArticulationBody?,
                 gripperOpenValue: real, gripperCloseValue: real)
      ensures this.toolLink == toolLink
      ensures this.leftFingerJoint == leftFingerJoint && this.rightFingerJoint == rightFingerJoint
      ensures this.gripperOpenValue == gripperOpenValue && this.gripperCloseValue == gripperCloseValue
      ensures !testGrasp && !testRelease
    {
      this.toolLink := toolLink;
      this.leftFingerJoint := leftFingerJoint;
      this.rightFingerJoint := rightFingerJoint;
      this.gripperOpenValue := gripperOpenValue;
      this.gripperCloseValue := gripperCloseValue;
      testGrasp := false;
      testRelease := false;
    }

    /** The finger joints that are present. */
    function Fingers(): set<ArticulationBody> {
      PresentBody(leftFingerJoint) + PresentBody(rightFingerJoint)
    }

    /** Line 105: the drive target for a closed or an open gripper. */
    function DriveTarget(isClosed: bool): real {
      if isClosed then gripperCloseValue else gripperOpenValue
    }

    /**
     * Lines 45-54: false when the tool link or the target is missing; otherwise whether
     * Vector3.Distance between them is below `tolerance`, decided here on the squared
     * distance (see IsAtTargetIsDistanceTest for the equivalence).
     */
    function IsAtTarget(target: Transform?, tolerance: real): (r: bool)
      reads toolLink, target
      ensures r ==> toolLink != null && target != null && tolerance > 0.0
    {
      if toolLink == null || target == null then false
      else tolerance > 0.0 && SqrMagnitude(Minus(toolLink.position, target.position)) < tolerance * tolerance
    }

    /** Whatever the distance `d` between tool link and target is, the test is `d < tolerance`. */
    lemma IsAtTargetIsDistanceTest(target: Transform, tolerance: real, d: real)
      requires toolLink != null
      requires IsDistance(d, toolLink.position, target.position)
      ensures IsAtTarget(target, tolerance) == (d < tolerance)
    {
      if tolerance > 0.0 {
        SquareMonotone(d, tolerance);
      }
    }

    /** For a positive tolerance the arm's test agrees with the solver's stopping test. */
    lemma IsAtTargetAgreesWithSolver(target: Transform, tolerance: real)
      requires toolLink != null && tolerance > 0.0
      ensures IsAtTarget(target, tolerance) == CcdIk.WithinTolerance(target.position, toolLink.position, tolerance)
    {
      assert Minus(target.position, toolLink.position) == Neg(Minus(toolLink.position, target.position));
    }

    /** Lines 103-121: every present finger drive gets the target for `isClosed`, nothing else changes. */
    method SetGripperState(isClosed: bool)
      modifies Fingers()`xDrive
      ensures forall f :: f in Fingers() ==> f.xDrive == old(f.xDrive).(target := DriveTarget(isClosed))
    {
      var targetValue := if isClosed then gripperCloseValue else gripperOpenValue;
      if leftFingerJoint != null {
        var drive := leftFingerJoint.xDrive;
        drive := drive.(target := targetValue);
        leftFingerJoint.xDrive := drive;
      }
      if rightFingerJoint != null {
        var drive := rightFingerJoint.xDrive;
        drive := drive.(target := targetValue);
        rightFingerJoint.xDrive := drive;
      }
    }

    /**
     * Lines 57-80: close the gripper; a present object is parented to the tool link and
     * its rigidbody, if any, made kinematic.
     */
    method PerformGrasp(targetObject: Transform?)
      modifies Fingers()`xDrive, PresentTransform(targetObject)`parent
      modifies PresentRigidbody(targetObject)`isKinematic
      ensures forall f :: f in Fingers() ==> f.xDrive == old(f.xDrive).(target := gripperCloseValue)
      ensures targetObject != null ==> targetObject.parent == toolLink
      ensures targetObject != null && targetObject.rigidbody != null ==> targetObject.rigidbody.isKinematic
    {
      SetGripperState(true);
      if targetObject != null {
        targetObject.parent := toolLink;
        var rb := targetObject.rigidbody;
        if rb != null {
          rb.isKinematic := true;
        }
      }
    }

    /**
     * Lines 83-100: open the gripper; a present object is detached to the scene root and
     * its rigidbody, if any, made dynamic again.
     */
    method ReleaseGrasp(targetObject: Transform?)
      modifies Fingers()`xDrive, PresentTransform(targetObject)`parent
      modifies PresentRigidbody(targetObject)`isKinematic
      ensures forall f :: f in Fingers() ==> f.xDrive == old(f.xDrive).(target := gripperOpenValue)
      ensures targetObject != null ==> targetObject.parent == null
      ensures targetObject != null && targetObject.rigidbody != null ==> !targetObject.rigidbody.isKinematic
    {
      SetGripperState(false);
      if targetObject != null {
        targetObject.parent := null;
        var rb := targetObject.rigidbody;
        if rb != null {
          rb.isKinematic := false;
        }
      }
    }

    /**
     * Lines 29-42: a raised debug flag closes (grasp) or opens (release) the gripper and
     * is lowered; when both are raised the release comes second and wins.
     */
    method Update()
      modifies this`testGrasp, this`testRelease, Fingers()`xDrive
      ensures !testGrasp && !testRelease
      ensures forall f :: f in Fingers() ==>
        f.xDrive == (if old(testRelease) then old(f.xDrive).(target := gripperOpenValue)
                     else if old(testGrasp) then old(f.xDrive).(target := gripperCloseValue)
                     else old(f.xDrive))
    {
      if testGrasp {
        SetGripperState(true);
        testGrasp := false;
      }
      if testRelease {
        SetGripperState(false);
        testRelease := false;
      }
    }
  }

  /** Componentwise negation. */
  function Neg(v: Vector3): (r: Vector3)
    ensures SqrMagnitude(r) == SqrMagnitude(v)
  {
    Vector3(-v.x, -v.y, -v.z)
  }

  /** On nonnegative reals, squaring preserves and reflects `<`. */
  lemma SquareMonotone(d: real, e: real)
    requires d >= 0.0 && e > 0.0
    ensures d < e <==> d * d < e * e
  {
    assert (e - d) * (e + d) == e * e - d * d;
    assert e + d > 0.0;
    if d < e {
      assert (e - d) * (e + d) > 0.0;
    } else {
      assert (e - d) * (e + d) <= 0.0;
    }
  }
}
