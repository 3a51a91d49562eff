/**
 * GripperController.cs: drives two finger transforms along one local axis towards an
 * open or a closed position, mirrored about zero, and tells the fingers' SimpleGripper
 * scripts to open or close.
 */
module GripperControl {
  import opened Unity
  import opened SimpleGripping

  /** Line 19: the local axis the fingers slide along. */
  datatype Axis = X | Y | Z

  /** Lines 71-84: the component of `v` along `axis`. */
  function AxisValue(v: Vector3, axis: Axis): real {
    match axis
    case X => v.x
    case Y => v.y
    case Z => v.z
  }

  /** Lines 86-102: `v` with its component along `axis` replaced by `val`. */
  function WithAxisValue(v: Vector3, axis: Axis, val: real): (r: Vector3)
    ensures AxisValue(r, axis) == val
    ensures forall other: Axis :: other != axis ==> AxisValue(r, other) == AxisValue(v, other)
  {
    match axis
    case X => Vector3(val, v.y, v.z)
    case Y => Vector3(v.x, val, v.z)
    case Z => Vector3(v.x, v.y, val)
  }

  /** Writing back the value just read changes nothing. */
  lemma WithOwnAxisValue(v: Vector3, axis: Axis)
    ensures WithAxisValue(v, axis, AxisValue(v, axis)) == v
  {
  }

  /** Writing twice keeps only the second value. */
  lemma WithAxisValueTwice(v: Vector3, axis: Axis, a: real, b: real)
    ensures WithAxisValue(WithAxisValue(v, axis, a), axis, b) == WithAxisValue(v, axis, b)
  {
  }

  /**
   * One FixedUpdate step never overshoots: the finger lands between where it was and
   * its target, no farther from the target than before, and on the target once
   * `deltaTime * moveSpeed` reaches 1.
   */
  lemma LerpApproaches(current: real, target: real, t: real)
    ensures current <= target ==> current <= Lerp(current, target, t) <= target
    ensures target <= current ==> target <= Lerp(current, target, t) <= current
    ensures t >= 1.0 ==> Lerp(current, target, t) == target
    ensures t <= 0.0 ==> Lerp(current, target, t) == current
  {
    if current <= target {
      LerpUp(current, target, t);
    }
    if target <= current {
      LerpDown(current, target, t);
    }
  }

  /** Lerp towards a larger value stays within the span. */
  lemma LerpUp(a: real, b: real, t: real)
    requires a <= b
    ensures a <= Lerp(a, b, t) <= b
  {
    var c := Clamp01(t);
    MulNonneg(b - a, c);
    MulNonneg(b - a, 1.0 - c);
    assert (b - a) * (1.0 - c) == (b - a) - (b - a) * c;
  }

  /** Lerp towards a smaller value stays within the span. */
  lemma LerpDown(a: real, b: real, t: real)
    requires b <= a
    ensures b <= Lerp(a, b, t) <= a
  {
    var c := Clamp01(t);
    MulNonneg(a - b, c);
    MulNonneg(a - b, 1.0 - c);
    assert (a - b) * (1.0 - c) == (a - b) - (a - b) * c;
    assert (b - a) * c == -((a - b) * c);
  }

  /** The product of two nonnegative reals is nonnegative. */
  lemma MulNonneg(x: real, y: real)
    requires x >= 0.0 && y >= 0.0
    ensures x * y >= 0.0
  {
  }

  class GripperController {
    const leftFinger: Transform
    const rightFinger: Transform
    const leftPhysic: SimpleGripper?
    const rightPhysic: SimpleGripper?
    const openPos: real
    const closePos: real
    const moveSpeed: real
    const movementAxis: Axis
    var currentTarget: real

    /** Lines 5-22: the inspector settings; currentTarget starts at 0. */
    constructor (leftFinger: Transform, rightFinger: Transform,
                 leftPhysic: SimpleGripper?, rightPhysic: SimpleGripper?,
                 openPos: real, closePos: real, moveSpeed: real, movementAxis: Axis)
      ensures this.leftFinger == leftFinger && this.rightFinger == rightFinger
      ensures this.leftPhysic == leftPhysic && this.rightPhysic == rightPhysic
      ensures this.openPos == openPos && this.closePos == closePos
      ensures this.moveSpeed == moveSpeed && this.movementAxis == movementAxis
      ensures currentTarget == 0.0
    {
      this.leftFinger := leftFinger;
      this.rightFinger := rightFinger;
      this.leftPhysic := leftPhysic;
      this.rightPhysic := rightPhysic;
      this.openPos := openPos;
      this.closePos := closePos;
      this.moveSpeed := moveSpeed;
      this.movementAxis := movementAxis;
      currentTarget := 0.0;
    }

    /** The finger scripts that are present. */
    function Physics(): set<SimpleGripper> {
      (if leftPhysic != null then {leftPhysic} else {}) + (if rightPhysic != null then {rightPhysic} else {})
    }

    /** Lines 71-84: where a finger sits along the movement axis. */
    function GetAxisValue(tr: Transform): (r: real)
      reads tr
    {
      AxisValue(tr.localPosition, movementAxis)
    }

    /** Lines 86-102: only the selected component of the local position changes. */
    method SetAxisValue(tr: Transform, val: real)
      modifies tr`localPosition
      ensures tr.localPosition == WithAxisValue(old(tr.localPosition), movementAxis, val)
      ensures GetAxisValue(tr) == val
    {
      var pos := tr.localPosition;
      if movementAxis == X {
        tr.localPosition := Vector3(val, pos.y, pos.z);
      } else if movementAxis == Y {
        tr.localPosition := Vector3(pos.x, val, pos.z);
      } else {
        tr.localPosition := Vector3(pos.x, pos.y, val);
      }
    }

    /** Lines 41-54: aim for the open position and open every present finger script. */
    method OpenGripper()
      modifies this`currentTarget, Physics()`isClosing, Physics()`joint
      ensures currentTarget == openPos
      ensures forall g :: g in Physics() ==> !g.isClosing && g.joint.None?
      ensures forall g :: g in Physics() ==> g.breakForce == old(g.breakForce)
    {
      currentTarget := openPos;
      if leftPhysic != null {
        leftPhysic.Open();
      }
      if rightPhysic != null {
        rightPhysic.Open();
      }
    }

    /** Lines 56-69: aim for the closed position and start closing every present finger script. */
    method CloseGripper()
      modifies this`currentTarget, Physics()`isClosing
      ensures currentTarget == closePos
      ensures forall g :: g in Physics() ==> g.isClosing && g.joint == old(g.joint)
      ensures forall g :: g in Physics() ==> g.breakForce == old(g.breakForce)
    {
      currentTarget := closePos;
      if leftPhysic != null {
        leftPhysic.Close();
      }
      if rightPhysic != null {
        rightPhysic.Close();
      }
    }

    /** Lines 25-28. */
    method Start()
      modifies this`currentTarget, Physics()`isClosing, Physics()`joint
      ensures currentTarget == openPos
      ensures forall g :: g in Physics() ==> !g.isClosing && g.joint.None?
      ensures forall g :: g in Physics() ==> g.breakForce == old(g.breakForce)
    {
      OpenGripper();
    }

    /**
     * Lines 30-38: the left finger moves to `Lerp(current, currentTarget, deltaTime * moveSpeed)`
     * and the right finger to its negation; the right finger's old value is never read,
     * and the other components stay. Afterwards the fingers mirror each other.
     */
    method FixedUpdate(deltaTime: real)
      modifies leftFinger`localPosition, rightFinger`localPosition
      ensures var nextVal := Lerp(old(GetAxisValue(leftFinger)), currentTarget, deltaTime * moveSpeed);
        && rightFinger.localPosition == WithAxisValue(old(rightFinger.localPosition), movementAxis, -nextVal)
        && (leftFinger != rightFinger ==>
              leftFinger.localPosition == WithAxisValue(old(leftFinger.localPosition), movementAxis, nextVal))
      ensures leftFinger != rightFinger ==> GetAxisValue(rightFinger) == -GetAxisValue(leftFinger)
    {
      var currentVal := GetAxisValue(leftFinger);
      var nextVal := Lerp(currentVal, currentTarget, deltaTime * moveSpeed);
      SetAxisValue(leftFinger, nextVal);
      SetAxisValue(rightFinger, -nextVal);
    }
  }
}
