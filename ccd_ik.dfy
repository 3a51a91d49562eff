/**
 * The Cyclic Coordinate Descent inverse-kinematics solver of CCDIKSolver.cs.
 *
 * Unity's quaternion and vector numerics are uninterpreted (UnityMath), and the scene
 * graph is a set of functions of the joints' world rotations (SceneGraph): the tip, a
 * joint's position and a joint's parent rotation all move when a rotation is written.
 * The specification functions below describe one solve; the class method SolveIK runs
 * the source's nested loops over the transform and articulation-body arrays and is
 * proved to end in the state, and to perform the joint updates, that they describe.
 */
module CcdIk {
  import opened Unity

  /** Quaternion and vector operations of UnityEngine, uninterpreted. */
  datatype UnityMath = UnityMath(
    normalize: Vector3 -> Vector3,
    fromToRotation: (Vector3, Vector3) -> Quaternion,
    toAngleAxis: Quaternion -> (real, Vector3),
    angleAxis: (real, Vector3) -> Quaternion,
    multiply: (Quaternion, Quaternion) -> Quaternion,
    inverse: Quaternion -> Quaternion,
    eulerAngleX: Quaternion -> real)

  /**
   * World-space queries answered by the scene graph, given the joints' world rotations,
   * and the hierarchy among the joints: `below(j, k)` when joint k's transform lies
   * under joint j's, so that turning j turns k with it.
   */
  datatype SceneGraph = SceneGraph(
    tipPosition: seq<Quaternion> -> Vector3,
    jointPosition: (seq<Quaternion>, nat) -> Vector3,
    parentRotation: (seq<Quaternion>, nat) -> Quaternion,
    below: (nat, nat) -> bool)

  /** Everything one solve reads but never writes. */
  datatype Setup = Setup(
    math: UnityMath,
    scene: SceneGraph,
    target: Vector3,
    maxAngleChange: real,
    tolerance: real,
    dofCount: seq<nat>)

  /** What one solve writes: each joint's world rotation and its xDrive. */
  datatype Chain = Chain(rotations: seq<Quaternion>, drives: seq<ArticulationDrive>)

  /** One joint update: the clamped angle given to AngleAxis, the drive target, the new rotation. */
  datatype JointUpdate = JointUpdate(joint: nat, angle: real, driveTarget: real, rotation: Quaternion)

  /** A chain reached by some joint updates, with those updates in order. */
  datatype Progress = Progress(chain: Chain, updates: seq<JointUpdate>)

  /** The result of the sweep loop: final chain with all joint updates, and the number of sweeps run. */
  datatype Outcome = Outcome(progress: Progress, sweeps: nat)

  predicate Fits(s: Setup, c: Chain) {
    |c.rotations| == |s.dofCount| && |c.drives| == |s.dofCount|
  }

  /** Lines 106-109: maps an angle reported in [0, 360) onto the same direction in (-180, 180]. */
  function WrapAngle(x: real): (r: real)
    ensures 0.0 <= x < 360.0 ==> -180.0 < r <= 180.0
    ensures x <= 180.0 ==> r == x
    ensures x > 180.0 ==> r == x - 360.0
  {
    if x > 180.0 then x - 360.0 else x
  }

  /** Lines 88-91: caps a step angle from above only. */
  function ClampAngle(angle: real, maxAngleChange: real): (r: real)
    ensures r <= maxAngleChange
    ensures angle <= maxAngleChange ==> r == angle
    ensures r == angle || r == maxAngleChange
  {
    if angle > maxAngleChange then maxAngleChange else angle
  }

  /** Lines 53 and 121: the squared tip-to-target distance is below the squared tolerance. */
  predicate WithinTolerance(target: Vector3, tip: Vector3, tolerance: real) {
    SqrMagnitude(Minus(target, tip)) < tolerance * tolerance
  }

  /** The tip, placed by `rotations`, is within tolerance of the target. */
  predicate Reached(s: Setup, rotations: seq<Quaternion>) {
    WithinTolerance(s.target, s.scene.tipPosition(rotations), s.tolerance)
  }

  /** Unity reports eulerAngles in [0, 360). */
  ghost predicate EulerInUnityRange(math: UnityMath) {
    forall q :: 0.0 <= math.eulerAngleX(q) < 360.0
  }

  /** The update CCD computes for an actuated joint `j` of chain `c`. */
  function Update(s: Setup, c: Chain, j: nat): (u: JointUpdate)
    requires j < |c.rotations|
    ensures u.joint == j
    ensures u.angle <= s.maxAngleChange
    ensures EulerInUnityRange(s.math) ==> -180.0 < u.driveTarget <= 180.0
  {
    var jointPosition := s.scene.jointPosition(c.rotations, j);
    var tipVec := s.math.normalize(Minus(s.scene.tipPosition(c.rotations), jointPosition));
    var targetVec := s.math.normalize(Minus(s.target, jointPosition));
    var angleAxis := s.math.toAngleAxis(s.math.fromToRotation(tipVec, targetVec));
    var angle := ClampAngle(angleAxis.0, s.maxAngleChange);
    var newRotation := s.math.multiply(s.math.angleAxis(angle, angleAxis.1), c.rotations[j]);
    var local := s.math.multiply(s.math.inverse(s.scene.parentRotation(c.rotations, j)), newRotation);
    JointUpdate(j, angle, WrapAngle(s.math.eulerAngleX(local)), newRotation)
  }

  /**
   * Line 117 as Unity carries it out: joint j's world rotation becomes `q`, every joint
   * below j keeps its rotation relative to j and so turns by `q * inverse(rotations[j])`,
   * and every other joint stays.
   */
  function Turn(s: Setup, rotations: seq<Quaternion>, j: nat, q: Quaternion): (r: seq<Quaternion>)
    requires j < |rotations|
    ensures |r| == |rotations| && r[j] == q
    ensures forall k :: 0 <= k < |rotations| && k != j && !s.scene.below(j, k) ==> r[k] == rotations[k]
    ensures forall k :: 0 <= k < |rotations| && k != j && s.scene.below(j, k) ==>
      r[k] == s.math.multiply(s.math.multiply(q, s.math.inverse(rotations[j])), rotations[k])
  {
    seq(|rotations|, k requires 0 <= k < |rotations| =>
      if k == j then q
      else if s.scene.below(j, k) then s.math.multiply(s.math.multiply(q, s.math.inverse(rotations[j])), rotations[k])
      else rotations[k])
  }

  /** Writes an update: the joint's world rotation, carrying the joints below it, and only the target of its xDrive. */
  function Apply(s: Setup, c: Chain, u: JointUpdate): (r: Chain)
    requires u.joint < |c.rotations| && u.joint < |c.drives|
    ensures |r.rotations| == |c.rotations| && |r.drives| == |c.drives|
  {
    Chain(Turn(s, c.rotations, u.joint, u.rotation),
          c.drives[u.joint := c.drives[u.joint].(target := u.driveTarget)])
  }

  /** One pass of the inner loop body on joint `j`: a fixed joint is skipped, an actuated one updated and logged. */
  function JointStep(s: Setup, p: Progress, j: nat): (q: Progress)
    requires Fits(s, p.chain) && j < |s.dofCount|
    ensures Fits(s, q.chain)
  {
    if s.dofCount[j] == 0 then p
    else
      var u := Update(s, p.chain, j);
      Progress(Apply(s, p.chain, u), p.updates + [u])
  }

  /** The inner loop from joint n-1 down to joint 0, each joint seeing the previous ones' writes. */
  function SweepDown(s: Setup, p: Progress, n: nat): (q: Progress)
    requires Fits(s, p.chain) && n <= |s.dofCount|
    ensures Fits(s, q.chain)
    decreases n
  {
    if n == 0 then p else SweepDown(s, JointStep(s, p, n - 1), n - 1)
  }

  /** One full sweep, tip to base. */
  function Sweep(s: Setup, p: Progress): (q: Progress)
    requires Fits(s, p.chain)
    ensures Fits(s, q.chain)
  {
    SweepDown(s, p, |s.dofCount|)
  }

  /** The outer loop with `remaining` iterations left, stopping after a sweep that reaches the target. */
  function Sweeps(s: Setup, p: Progress, remaining: int): (o: Outcome)
    requires Fits(s, p.chain)
    ensures Fits(s, o.progress.chain)
    decreases remaining
  {
    if remaining <= 0 then Outcome(p, 0)
    else
      var q := Sweep(s, p);
      if Reached(s, q.chain.rotations) then Outcome(q, 1)
      else
        var o := Sweeps(s, q, remaining - 1);
        Outcome(o.progress, o.sweeps + 1)
  }

  /** One iteration of the outer loop: a sweep, then either the break or the remaining iterations. */
  lemma SweepsStep(s: Setup, p: Progress, remaining: int)
    requires Fits(s, p.chain) && remaining > 0
    ensures var q := Sweep(s, p);
      Sweeps(s, p, remaining).progress ==
        if Reached(s, q.chain.rotations) then q else Sweeps(s, q, remaining - 1).progress
  {
  }

  /** SolveIK once every reference is assigned: nothing happens if the tip starts within tolerance. */
  function Solve(s: Setup, c: Chain, iterations: int): (o: Outcome)
    requires Fits(s, c)
    ensures Fits(s, o.progress.chain)
  {
    if Reached(s, c.rotations) then Outcome(Progress(c, []), 0) else Sweeps(s, Progress(c, []), iterations)
  }

  class CCDIKSolver {
    const target: Transform?
    const gripperTip: Transform?
    /** The chain's transforms, base to tip. */
    const jointArr: array?<Transform>
    const iterations: int
    const maxAngleChange: real
    const tolerance: real
    var articulationJointArr: array?<ArticulationBody?>
    /** The chain as the latest SolveIK left it, with the joint updates that call performed. */
    ghost var trace: Progress

    /** The inspector-assigned fields; the articulation array is built by Start. */
    constructor (target: Transform?, gripperTip: Transform?, jointArr: array?<Transform>,
                 iterations: int, maxAngleChange: real, tolerance: real)
      ensures this.target == target && this.gripperTip == gripperTip && this.jointArr == jointArr
      ensures this.iterations == iterations && this.maxAngleChange == maxAngleChange
      ensures this.tolerance == tolerance
      ensures articulationJointArr == null
    {
      this.target := target;
      this.gripperTip := gripperTip;
      this.jointArr := jointArr;
      this.iterations := iterations;
      this.maxAngleChange := maxAngleChange;
      this.tolerance := tolerance;
      articulationJointArr := null;
      trace := Progress(Chain([], []), []);
    }

    /** Lines 19-34: fetches each joint's ArticulationBody into a new array of the same length. */
    method Start()
      modifies this`articulationJointArr
      ensures jointArr != null && jointArr.Length > 0 ==>
        && articulationJointArr != null && fresh(articulationJointArr)
        && articulationJointArr.Length == jointArr.Length
        && forall i :: 0 <= i < jointArr.Length ==> articulationJointArr[i] == jointArr[i].articulationBody
      ensures !(jointArr != null && jointArr.Length > 0) ==> articulationJointArr == old(articulationJointArr)
    {
      if jointArr != null && jointArr.Length > 0 {
        var joints := jointArr;
        var bodies := new ArticulationBody?[joints.Length];
        for i := 0 to joints.Length
          invariant forall k :: 0 <= k < i ==> bodies[k] == joints[k].articulationBody
        {
          bodies[i] := joints[i].articulationBody;
        }
        articulationJointArr := bodies;
      }
    }

    /** Line 47: the references SolveIK checks before doing anything. */
    predicate Assigned()
      reads this`articulationJointArr
    {
      target != null && gripperTip != null && jointArr != null && articulationJointArr != null
    }

    /**
     * What SolveIK needs of the two arrays once both are assigned: they have the same
     * length (line 68 indexes one by the other's bound), every body is present (line 71
     * dereferences it), and no transform or body occurs twice.
     */
    ghost predicate Wired()
      reads this`articulationJointArr, jointArr, articulationJointArr
    {
      jointArr != null && articulationJointArr != null ==>
        && jointArr.Length == articulationJointArr.Length
        && (forall i :: 0 <= i < articulationJointArr.Length ==> articulationJointArr[i] != null)
        && (forall i, k :: 0 <= i < k < jointArr.Length ==> jointArr[i] != jointArr[k])
        && (forall i, k :: 0 <= i < k < articulationJointArr.Length ==>
              articulationJointArr[i] != articulationJointArr[k])
    }

    ghost predicate Ready()
      reads this`articulationJointArr, jointArr, articulationJointArr
    {
      Assigned() && Wired()
    }

    /** The joint transforms, as a set for frames. */
    ghost function Transforms(): set<Transform>
      reads jointArr
    {
      if jointArr == null then {} else set t | t in jointArr[..]
    }

    /** The articulation bodies present, as a set for frames. */
    ghost function Bodies(): set<ArticulationBody>
      reads this`articulationJointArr, articulationJointArr
    {
      if articulationJointArr == null then {} else set b: ArticulationBody | b in articulationJointArr[..]
    }

    /** The joints' current world rotations. */
    function Rotations(): (r: seq<Quaternion>)
      requires jointArr != null
      reads jointArr, jointArr[..]
      ensures |r| == jointArr.Length
      ensures forall i :: 0 <= i < jointArr.Length ==> r[i] == jointArr[i].rotation
    {
      var a := jointArr;
      seq(a.Length, i requires 0 <= i < a.Length reads a, a[..] => a[i].rotation)
    }

    /** The joints' current xDrive settings. */
    ghost function Drives(): (r: seq<ArticulationDrive>)
      requires Ready()
      reads this`articulationJointArr, jointArr, articulationJointArr, articulationJointArr[..]
      ensures |r| == articulationJointArr.Length
      ensures forall i :: 0 <= i < articulationJointArr.Length ==> r[i] == articulationJointArr[i].xDrive
    {
      var b := articulationJointArr;
      seq(b.Length, i requires 0 <= i < b.Length && b[i] != null reads b, b[..] => b[i].xDrive)
    }

    /** The chain the arrays currently hold. */
    ghost function CurrentChain(): Chain
      requires Ready()
      reads this`articulationJointArr, jointArr, articulationJointArr, jointArr[..], articulationJointArr[..]
    {
      Chain(Rotations(), Drives())
    }

    ghost function DofCounts(): (r: seq<nat>)
      requires Ready()
      reads this`articulationJointArr, jointArr, articulationJointArr
      ensures |r| == articulationJointArr.Length
      ensures forall i :: 0 <= i < articulationJointArr.Length ==> r[i] == articulationJointArr[i].dofCount
    {
      var b := articulationJointArr;
      seq(b.Length, i requires 0 <= i < b.Length && b[i] != null reads b => b[i].dofCount)
    }

    /** What a solve reads but never writes, taken from the current state. */
    ghost function SetupFor(math: UnityMath, scene: SceneGraph): Setup
      requires Ready()
      reads this`articulationJointArr, jointArr, articulationJointArr, target`position
    {
      Setup(math, scene, target.position, maxAngleChange, tolerance, DofCounts())
    }

    /** `s` holds what the solver reads but never writes. */
    ghost predicate Describes(s: Setup, math: UnityMath, scene: SceneGraph)
      requires Ready()
      reads this`articulationJointArr, jointArr, articulationJointArr, target`position
    {
      && s.math == math && s.scene == scene && s.target == target.position
      && s.maxAngleChange == maxAngleChange && s.tolerance == tolerance
      && |s.dofCount| == articulationJointArr.Length
      && forall i :: 0 <= i < articulationJointArr.Length ==> s.dofCount[i] == articulationJointArr[i].dofCount
    }

    /** The arrays hold exactly the chain of the trace. */
    ghost predicate Mirrors()
      requires Ready()
      reads this`articulationJointArr, this`trace, jointArr, articulationJointArr, jointArr[..], articulationJointArr[..]
    {
      Rotations() == trace.chain.rotations && Drives() == trace.chain.drives
    }

    /** Lines 42-126. */
    method SolveIK(math: UnityMath, scene: SceneGraph)
      requires Wired()
      modifies this`trace, Transforms()`rotation, Bodies()`xDrive
      ensures Wired()
      ensures !Assigned() ==> trace == old(trace)
      ensures !Assigned() && jointArr != null ==>
        forall i :: 0 <= i < jointArr.Length ==> unchanged(jointArr[i])
      ensures !Assigned() && articulationJointArr != null ==>
        forall i :: 0 <= i < articulationJointArr.Length && articulationJointArr[i] != null ==>
          unchanged(articulationJointArr[i])
      ensures Assigned() ==> Fits(old(SetupFor(math, scene)), old(CurrentChain()))
      ensures Assigned() ==>
        trace == Solve(old(SetupFor(math, scene)), old(CurrentChain()), iterations).progress
        && CurrentChain() == trace.chain
    {
      if target == null || gripperTip == null || jointArr == null || articulationJointArr == null {
        return;
      }
      ghost var s := SetupFor(math, scene);
      assert Describes(s, math, scene);
      trace := Progress(CurrentChain(), []);
      if WithinTolerance(target.position, scene.tipPosition(Rotations()), tolerance) {
        assert Reached(s, trace.chain.rotations);
        return;
      }
      assert !Reached(s, trace.chain.rotations);
      RunSweeps(math, scene, s);
      assert CurrentChain() == trace.chain;
    }

    /** Lines 62-125: at most `iterations` sweeps, stopping after the first that reaches the target. */
    method RunSweeps(math: UnityMath, scene: SceneGraph, ghost s: Setup)
      requires Ready() && Mirrors() && Describes(s, math, scene)
      modifies this`trace, Transforms()`rotation, Bodies()`xDrive
      ensures Ready() && Mirrors() && Describes(s, math, scene)
      ensures Fits(s, old(trace).chain)
      ensures trace == Sweeps(s, old(trace), iterations).progress
    {
      ghost var total := Sweeps(s, trace, iterations).progress;
      var i := 0;
      while i < iterations
        invariant 0 <= i
        invariant Ready() && Mirrors() && Describes(s, math, scene) && Fits(s, trace.chain)
        invariant total == Sweeps(s, trace, iterations - i).progress
        decreases iterations - i
      {
        ghost var before := trace;
        var reached := SweepAndCheck(math, scene, s);
        SweepsStep(s, before, iterations - i);
        if reached {
          break;
        }
        i := i + 1;
      }
    }

    /** Lines 65-124: one sweep, then whether the tip is within tolerance of the target. */
    method SweepAndCheck(math: UnityMath, scene: SceneGraph, ghost s: Setup) returns (reached: bool)
      requires Ready() && Mirrors() && Describes(s, math, scene)
      modifies this`trace, Transforms()`rotation, Bodies()`xDrive
      ensures Ready() && Mirrors() && Describes(s, math, scene) && Fits(s, trace.chain)
      ensures Fits(s, old(trace).chain) && trace == Sweep(s, old(trace))
      ensures reached == Reached(s, trace.chain.rotations)
    {
      SweepJoints(math, scene, s);
      assert Rotations() == trace.chain.rotations;
      reached := WithinTolerance(target.position, scene.tipPosition(Rotations()), tolerance);
    }

    /** Lines 65-118: one sweep over the joints from the tip to the base. */
    method SweepJoints(math: UnityMath, scene: SceneGraph, ghost s: Setup)
      requires Ready() && Mirrors() && Describes(s, math, scene)
      modifies this`trace, Transforms()`rotation, Bodies()`xDrive
      ensures Ready() && Mirrors() && Describes(s, math, scene)
      ensures Fits(s, old(trace).chain) && trace == Sweep(s, old(trace))
    {
      ghost var sweep := Sweep(s, trace);
      var j := jointArr.Length - 1;
      while j >= 0
        invariant -1 <= j < jointArr.Length
        invariant Ready() && Mirrors() && Describes(s, math, scene) && Fits(s, trace.chain)
        invariant sweep == SweepDown(s, trace, j + 1)
        decreases j
      {
        StepJoint(math, scene, s, j);
        j := j - 1;
      }
    }

    /**
     * Line 117, `currentJoint.rotation = newRotation`, as Unity performs it: the
     * transforms below joint j move with it (see Turn).
     */
    method SetRotation(math: UnityMath, scene: SceneGraph, ghost s: Setup, j: int, q: Quaternion)
      requires Ready() && Describes(s, math, scene) && 0 <= j < jointArr.Length
      modifies Transforms()`rotation
      ensures Rotations() == Turn(s, old(Rotations()), j, q)
    {
      var before := Rotations();
      ghost var after := Turn(s, before, j, q);
      for k := 0 to jointArr.Length
        invariant forall i :: 0 <= i < k ==> jointArr[i].rotation == after[i]
        invariant forall i :: k <= i < jointArr.Length ==> jointArr[i].rotation == before[i]
      {
        assert jointArr[k] in jointArr[..];
        if k == j {
          jointArr[k].rotation := q;
        } else if scene.below(j, k) {
          jointArr[k].rotation := math.multiply(math.multiply(q, math.inverse(before[j])), before[k]);
        }
      }
      assert Rotations() == after;
    }

    /** Lines 67-117: the body of the inner loop for joint `j`. */
    method StepJoint(math: UnityMath, scene: SceneGraph, ghost s: Setup, j: int)
      requires Ready() && Mirrors() && Describes(s, math, scene) && 0 <= j < jointArr.Length
      modifies this`trace, Transforms()`rotation, {articulationJointArr[j]}`xDrive
      ensures Ready() && Mirrors() && Describes(s, math, scene) && Fits(s, trace.chain)
      ensures Fits(s, old(trace).chain) && trace == JointStep(s, old(trace), j)
    {
      var currentBody := articulationJointArr[j];
      if currentBody.dofCount == 0 {
        return;
      }
      var angle, targetAngleX, newRotation := ComputeUpdate(math, scene, s, j);
      ghost var u := JointUpdate(j, angle, targetAngleX, newRotation);
      ghost var c := trace.chain;
      WriteDriveTarget(j, targetAngleX);
      assert Drives() == c.drives[j := c.drives[j].(target := targetAngleX)];
      SetRotation(math, scene, s, j, newRotation);
      assert Rotations() == Apply(s, c, u).rotations;
      trace := Progress(Apply(s, c, u), trace.updates + [u]);
    }

    /** Lines 112-114: only the target of joint j's xDrive changes. */
    method WriteDriveTarget(j: int, targetAngleX: real)
      requires Ready() && 0 <= j < articulationJointArr.Length
      modifies {articulationJointArr[j]}`xDrive
      ensures Drives() == old(Drives())[j := old(Drives())[j].(target := targetAngleX)]
    {
      var currentBody := articulationJointArr[j];
      var drive := currentBody.xDrive;
      drive := drive.(target := targetAngleX);
      currentBody.xDrive := drive;
    }

    /** Lines 76-109: the clamped angle, the wrapped drive target and the new world rotation for joint `j`. */
    method ComputeUpdate(math: UnityMath, scene: SceneGraph, ghost s: Setup, j: int)
      returns (angle: real, targetAngleX: real, newRotation: Quaternion)
      requires Ready() && Mirrors() && Describes(s, math, scene) && 0 <= j < jointArr.Length
      ensures Fits(s, trace.chain) && JointUpdate(j, angle, targetAngleX, newRotation) == Update(s, trace.chain, j)
    {
      var currentJoint := jointArr[j];
      var rotations := Rotations();
      assert rotations == trace.chain.rotations;
      var jointPosition := scene.jointPosition(rotations, j);
      var currentTipVec := Minus(scene.tipPosition(rotations), jointPosition);
      var currentTargetVec := Minus(target.position, jointPosition);
      currentTipVec := math.normalize(currentTipVec);
      currentTargetVec := math.normalize(currentTargetVec);
      var rotationDelta := math.fromToRotation(currentTipVec, currentTargetVec);
      var angleAxis := math.toAngleAxis(rotationDelta);
      var axis;
      angle, axis := angleAxis.0, angleAxis.1;
      if angle > maxAngleChange {
        angle := maxAngleChange;
      }
      newRotation := math.multiply(math.angleAxis(angle, axis), currentJoint.rotation);
      var localRotationTarget := math.multiply(math.inverse(scene.parentRotation(rotations, j)), newRotation);
      targetAngleX := math.eulerAngleX(localRotationTarget);
      if targetAngleX > 180.0 {
        targetAngleX := targetAngleX - 360.0;
      }
    }
  }
}
