/** The optional value used where the scripts keep a reference that may be absent. */
module Wrappers {
  datatype Option<+T> = None | Some(value: T)
}

/**
 * The part of the Unity engine the robot-arm scripts touch, with `float` as `real`.
 * Vectors, rotations and drives are values (C# structs); transforms, articulation
 * bodies and rigidbodies are objects that the scripts update in place.
 */
module Unity {

  /** UnityEngine.Vector3. */
  datatype Vector3 = Vector3(x: real, y: real, z: real)

  /** UnityEngine.Quaternion; its operations are left uninterpreted by the solver. */
  datatype Quaternion = Quaternion(x: real, y: real, z: real, w: real)

  /** UnityEngine.ArticulationDrive: the drive settings of one joint axis. */
  datatype ArticulationDrive = ArticulationDrive(
    lowerLimit: real,
    upperLimit: real,
    stiffness: real,
    damping: real,
    forceLimit: real,
    target: real,
    targetVelocity: real)

  /** UnityEngine.ArticulationJointType. */
  datatype ArticulationJointType = FixedJoint | PrismaticJoint | RevoluteJoint | SphericalJoint

  /** Vector subtraction `a - b`. */
  function Minus(a: Vector3, b: Vector3): (r: Vector3)
    ensures r.x + b.x == a.x && r.y + b.y == a.y && r.z + b.z == a.z
  {
    Vector3(a.x - b.x, a.y - b.y, a.z - b.z)
  }

  /** Vector3.sqrMagnitude, never negative. */
  function SqrMagnitude(v: Vector3): (r: real)
    ensures r >= 0.0
  {
    v.x * v.x + v.y * v.y + v.z * v.z
  }

  /** Mathf.Clamp01. */
  function Clamp01(t: real): (r: real)
    ensures 0.0 <= r <= 1.0
    ensures 0.0 <= t <= 1.0 ==> r == t
  {
    if t < 0.0 then 0.0 else if t > 1.0 then 1.0 else t
  }

  /** Mathf.Lerp: from `a` towards `b` by the fraction `t`, clamped to [0, 1]. */
  function Lerp(a: real, b: real, t: real): real {
    a + (b - a) * Clamp01(t)
  }

  /** `d` is Vector3.Distance(a, b): the nonnegative square root of the squared distance. */
  ghost predicate IsDistance(d: real, a: Vector3, b: Vector3) {
    d >= 0.0 && d * d == SqrMagnitude(Minus(a, b))
  }

  /** UnityEngine.Rigidbody, reduced to its kinematic flag. */
  class Rigidbody {
    var isKinematic: bool
  }

  /** UnityEngine.ArticulationBody: one joint of an articulation. */
  class ArticulationBody {
    const name: string
    const jointType: ArticulationJointType
    const dofCount: nat
    var xDrive: ArticulationDrive
    /** One reading per degree of freedom, written by the physics engine. */
    var jointPosition: seq<real>
  }

  /** UnityEngine.Transform with the components the scripts fetch from its game object. */
  class Transform {
    var position: Vector3
    var localPosition: Vector3
    /** World rotation. */
    var rotation: Quaternion
    var parent: Transform?
    /** GetComponent<ArticulationBody>(). */
    const articulationBody: ArticulationBody?
    /** GetComponent<Rigidbody>(). */
    const rigidbody: Rigidbody?
  }
}
