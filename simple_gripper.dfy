/**
 * SimpleGripper.cs: a finger that glues a touched "Target" body to itself with a fixed
 * joint, and lets go when opened or when the joint breaks. The handlers are a state
 * machine over the closing flag and the optional joint; Step is that machine on values,
 * and every handler of the class is proved to perform exactly one Step.
 */
module SimpleGripping {
  import opened Wrappers
  import Unity

  /** The FixedJoint component added on a grasp: the body it holds and the force that breaks it. */
  datatype FixedJoint = FixedJoint(connectedBody: Unity.Rigidbody, breakForce: real)

  /** The collider that entered the finger's trigger: its game object's tag and its attached rigidbody. */
  datatype Collider = Collider(tag: string, attachedRigidbody: Unity.Rigidbody?)

  /** The fields the handlers write. */
  datatype GripState = GripState(isClosing: bool, joint: Option<FixedJoint>)

  /** The calls Unity or the gripper controller make. */
  datatype GripEvent = Open | Close | TriggerEnter(other: Collider) | JointBreak(force: real)

  /** Line 49: the break force of every joint made on a grasp. */
  const GraspBreakForce: real := 5000.0

  /** Lines 5-6: nothing held, not closing. */
  const Initial: GripState := GripState(false, None)

  /** Line 40: what a trigger needs, besides there being no joint yet. */
  predicate Graspable(other: Collider) {
    other.tag == "Target" && other.attachedRigidbody != null
  }

  /** One handler call. */
  function Step(st: GripState, e: GripEvent): GripState {
    match e
    case Open => GripState(false, None)
    case Close => st.(isClosing := true)
    case TriggerEnter(other) =>
      if st.joint.Some? || other.tag != "Target" then st
      else if other.attachedRigidbody == null then st
      else st.(joint := Some(FixedJoint(other.attachedRigidbody, GraspBreakForce)))
    case JointBreak(_) => st.(joint := None)
  }

  /** The handler calls `es`, in order. */
  function Run(st: GripState, es: seq<GripEvent>): GripState
    decreases |es|
  {
    if |es| == 0 then st else Run(Step(st, es[0]), es[1..])
  }

  /** Lines 37-53: a trigger attaches a body exactly when nothing is held and the collider is a Target with a rigidbody. */
  lemma TriggerAttachesIff(st: GripState, other: Collider)
    ensures Step(st, TriggerEnter(other)).joint.Some? <==> st.joint.Some? || Graspable(other)
    ensures st.joint.None? && Graspable(other) ==>
      Step(st, TriggerEnter(other)).joint == Some(FixedJoint(other.attachedRigidbody, GraspBreakForce))
    ensures st.joint.Some? ==> Step(st, TriggerEnter(other)) == st
    ensures Step(st, TriggerEnter(other)).isClosing == st.isClosing
  {
  }

  /** Lines 37-53: a trigger does not consult the closing flag. */
  lemma TriggerIgnoresClosing(st: GripState, other: Collider, closing: bool)
    ensures Step(st.(isClosing := closing), TriggerEnter(other)).joint == Step(st, TriggerEnter(other)).joint
  {
  }

  /** Only Open and JointBreak let go of a body. */
  predicate Releases(e: GripEvent) {
    e.Open? || e.JointBreak?
  }

  /** Line 40: once attached, a body stays attached until the gripper is opened or the joint breaks. */
  lemma {:induction false} HoldUntilReleased(st: GripState, es: seq<GripEvent>)
    requires st.joint.Some?
    requires forall k :: 0 <= k < |es| ==> !Releases(es[k])
    ensures Run(st, es).joint == st.joint
    decreases |es|
  {
    if |es| > 0 {
      assert !Releases(es[0]);
      HoldUntilReleased(Step(st, es[0]), es[1..]);
    }
  }

  /** Every joint held was made by a grasp. */
  predicate MadeByGrasp(st: GripState) {
    st.joint.Some? ==> st.joint.value.breakForce == GraspBreakForce
  }

  /** Lines 9 and 49: starting from the initial state, every joint ever held breaks at 5000, whatever the breakForce field says. */
  lemma {:induction false} BreakForceAlwaysGrasp(st: GripState, es: seq<GripEvent>)
    requires MadeByGrasp(st)
    ensures MadeByGrasp(Run(st, es))
    decreases |es|
  {
    if |es| > 0 {
      BreakForceAlwaysGrasp(Step(st, es[0]), es[1..]);
    }
  }

  class SimpleGripper {
    var isClosing: bool
    var joint: Option<FixedJoint>
    /** Line 9: an inspector setting that no handler reads. */
    var breakForce: real

    /** Lines 5-9: the field initialisers. */
    constructor ()
      ensures State() == Initial && breakForce == 600.0
    {
      isClosing := false;
      joint := None;
      breakForce := 600.0;
    }

    function State(): GripState
      reads this
    {
      GripState(isClosing, joint)
    }

    /** Lines 11-19: stop closing and drop any held joint. */
    method Open()
      modifies this`isClosing, this`joint
      ensures !isClosing && joint == None
      ensures State() == Step(old(State()), GripEvent.Open)
    {
      isClosing := false;
      if joint != None {
        joint := None;
      }
    }

    /** Lines 21-24: start closing; a held joint stays. */
    method Close()
      modifies this`isClosing
      ensures isClosing && joint == old(joint)
      ensures State() == Step(old(State()), GripEvent.Close)
    {
      isClosing := true;
    }

    /** Lines 37-53. */
    method OnTriggerEnter(other: Collider)
      modifies this`joint
      ensures State() == Step(old(State()), TriggerEnter(other))
    {
      if joint != None || other.tag != "Target" {
        return;
      }
      var targetRb := other.attachedRigidbody;
      if targetRb != null {
        joint := Some(FixedJoint(targetRb, 5000.0));
      }
    }

    /** Lines 56-60: Unity has destroyed the joint; forget it. */
    method OnJointBreak(force: real)
      modifies this`joint
      ensures joint == None && isClosing == old(isClosing)
      ensures State() == Step(old(State()), JointBreak(force))
    {
      joint := None;
    }
  }
}
