/**
 * JointSender.cs: publishes the positions of the robot's moving joints, but only on the
 * first call and whenever some joint has moved by more than a threshold since the last
 * message. The ROS publisher is a ghost log of the messages sent.
 */
module JointSending {
  import opened Unity

  /** sensor_msgs/JointState, reduced to the two arrays the sender fills. */
  datatype JointStateMsg = JointStateMsg(name: seq<string>, position: seq<real>)

  /** Line 50: a joint that moves. */
  predicate IsActive(joint: ArticulationBody) {
    joint.jointType != FixedJoint && joint.dofCount > 0
  }

  /** The moving joints of `all`, in their original order. */
  function ActiveJoints(all: seq<ArticulationBody>): seq<ArticulationBody> {
    if |all| == 0 then []
    else ActiveJoints(all[..|all| - 1]) + (if IsActive(all[|all| - 1]) then [all[|all| - 1]] else [])
  }

  /** Lines 47-54: the filter keeps exactly the moving joints. */
  lemma {:induction false} ActiveJointsMembers(all: seq<ArticulationBody>)
    ensures forall b :: b in ActiveJoints(all) <==> b in all && IsActive(b)
    ensures |ActiveJoints(all)| <= |all|
  {
    if |all| > 0 {
      var init := all[..|all| - 1];
      ActiveJointsMembers(init);
      assert all == init + [all[|all| - 1]];
    }
  }

  /** Lines 47-54: the filter keeps the joints' order: filtering a concatenation concatenates the filtered parts. */
  lemma {:induction false} ActiveJointsAppend(a: seq<ArticulationBody>, b: seq<ArticulationBody>)
    ensures ActiveJoints(a + b) == ActiveJoints(a) + ActiveJoints(b)
    decreases |b|
  {
    if |b| == 0 {
      assert a + b == a;
    } else {
      var init := b[..|b| - 1];
      assert (a + b)[..|a + b| - 1] == a + init;
      ActiveJointsAppend(a, init);
    }
  }

  /** Math.Abs on doubles. */
  function Abs(x: real): (r: real)
    ensures r >= 0.0 && (r == x || r == -x)
  {
    if x < 0.0 then -x else x
  }

  /** Lines 116-126: some joint moved strictly more than `threshold` since the last message. */
  predicate Changed(cur: seq<real>, prev: seq<real>, threshold: real)
    requires |cur| == |prev|
  {
    exists i :: 0 <= i < |cur| && Abs(cur[i] - prev[i]) > threshold
  }

  /** Positions equal to the last ones sent never count as a change. */
  lemma UnchangedAfterSend(cur: seq<real>, prev: seq<real>, threshold: real)
    requires threshold >= 0.0 && |prev| == |cur|
    requires forall i :: 0 <= i < |cur| ==> prev[i] == cur[i]
    ensures !Changed(cur, prev, threshold)
  {
    forall i | 0 <= i < |cur|
      ensures Abs(cur[i] - prev[i]) <= threshold
    {
      assert cur[i] - prev[i] == 0.0;
    }
  }

  /** Line 119: each joint's `jointPosition[0]`, in order. */
  function FirstPositions(joints: seq<ArticulationBody>): (r: seq<real>)
    requires forall i :: 0 <= i < |joints| ==> |joints[i].jointPosition| > 0
    reads joints
    ensures |r| == |joints|
    ensures forall i :: 0 <= i < |joints| ==> r[i] == joints[i].jointPosition[0]
  {
    if |joints| == 0 then []
    else FirstPositions(joints[..|joints| - 1]) + [joints[|joints| - 1].jointPosition[0]]
  }

  /** The message for the positions `cur` of `joints`. */
  function Message(joints: seq<ArticulationBody>, cur: seq<real>): (m: JointStateMsg)
    requires |joints| == |cur|
    ensures |m.name| == |joints| && |m.position| == |joints|
    ensures forall i :: 0 <= i < |joints| ==> m.name[i] == joints[i].name && m.position[i] == cur[i]
  {
    JointStateMsg(seq(|joints|, i requires 0 <= i < |joints| => joints[i].name), cur)
  }

  class JointSender {
    const topicName: string
    var timeElapsed: real
    var activeJointList: seq<ArticulationBody>
    /** Line 19: 50 messages a second at most. */
    const minPublishInterval: real := 0.02
    /** Line 23: in radians. */
    const changeThreshold: real := 0.1
    var prevPositions: array?<real>
    var isFirstSend: bool
    /** Every message published on `topicName`, in order. */
    ghost var published: seq<JointStateMsg>

    /** Lines 10-29: the field initialisers. */
    constructor (topicName: string)
      ensures this.topicName == topicName && timeElapsed == 0.0 && activeJointList == []
      ensures prevPositions == null && isFirstSend && published == []
    {
      this.topicName := topicName;
      timeElapsed := 0.0;
      activeJointList := [];
      prevPositions := null;
      isFirstSend := true;
      published := [];
    }

    /** Ready for CheckAndSendJointState: one previous position per active joint, each with a reading. */
    ghost predicate Started()
      reads this`prevPositions, this`activeJointList, activeJointList
    {
      && prevPositions != null && prevPositions.Length == |activeJointList|
      && forall i :: 0 <= i < |activeJointList| ==> |activeJointList[i].jointPosition| > 0
    }

    /** The active joints' current first-axis positions. */
    ghost function Positions(): (r: seq<real>)
      requires forall i :: 0 <= i < |activeJointList| ==> |activeJointList[i].jointPosition| > 0
      reads this`activeJointList, activeJointList
      ensures |r| == |activeJointList|
      ensures forall i :: 0 <= i < |activeJointList| ==> r[i] == activeJointList[i].jointPosition[0]
    {
      FirstPositions(activeJointList)
    }

    /**
     * Lines 44-56: appends the moving joints of `allJointArr` (GetComponentsInChildren)
     * to the active list and sizes a zeroed previous-position array to it.
     */
    method Start(allJointArr: array<ArticulationBody>)
      modifies this`activeJointList, this`prevPositions
      ensures activeJointList == old(activeJointList) + ActiveJoints(allJointArr[..])
      ensures prevPositions != null && fresh(prevPositions)
      ensures prevPositions.Length == |activeJointList|
      ensures forall i :: 0 <= i < prevPositions.Length ==> prevPositions[i] == 0.0
    {
      ghost var list0 := activeJointList;
      for k := 0 to allJointArr.Length
        invariant activeJointList == list0 + ActiveJoints(allJointArr[..k])
      {
        var joint := allJointArr[k];
        assert allJointArr[..k + 1][..k] == allJointArr[..k];
        if joint.jointType != FixedJoint && joint.dofCount > 0 {
          activeJointList := activeJointList + [joint];
        }
      }
      assert allJointArr[..allJointArr.Length] == allJointArr[..];
      prevPositions := new real[|activeJointList|](_ => 0.0);
    }

    /**
     * Lines 107-150: reads every active joint's position, publishes them on the first
     * call or when some joint moved by more than changeThreshold, and reports whether
     * one did.
     */
    method CheckAndSendJointState() returns (isChanged: bool)
      requires Started()
      modifies this`isFirstSend, this`published, prevPositions
      ensures Started() && prevPositions == old(prevPositions)
      ensures isChanged == Changed(old(Positions()), old(prevPositions[..]), changeThreshold)
      ensures old(isFirstSend) || isChanged ==>
        && published == old(published) + [Message(activeJointList, old(Positions()))]
        && prevPositions[..] == old(Positions())
      ensures !(old(isFirstSend) || isChanged) ==>
        published == old(published) && prevPositions[..] == old(prevPositions[..])
      ensures !isFirstSend
    {
      var curPositions;
      curPositions, isChanged := ReadPositions();
      if isFirstSend || isChanged {
        Publish(curPositions);
      }
    }

    /** Lines 109-126: the current positions, and whether one differs from its previous value by more than changeThreshold. */
    method ReadPositions() returns (curPositions: array<real>, isChanged: bool)
      requires Started()
      ensures fresh(curPositions) && curPositions[..] == Positions()
      ensures isChanged == Changed(Positions(), prevPositions[..], changeThreshold)
    {
      ghost var cur := Positions();
      ghost var prev := prevPositions[..];
      var jointLength := |activeJointList|;
      isChanged := false;
      curPositions := new real[jointLength];
      for i := 0 to jointLength
        modifies curPositions
        invariant forall k :: 0 <= k < i ==> curPositions[k] == cur[k]
        invariant isChanged <==> exists k :: 0 <= k < i && Abs(cur[k] - prev[k]) > changeThreshold
      {
        curPositions[i] := activeJointList[i].jointPosition[0];
        if Abs(curPositions[i] - prevPositions[i]) > changeThreshold {
          isChanged := true;
        }
      }
      assert curPositions[..] == cur;
    }

    /** Lines 131-146: publishes the positions with the joints' names and remembers them. */
    method Publish(curPositions: array<real>)
      requires Started() && curPositions.Length == |activeJointList| && curPositions != prevPositions
      modifies this`isFirstSend, this`published, prevPositions
      ensures Started() && prevPositions == old(prevPositions) && !isFirstSend
      ensures published == old(published) + [Message(activeJointList, curPositions[..])]
      ensures prevPositions[..] == curPositions[..]
    {
      isFirstSend := false;
      var jointLength := |activeJointList|;
      var names := new string[jointLength];
      var positions := new real[jointLength];
      for i := 0 to jointLength
        modifies names, positions, prevPositions
        invariant forall k :: 0 <= k < i ==> names[k] == activeJointList[k].name
        invariant forall k :: 0 <= k < i ==> positions[k] == curPositions[k] && prevPositions[k] == curPositions[k]
      {
        names[i] := activeJointList[i].name;
        positions[i] := curPositions[i];
        prevPositions[i] := curPositions[i];
      }
      assert positions[..] == curPositions[..] && prevPositions[..] == curPositions[..];
      assert names[..] == Message(activeJointList, curPositions[..]).name;
      published := published + [JointStateMsg(names[..], positions[..])];
    }

    /**
     * Lines 60-105: accumulates `deltaTime` (Time.deltaTime); from minPublishInterval on,
     * checks for a change and restarts the clock only when one was found.
     */
    method Update(deltaTime: real) returns (ghost sent: bool)
      requires Started()
      modifies this`timeElapsed, this`isFirstSend, this`published, prevPositions
      ensures Started() && prevPositions == old(prevPositions)
      ensures old(timeElapsed) + deltaTime < minPublishInterval ==>
        && timeElapsed == old(timeElapsed) + deltaTime
        && isFirstSend == old(isFirstSend) && published == old(published)
        && prevPositions[..] == old(prevPositions[..])
      ensures old(timeElapsed) + deltaTime >= minPublishInterval ==>
        var changed := Changed(old(Positions()), old(prevPositions[..]), changeThreshold);
        && sent == (old(isFirstSend) || changed)
        && (sent ==> published == old(published) + [Message(activeJointList, old(Positions()))]
                     && prevPositions[..] == old(Positions()))
        && (!sent ==> published == old(published) && prevPositions[..] == old(prevPositions[..]))
        && !isFirstSend
        && timeElapsed == if changed then 0.0 else old(timeElapsed) + deltaTime
    {
      timeElapsed := timeElapsed + deltaTime;
      if timeElapsed < minPublishInterval {
        sent := false;
        return;
      }
      sent := isFirstSend;
      var changed := CheckAndSendJointState();
      sent := sent || changed;
      if changed == true {
        timeElapsed := 0.0;
      }
    }
  }
}
