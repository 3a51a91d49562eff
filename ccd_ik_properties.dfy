/**
 * Properties of one CCD solve, stated over the specification functions of CcdIk that
 * CCDIKSolver.SolveIK is proved to follow.
 */
module CcdIkProperties {
  import opened Unity
  import opened CcdIk

  // ---------------------------------------------------------------------------
  // The wrapped drive target

  /** WrapAngle picks the one angle in (-180, 180] that differs from x by a whole number of turns. */
  lemma WrapAngleUnique(x: real, y: real, turns: int)
    requires 0.0 <= x < 360.0 && -180.0 < y <= 180.0
    requires y == x - 360.0 * turns as real
    ensures y == WrapAngle(x)
  {
    assert turns == 0 || turns == 1;
  }

  // ---------------------------------------------------------------------------
  // Every logged update

  /** Each update respects the step cap, and its drive target is in (-180, 180] when Unity's Euler angles lie in [0, 360). */
  ghost predicate Bounded(s: Setup, us: seq<JointUpdate>) {
    forall k :: 0 <= k < |us| ==>
      us[k].angle <= s.maxAngleChange
      && (EulerInUnityRange(s.math) ==> -180.0 < us[k].driveTarget <= 180.0)
  }

  /** One joint step keeps every recorded angle clamped and every drive target in range. */
  lemma JointStepBounded(s: Setup, p: Progress, j: nat)
    requires Fits(s, p.chain) && j < |s.dofCount| && Bounded(s, p.updates)
    ensures Bounded(s, JointStep(s, p, j).updates)
  {
  }

  lemma {:induction false} SweepDownBounded(s: Setup, p: Progress, n: nat)
    requires Fits(s, p.chain) && n <= |s.dofCount| && Bounded(s, p.updates)
    ensures Bounded(s, SweepDown(s, p, n).updates)
    decreases n
  {
    if n > 0 {
      var q := JointStep(s, p, n - 1);
      JointStepBounded(s, p, n - 1);
      SweepDownBounded(s, q, n - 1);
    }
  }

  lemma {:induction false} SweepsBounded(s: Setup, p: Progress, remaining: int)
    requires Fits(s, p.chain) && Bounded(s, p.updates)
    ensures Bounded(s, Sweeps(s, p, remaining).progress.updates)
    decreases remaining
  {
    if remaining > 0 {
      SweepDownBounded(s, p, |s.dofCount|);
      SweepsBounded(s, Sweep(s, p), remaining - 1);
    }
  }

  /** Lines 88-91 and 103-109: no joint turns by more than maxAngleChange in one step, and every drive target is in (-180, 180]. */
  lemma SolveBounded(s: Setup, c: Chain, iterations: int)
    requires Fits(s, c)
    ensures Bounded(s, Solve(s, c, iterations).progress.updates)
  {
    if !Reached(s, c.rotations) {
      SweepsBounded(s, Progress(c, []), iterations);
    }
  }

  // ---------------------------------------------------------------------------
  // Which joints are visited, and in which order

  /** The joint indices of a list of updates, in order. */
  function Joints(us: seq<JointUpdate>): (r: seq<nat>)
    ensures |r| == |us| && forall k :: 0 <= k < |us| ==> r[k] == us[k].joint
  {
    seq(|us|, k requires 0 <= k < |us| => us[k].joint)
  }

  /** Extending an extension: the new suffix is the old suffix followed by the latest one. */
  lemma ExtendTwice(a: seq<JointUpdate>, b: seq<JointUpdate>, c: seq<JointUpdate>)
    requires |a| <= |b| <= |c| && b[..|a|] == a && c[..|b|] == b
    ensures c[..|a|] == a
    ensures Joints(c[|a|..]) == Joints(b[|a|..]) + Joints(c[|b|..])
  {
    assert c[..|a|] == c[..|b|][..|a|];
    assert c[|a|..] == b[|a|..] + c[|b|..];
  }

  /** The actuated joints below n, highest first. */
  function ActuatedBelow(dofCount: seq<nat>, n: nat): seq<nat>
    requires n <= |dofCount|
  {
    if n == 0 then []
    else (if dofCount[n - 1] != 0 then [n - 1] else []) + ActuatedBelow(dofCount, n - 1)
  }

  /** ActuatedBelow lists exactly the actuated joints below n, strictly from the tip towards the base. */
  lemma {:induction false} ActuatedBelowSpec(dofCount: seq<nat>, n: nat)
    requires n <= |dofCount|
    ensures forall j: nat :: j in ActuatedBelow(dofCount, n) <==> j < n && dofCount[j] != 0
    ensures forall a, b :: 0 <= a < b < |ActuatedBelow(dofCount, n)| ==>
      ActuatedBelow(dofCount, n)[a] > ActuatedBelow(dofCount, n)[b]
    decreases n
  {
    if n > 0 {
      ActuatedBelowSpec(dofCount, n - 1);
      var head: seq<nat> := if dofCount[n - 1] != 0 then [n - 1] else [];
      var tail := ActuatedBelow(dofCount, n - 1);
      assert ActuatedBelow(dofCount, n) == head + tail;
      assert forall j: nat :: j in head + tail <==> j in head || j in tail;
      forall b | 0 <= b < |tail|
        ensures tail[b] < n - 1
      {
        assert tail[b] in tail;
      }
    }
  }

  /** One joint step appends an update for that joint exactly when it is actuated. */
  lemma JointStepAppends(s: Setup, p: Progress, j: nat)
    requires Fits(s, p.chain) && j < |s.dofCount|
    ensures var q := JointStep(s, p, j);
      |p.updates| <= |q.updates| && q.updates[..|p.updates|] == p.updates
      && Joints(q.updates[|p.updates|..]) == if s.dofCount[j] != 0 then [j] else []
  {
    var q := JointStep(s, p, j);
    if s.dofCount[j] != 0 {
      assert q.updates[|p.updates|..] == [Update(s, p.chain, j)];
    }
  }

  /** Sweeping joints n-1 down to 0 appends one update per actuated joint among them, highest first. */
  lemma {:induction false} SweepDownVisits(s: Setup, p: Progress, n: nat)
    requires Fits(s, p.chain) && n <= |s.dofCount|
    ensures var q := SweepDown(s, p, n);
      |p.updates| <= |q.updates| && q.updates[..|p.updates|] == p.updates
      && Joints(q.updates[|p.updates|..]) == ActuatedBelow(s.dofCount, n)
    decreases n
  {
    if n > 0 {
      var q := JointStep(s, p, n - 1);
      var r := SweepDown(s, q, n - 1);
      SweepDownVisits(s, q, n - 1);
      JointStepAppends(s, p, n - 1);
      ExtendTwice(p.updates, q.updates, r.updates);
    }
  }

  /** `k` copies of `xs`. */
  function Repeat(xs: seq<nat>, k: nat): (r: seq<nat>)
    ensures |r| == k * |xs|
  {
    if k == 0 then [] else xs + Repeat(xs, k - 1)
  }

  /** Lines 62-118: each sweep visits the actuated joints from the tip to the base, and nothing else is updated. */
  lemma {:induction false} SweepsVisits(s: Setup, p: Progress, remaining: int)
    requires Fits(s, p.chain)
    ensures var o := Sweeps(s, p, remaining);
      |p.updates| <= |o.progress.updates| && o.progress.updates[..|p.updates|] == p.updates
      && Joints(o.progress.updates[|p.updates|..]) == Repeat(ActuatedBelow(s.dofCount, |s.dofCount|), o.sweeps)
    decreases remaining
  {
    if remaining > 0 {
      var q := Sweep(s, p);
      SweepDownVisits(s, p, |s.dofCount|);
      var o := Sweeps(s, p, remaining);
      if !Reached(s, q.chain.rotations) {
        SweepsVisits(s, q, remaining - 1);
        ExtendTwice(p.updates, q.updates, o.progress.updates);
      } else {
        assert Repeat(ActuatedBelow(s.dofCount, |s.dofCount|), 1) == ActuatedBelow(s.dofCount, |s.dofCount|) + [];
      }
    }
  }

  // ---------------------------------------------------------------------------
  // What a solve may change

  /** Joint k has no degree of freedom and lies below no joint that has one, so nothing turns it. */
  ghost predicate Anchored(s: Setup, k: nat)
    requires k < |s.dofCount|
  {
    s.dofCount[k] == 0 && forall j :: 0 <= j < |s.dofCount| && s.dofCount[j] != 0 ==> !s.scene.below(j, k)
  }

  /**
   * `c` differs from `c0` only where CCD writes: a fixed joint keeps its drive, an
   * anchored joint keeps its world rotation, and every drive keeps each setting except
   * its target.
   */
  ghost predicate Conforms(s: Setup, c0: Chain, c: Chain)
    requires Fits(s, c0) && Fits(s, c)
  {
    && (forall j :: 0 <= j < |s.dofCount| ==> c.drives[j] == c0.drives[j].(target := c.drives[j].target))
    && (forall j :: 0 <= j < |s.dofCount| && s.dofCount[j] == 0 ==> c.drives[j] == c0.drives[j])
    && (forall j :: 0 <= j < |s.dofCount| && Anchored(s, j) ==> c.rotations[j] == c0.rotations[j])
  }

  lemma ConformsTransitive(s: Setup, c0: Chain, c1: Chain, c2: Chain)
    requires Fits(s, c0) && Fits(s, c1) && Fits(s, c2)
    requires Conforms(s, c0, c1) && Conforms(s, c1, c2)
    ensures Conforms(s, c0, c2)
  {
    forall j | 0 <= j < |s.dofCount|
      ensures c2.drives[j] == c0.drives[j].(target := c2.drives[j].target)
    {
      assert c1.drives[j] == c0.drives[j].(target := c1.drives[j].target);
    }
  }

  /**
   * Lines 111-117: writing an update sets the joint's world rotation, leaves every joint
   * outside its subtree where it was, sets the joint's drive target and no other drive setting.
   */
  lemma ApplyWrites(s: Setup, c: Chain, u: JointUpdate)
    requires u.joint < |c.rotations| && u.joint < |c.drives|
    ensures var r := Apply(s, c, u);
      && r.rotations[u.joint] == u.rotation
      && (forall k :: 0 <= k < |c.rotations| && k != u.joint && !s.scene.below(u.joint, k) ==>
            r.rotations[k] == c.rotations[k])
      && r.drives[u.joint] == c.drives[u.joint].(target := u.driveTarget)
      && (forall k :: 0 <= k < |c.drives| && k != u.joint ==> r.drives[k] == c.drives[k])
  {
  }

  /** One joint step writes only what CCD may write. */
  lemma JointStepConforms(s: Setup, p: Progress, j: nat)
    requires Fits(s, p.chain) && j < |s.dofCount|
    ensures Conforms(s, p.chain, JointStep(s, p, j).chain)
  {
    if s.dofCount[j] != 0 {
      ApplyWrites(s, p.chain, Update(s, p.chain, j));
    }
  }

  lemma {:induction false} SweepDownConforms(s: Setup, p: Progress, n: nat)
    requires Fits(s, p.chain) && n <= |s.dofCount|
    ensures Conforms(s, p.chain, SweepDown(s, p, n).chain)
    decreases n
  {
    if n > 0 {
      var q := JointStep(s, p, n - 1);
      JointStepConforms(s, p, n - 1);
      SweepDownConforms(s, q, n - 1);
      ConformsTransitive(s, p.chain, q.chain, SweepDown(s, p, n).chain);
    } else {
      assert forall j :: 0 <= j < |s.dofCount| ==> p.chain.drives[j] == p.chain.drives[j].(target := p.chain.drives[j].target);
    }
  }

  lemma {:induction false} SweepsConform(s: Setup, p: Progress, remaining: int)
    requires Fits(s, p.chain)
    ensures Conforms(s, p.chain, Sweeps(s, p, remaining).progress.chain)
    decreases remaining
  {
    var o := Sweeps(s, p, remaining);
    if remaining > 0 {
      var q := Sweep(s, p);
      SweepDownConforms(s, p, |s.dofCount|);
      if !Reached(s, q.chain.rotations) {
        SweepsConform(s, q, remaining - 1);
        ConformsTransitive(s, p.chain, q.chain, o.progress.chain);
      }
    } else {
      assert forall j :: 0 <= j < |s.dofCount| ==> p.chain.drives[j] == p.chain.drives[j].(target := p.chain.drives[j].target);
    }
  }

  /**
   * Lines 70-74 and 111-117: a solve never writes the drive of a joint without a degree
   * of freedom, turns no joint that is anchored, and changes no drive setting but the target.
   */
  lemma SolveConforms(s: Setup, c: Chain, iterations: int)
    requires Fits(s, c)
    ensures Conforms(s, c, Solve(s, c, iterations).progress.chain)
  {
    if Reached(s, c.rotations) {
      assert forall j :: 0 <= j < |s.dofCount| ==> c.drives[j] == c.drives[j].(target := c.drives[j].target);
    } else {
      SweepsConform(s, Progress(c, []), iterations);
    }
  }

  // ---------------------------------------------------------------------------
  // The log replays to the final chain

  /** Writes the updates in order. */
  function ApplyAll(s: Setup, c: Chain, us: seq<JointUpdate>): (r: Chain)
    requires forall k :: 0 <= k < |us| ==> us[k].joint < |c.rotations| && us[k].joint < |c.drives|
    ensures |r.rotations| == |c.rotations| && |r.drives| == |c.drives|
  {
    if |us| == 0 then c else Apply(s, ApplyAll(s, c, us[..|us| - 1]), us[|us| - 1])
  }

  /** `p`'s chain is what writing `p`'s updates, in order, onto `c0` gives. */
  ghost predicate Replays(s: Setup, c0: Chain, p: Progress) {
    && (forall k :: 0 <= k < |p.updates| ==> p.updates[k].joint < |c0.rotations| && p.updates[k].joint < |c0.drives|)
    && p.chain == ApplyAll(s, c0, p.updates)
  }

  /** One joint step keeps the chain equal to the replay of the updates. */
  lemma JointStepReplays(s: Setup, c0: Chain, p: Progress, j: nat)
    requires Fits(s, p.chain) && j < |s.dofCount| && Replays(s, c0, p)
    ensures Replays(s, c0, JointStep(s, p, j))
  {
    var q := JointStep(s, p, j);
    if s.dofCount[j] != 0 {
      assert q.updates[..|q.updates| - 1] == p.updates;
    }
  }

  lemma {:induction false} SweepDownReplays(s: Setup, c0: Chain, p: Progress, n: nat)
    requires Fits(s, p.chain) && n <= |s.dofCount| && Replays(s, c0, p)
    ensures Replays(s, c0, SweepDown(s, p, n))
    decreases n
  {
    if n > 0 {
      var q := JointStep(s, p, n - 1);
      JointStepReplays(s, c0, p, n - 1);
      SweepDownReplays(s, c0, q, n - 1);
      assert SweepDown(s, p, n) == SweepDown(s, q, n - 1);
    }
  }

  lemma {:induction false} SweepsReplay(s: Setup, c0: Chain, p: Progress, remaining: int)
    requires Fits(s, p.chain) && Replays(s, c0, p)
    ensures Replays(s, c0, Sweeps(s, p, remaining).progress)
    decreases remaining
  {
    if remaining > 0 {
      SweepDownReplays(s, c0, p, |s.dofCount|);
      SweepsReplay(s, c0, Sweep(s, p), remaining - 1);
    }
  }

  /** Lines 111-117: the final chain is exactly the logged updates written in order; the solver writes nothing else. */
  lemma SolveReplays(s: Setup, c: Chain, iterations: int)
    requires Fits(s, c)
    ensures Replays(s, c, Solve(s, c, iterations).progress)
  {
    if !Reached(s, c.rotations) {
      SweepsReplay(s, c, Progress(c, []), iterations);
    }
  }

  // ---------------------------------------------------------------------------
  // When the sweep loop stops

  /** `k` full sweeps. */
  function Iterate(s: Setup, p: Progress, k: nat): (q: Progress)
    requires Fits(s, p.chain)
    ensures Fits(s, q.chain)
    decreases k
  {
    if k == 0 then p else Iterate(s, Sweep(s, p), k - 1)
  }

  /**
   * Lines 62-125: the loop runs Sweeps sweeps, never more than `remaining` and at
   * least one when `remaining` is positive; every sweep before the last misses the
   * target, and the loop stops early only once the target is reached.
   */
  lemma {:induction false} SweepsStop(s: Setup, p: Progress, remaining: int)
    requires Fits(s, p.chain)
    ensures var o := Sweeps(s, p, remaining);
      && (remaining <= 0 ==> o.sweeps == 0)
      && (remaining > 0 ==> 1 <= o.sweeps <= remaining)
      && o.progress == Iterate(s, p, o.sweeps)
      && (forall m :: 1 <= m < o.sweeps ==> !Reached(s, Iterate(s, p, m).chain.rotations))
      && (0 < o.sweeps < remaining ==> Reached(s, o.progress.chain.rotations))
    decreases remaining
  {
    if remaining > 0 {
      var q := Sweep(s, p);
      var o := Sweeps(s, p, remaining);
      if Reached(s, q.chain.rotations) {
        assert Iterate(s, p, 1) == Iterate(s, q, 0);
      } else {
        SweepsStop(s, q, remaining - 1);
        var o' := Sweeps(s, q, remaining - 1);
        assert Iterate(s, p, o.sweeps) == Iterate(s, q, o'.sweeps);
        forall m | 1 <= m < o.sweeps
          ensures !Reached(s, Iterate(s, p, m).chain.rotations)
        {
          assert Iterate(s, p, m) == Iterate(s, q, m - 1);
        }
      }
    }
  }

  /** Lines 52-56: a tip already within tolerance stops the solve before any update. */
  lemma SolveAlreadyReached(s: Setup, c: Chain, iterations: int)
    requires Fits(s, c) && Reached(s, c.rotations)
    ensures Solve(s, c, iterations) == Outcome(Progress(c, []), 0)
  {
  }
}
