/** The simple yaw-planning policy: uniform heading sampling and a
    trajectory that faces one heading throughout. */
module SimplePolicy {
  import opened Segments
  import opened Angles

  /** The fraction of a turn between the original heading and sample `i`. */
  function Offset(i: int, nDirections: int): real
    requires nDirections >= 1
  {
    i as real / nDirections as real
  }

  /** Sample `i` of `nDirections` uniformly spaced headings, counted from the
      original heading and reduced into one turn. */
  function SampleYaw(originalYaw: real, i: int, nDirections: int): (r: real)
    requires nDirections >= 1
    ensures 0.0 <= r < 1.0
    ensures WholeTurns(originalYaw + Offset(i, nDirections) - r)
  {
    Normalize(originalYaw + Offset(i, nDirections))
  }

  /** The offsets of samples 1 .. n-1 lie strictly inside one turn, and a
      later sample is strictly further round. */
  lemma OffsetsInsideOneTurn(i: int, j: int, nDirections: int)
    requires 0 < i <= j < nDirections
    ensures 0.0 < Offset(i, nDirections) <= Offset(j, nDirections) < 1.0
    ensures i < j ==> Offset(i, nDirections) < Offset(j, nDirections)
  {
    var n := nDirections as real;
    assert i as real <= j as real < n;
    assert Offset(i, nDirections) * n == i as real;
    assert Offset(j, nDirections) * n == j as real;
  }

  /** Every pose keeps its position and faces `targetYaw`; the start heading
      plays no part in this policy. */
  function SetTrajectoryYaw(t: Trajectory, startYaw: real, targetYaw: real): (r: Trajectory)
    ensures SameGeometry(r, t)
    ensures AllFacing(r, targetYaw)
  {
    seq(|t|, k requires 0 <= k < |t| => t[k].(yaw := targetYaw))
  }

  /** Pose positions and heading determine a pose completely, so the result
      depends on the geometry and the target heading alone: the start heading
      is ignored and a second rewrite overrides the first. */
  lemma SetTrajectoryYawDeterminedByGeometry(t: Trajectory, u: Trajectory, s1: real, s2: real, y: real)
    requires SameGeometry(t, u)
    ensures SetTrajectoryYaw(t, s1, y) == SetTrajectoryYaw(u, s2, y)
  {
    var a := SetTrajectoryYaw(t, s1, y);
    var b := SetTrajectoryYaw(u, s2, y);
    assert |a| == |b|;
    forall k | 0 <= k < |a|
      ensures a[k] == b[k]
    {
      assert a[k].position == t[k].position == u[k].position == b[k].position;
    }
  }
}
