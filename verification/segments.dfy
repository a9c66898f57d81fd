/** The planner's data that the yaw-planning evaluator reads and writes:
    poses, trajectory segments, the cached alternative set, the evaluator's
    configuration and the inner (following) evaluator it decorates. */
module Segments {
  import opened Wrappers

  /** A point in the world frame. */
  datatype Vec3 = Vec3(x: real, y: real, z: real)

  /** A trajectory point reduced to what the yaw planner touches: its position
      and its heading about the vertical axis. Headings are measured in turns
      (1.0 is one full turn, 2*pi radians). */
  datatype Pose = Pose(position: Vec3, yaw: real)

  type Trajectory = seq<Pose>

  /** A node of the planning tree. `hasParent` stands for the weak parent
      link; `info` is the evaluator-owned extension slot, which this
      evaluator fills with the cached alternatives. */
  datatype Segment = Segment(
    trajectory: Trajectory,
    gain: real,
    cost: real,
    value: real,
    hasParent: bool,
    info: Option<YawInfo>)

  /** The cached alternative set: one scored copy of the segment per sampled
      heading, and the index of the one whose data was copied onto it. */
  datatype YawInfo = YawInfo(orientations: seq<Segment>, active: int)

  /** The evaluator's parameters. */
  datatype Config = Config(
    nDirections: int,
    selectByValue: bool,
    updateRange: real,
    updateGain: real)

  datatype Colour = Colour(r: real, g: real, b: real, a: real)

  /** A renderable directional hint: where it sits, which way it points, its colour. */
  datatype Marker = Marker(pose: Pose, colour: Colour)

  /** A segment after an evaluator call, with the call's success flag. */
  datatype Updated = Updated(segment: Segment, ok: bool)

  /** The wrapped evaluator, seen only through what its calls produce.
      `gainOf`, `costOf` and `valueOf` are the numbers its computeGain,
      computeCost and computeValue store on the segment they are given. */
  datatype Evaluator = Evaluator(
    gainOf: Segment -> real,
    costOf: Segment -> real,
    valueOf: Segment -> real,
    costOk: Segment -> bool,
    valueOk: Segment -> bool,
    nextBest: Segment -> int,
    update: Segment -> Updated,
    visualize: Segment -> seq<Marker>)

  function FirstPose(t: Trajectory): Pose
    requires |t| > 0
  {
    t[0]
  }

  function LastPose(t: Trajectory): Pose
    requires |t| > 0
  {
    t[|t| - 1]
  }

  /** What gain computation leaves behind: a valid active index and
      alternatives that each have at least one pose. */
  predicate ValidInfo(info: YawInfo) {
    && 0 <= info.active < |info.orientations|
    && forall i :: 0 <= i < |info.orientations| ==> |info.orientations[i].trajectory| > 0
  }

  /** The selection criterion: value when selecting by value, gain otherwise. */
  function Score(cfg: Config, s: Segment): real {
    if cfg.selectByValue then s.value else s.gain
  }

  function Scores(cfg: Config, alts: seq<Segment>): (r: seq<real>)
    ensures |r| == |alts|
    ensures forall i :: 0 <= i < |alts| ==> r[i] == Score(cfg, alts[i])
  {
    seq(|alts|, i requires 0 <= i < |alts| => Score(cfg, alts[i]))
  }

  /** Same poses, ignoring headings. */
  predicate SameGeometry(t: Trajectory, u: Trajectory) {
    |t| == |u| && forall k :: 0 <= k < |t| ==> t[k].position == u[k].position
  }

  /** Every pose faces `yaw`. */
  predicate AllFacing(t: Trajectory, yaw: real) {
    forall k :: 0 <= k < |t| ==> t[k].yaw == yaw
  }

  /** A pose is its position and heading, so two trajectories with the same
      geometry that face the same heading throughout are equal. */
  lemma GeometryAndHeadingDetermine(t: Trajectory, u: Trajectory, yaw: real)
    requires SameGeometry(t, u) && AllFacing(t, yaw) && AllFacing(u, yaw)
    ensures t == u
  {
    forall k | 0 <= k < |t|
      ensures t[k] == u[k]
    {
      assert t[k].position == u[k].position && t[k].yaw == u[k].yaw;
    }
  }
}
