# Yaw-planning evaluator, modelled in Dafny

This project models the yaw-planning decorator evaluator of the active 3D
exploration planner. When a trajectory segment is added to the planning
tree, the evaluator tries `n_directions` discrete headings for it. It asks
the wrapped ("following") evaluator to score each heading, and rewires the
segment to the best one, first maximum wins. It caches every alternative in
the segment's extension slot. When the tree root advances, an update pass may
re-score the cached alternatives and switch the active one. That pass turns
only the heading of the segment's existing poses and copies the winner's
gain, and its cost and value when selecting by value; the segment's geometry
stays as it is. The concrete "simple" policy
samples headings uniformly, makes a whole trajectory face one heading, and
draws one arrow per alternative coloured by relative score.

Modules:

- `Segments`: poses, segments, the cached alternative set (`YawInfo`), the
  configuration, markers, and the wrapped evaluator as a record of pure
  functions.
- `Selection`: the strict-greater scan shared by gain computation and
  re-evaluation, with its first-maximum specification.
- `Angles`: headings in turns and their reduction into one turn.
- `SimplePolicy`: uniform sampling and whole-trajectory heading rewrite.
- `YawPlanning`: parameter validation, gain computation, the pass-through
  calls, the update pass and the decorator's own visualisation.
- `YawPlanningProperties`: update-pass idempotence when selecting by gain,
  a counterexample when selecting by value, and a worked three-heading example.
- `SimpleVisualization`: score range, marker colours and the simple
  policy's visualisation.

Behaviour of the code worth noting:

- The range gate is strict. The update pass runs only when `update_range`
  is 0 or strictly greater than the distance to the segment's final pose.
- Gain computation always reports success. It ignores the wrapped
  evaluator's success flags.
- Red is `min(2 - 2*frac, 1)` and green is `min(2*frac, 1)`, so both are
  full in the middle of the score range.
- Selecting by gain, with a gain that depends only on the trajectory, a
  second local update pass changes nothing (`UpdateIdempotentByGain`).
  Selecting by value, it can switch the active alternative
  (`ByValueUpdateNotIdempotent`). In the second pass, eligibility is judged
  on the gains the first pass re-scored, while ranking uses values.

## Model

| member | source | states |
|---|---|---|
| YawPlanning.CheckParamsValid | active_3d_planning_core/src/module/trajectory_evaluator/yaw_planning_evaluator.cpp:40-46 | A direction count below 1 is rejected with "n_directions expected > 0"; otherwise the generic evaluator's verdict is returned unchanged. |
| YawPlanning.AcceptedConfigCount | active_3d_planning_core/src/module/trajectory_evaluator/yaw_planning_evaluator.cpp:70-71 | Any configuration that passes validation builds exactly `n_directions` alternatives. |
| YawPlanning.AlternativeCount | active_3d_planning_core/src/module/trajectory_evaluator/yaw_planning_evaluator.cpp:58-71 | Exactly `n_directions` alternatives are built when it is at least 1, and exactly one otherwise, because alternative 0 exists before the sampling loop starts. |
| YawPlanning.Evaluate | active_3d_planning_core/src/module/trajectory_evaluator/yaw_planning_evaluator.cpp:60-66 | Scoring an alternative changes only its metrics. Gain comes from the wrapped evaluator. Cost and value are recomputed only when selecting by value; otherwise they are unchanged. |
| YawPlanning.Candidate | active_3d_planning_core/src/module/trajectory_evaluator/yaw_planning_evaluator.cpp:58-81 | Alternative i keeps the segment's pose count and positions, faces its target heading at every pose, has an empty extension slot and keeps the parent link. It is scored by the wrapped evaluator on that re-headed copy: its gain is the wrapped gain. When selecting by value, its cost and then its value are the wrapped cost and value, each computed after the fresh metrics before it; otherwise they are the segment's own. |
| YawPlanning.TargetYawsDistinct | src/modules/trajectory_evaluators/simple_yaw_planning_evaluator.cpp:17-20 | No two alternatives face headings a whole number of turns apart, so no two face the same heading. This includes alternative 0's unsampled original heading, whatever its range. |
| YawPlanning.ComputeGain | active_3d_planning_core/src/module/trajectory_evaluator/yaw_planning_evaluator.cpp:48-97 | Always succeeds. Caches max(1, n) alternatives, and alternative i is candidate i. Alternative 0 faces the original last-pose heading. The active index is the first maximum of the scores (value when selecting by value, else gain). The segment takes the winner's trajectory and gain; cost and value are copied only when selecting by value. Pose count, positions and the parent link are kept. |
| YawPlanning.ComputeCost | active_3d_planning_core/src/module/trajectory_evaluator/yaw_planning_evaluator.cpp:99-101 | Returns the wrapped evaluator's cost and success flag and leaves the trajectory and the cached alternatives alone. |
| YawPlanning.ComputeValue | active_3d_planning_core/src/module/trajectory_evaluator/yaw_planning_evaluator.cpp:103-105 | Returns the wrapped evaluator's value and success flag and leaves the trajectory and the cached alternatives alone. |
| YawPlanning.SelectNextBest | active_3d_planning_core/src/module/trajectory_evaluator/yaw_planning_evaluator.cpp:107-109 | Returns the wrapped evaluator's choice. |
| YawPlanning.UpdateLocal | active_3d_planning_core/src/module/trajectory_evaluator/yaw_planning_evaluator.cpp:111-153 | Nothing changes unless the segment has a parent, has cached alternatives, and the range is 0 or greater than the distance; a negative range never updates. Inside the gate, exactly the alternatives whose old gain exceeds the floor are re-scored. The active index becomes their first maximum, or stays put if none is eligible. The poses keep count and positions and all face the active alternative's final heading. Gain is copied, and cost and value too when selecting by value. |
| YawPlanning.UpdateSegment | active_3d_planning_core/src/module/trajectory_evaluator/yaw_planning_evaluator.cpp:111-155 | Always returns what the wrapped evaluator's update returns for the locally updated segment. Outside the gate, that is the wrapped update of the untouched segment. |
| YawPlanning.VisualizeBase | active_3d_planning_core/src/module/trajectory_evaluator/yaw_planning_evaluator.cpp:157-168 | Without cached alternatives nothing is added. Otherwise only the wrapped evaluator's markers for the active alternative are appended. |
| Selection.Scan | active_3d_planning_core/src/module/trajectory_evaluator/yaw_planning_evaluator.cpp:67-86 | The strict-greater scan returns "none" exactly when no index is eligible; otherwise it returns the first maximum among the eligible scores. |
| Selection.FirstMaxUnique | active_3d_planning_core/src/module/trajectory_evaluator/yaw_planning_evaluator.cpp:82-85 | Selection is deterministic: only one index can be the first maximum. |
| Selection.FirstMaxNarrow | active_3d_planning_core/src/module/trajectory_evaluator/yaw_planning_evaluator.cpp:122-140 | Shrinking the eligible set keeps the first maximum if it stays eligible. |
| Selection.SoleEligibleWins | active_3d_planning_core/src/module/trajectory_evaluator/yaw_planning_evaluator.cpp:122-140 | With exactly one eligible alternative, that alternative is selected whatever its score. |
| Angles.Normalize | src/modules/trajectory_evaluators/simple_yaw_planning_evaluator.cpp:19 | The reduced heading lies in [0, 1) turn and differs from the input by a whole number of turns. |
| Angles.NormalizeSeparates | src/modules/trajectory_evaluators/simple_yaw_planning_evaluator.cpp:17-20 | Shifts by two different fractions of a turn reduce to headings that are not a whole number of turns apart. A non-zero shift is never a whole number of turns from the unshifted heading. |
| SimplePolicy.SampleYaw | src/modules/trajectory_evaluators/simple_yaw_planning_evaluator.cpp:17-20 | Sample i lies in [0, 1) turn and equals the original heading plus i/n of a turn, up to whole turns. |
| SimplePolicy.OffsetsInsideOneTurn | src/modules/trajectory_evaluators/simple_yaw_planning_evaluator.cpp:19 | For 0 < i <= j < n, each offset i/n lies strictly inside one turn, and the offsets strictly increase with the sample number. |
| SimplePolicy.SetTrajectoryYaw | src/modules/trajectory_evaluators/simple_yaw_planning_evaluator.cpp:22-28 | Keeps the trajectory's length and positions and makes every pose face the target heading. |
| SimplePolicy.SetTrajectoryYawDeterminedByGeometry | src/modules/trajectory_evaluators/simple_yaw_planning_evaluator.cpp:22-28 | The result depends only on the geometry and the target: the start heading is ignored, and a later rewrite overrides an earlier one. |
| YawPlanningProperties.UpdateIdempotentByGain | active_3d_planning_core/src/module/trajectory_evaluator/yaw_planning_evaluator.cpp:119-151 | Selecting by gain, with a gain that depends only on the trajectory, a second update pass in a row leaves the segment exactly as the first one did. |
| YawPlanningProperties.ByValueUpdateNotIdempotent | active_3d_planning_core/src/module/trajectory_evaluator/yaw_planning_evaluator.cpp:122-140 | Selecting by value, there is a segment whose second update pass switches the active alternative from 0 to 1. |
| YawPlanningProperties.ThreeHeadingsSelection | active_3d_planning_core/src/module/trajectory_evaluator/yaw_planning_evaluator.cpp:70-86 | With three headings and gains 5, 9, 3, selecting by gain picks alternative 1 with gain 9. With values 8, 4, 9, selecting by value picks alternative 2. |
| SimpleVisualization.ScoreRange | src/modules/trajectory_evaluators/simple_yaw_planning_evaluator.cpp:47-63 | The running scan ends with a minimum and a maximum that bound every score, and some score attains each of them. |
| SimpleVisualization.Bounds | src/modules/trajectory_evaluators/simple_yaw_planning_evaluator.cpp:41-63 | Starting from alternative 0's score, the extremes bound every score and each is attained. |
| SimpleVisualization.BoundsSeparate | src/modules/trajectory_evaluators/simple_yaw_planning_evaluator.cpp:41-63 | The extremes are equal exactly when all scores are equal. A top scorer sits at the maximum and a bottom scorer at the minimum. |
| SimpleVisualization.FractionInUnitInterval | src/modules/trajectory_evaluators/simple_yaw_planning_evaluator.cpp:85-89 | For lo < hi, a score within [lo, hi] has a relative position in [0, 1]. It is 1 at the maximum and 0 at the minimum. |
| SimpleVisualization.MarkerColour | src/modules/trajectory_evaluators/simple_yaw_planning_evaluator.cpp:84-98 | Alpha is always 0.4, and equal extremes give the neutral (0.3, 0.3, 1.0). Otherwise red and green lie in [0, 1], blue is 0 and one of red or green is full. The maximum is pure green and the minimum pure red. In between the colour is the linear blend: with frac the score's fraction of the range, red is full and green is 2·frac up to frac = 0.5, and from there green is full and red is 2 − 2·frac. |
| SimpleVisualization.ColourMonotone | src/modules/trajectory_evaluators/simple_yaw_planning_evaluator.cpp:85-91 | A higher score never gets less green or more red. |
| SimpleVisualization.AlternativeMarkers | src/modules/trajectory_evaluators/simple_yaw_planning_evaluator.cpp:64-98 | One arrow per alternative, in index order, each placed at that alternative's final pose and coloured by its score against the extremes of all scores. |
| SimpleVisualization.EqualScoresNeutral | src/modules/trajectory_evaluators/simple_yaw_planning_evaluator.cpp:93-97 | When all alternatives score the same, every arrow is neutral blue. |
| SimpleVisualization.DistinctScoresRedToGreen | src/modules/trajectory_evaluators/simple_yaw_planning_evaluator.cpp:85-92 | When the scores differ, every arrow's red and green lie in [0, 1] and its blue is 0. A top scorer is pure green and a bottom scorer pure red. |
| SimpleVisualization.ColoursFollowScores | src/modules/trajectory_evaluators/simple_yaw_planning_evaluator.cpp:85-91 | When the scores differ, an alternative that scores at least as high never gets less green or more red. |
| SimpleVisualization.Visualize | src/modules/trajectory_evaluators/simple_yaw_planning_evaluator.cpp:36-106 | Without cached alternatives nothing is added. Otherwise the existing markers come first, then one arrow per alternative, then the wrapped evaluator's markers for the active alternative, and the last part appears only when follow-up visualisation is on. |
| SimpleVisualization.FollowupIsBaseVisualization | src/modules/trajectory_evaluators/simple_yaw_planning_evaluator.cpp:102-105 | With follow-up on, the simple visualisation ends with exactly what the decorator's own visualisation adds. |

## Left out

- Parameter loading, module-factory creation of the wrapped evaluator, and registration in the linkable-module registry (active_3d_planning_core/src/module/trajectory_evaluator/yaw_planning_evaluator.cpp:17-38, src/modules/trajectory_evaluators/simple_yaw_planning_evaluator.cpp:14-15 and 30-34). These are framework wiring. The registry's escape hatch, which lets updater modules edit the cached alternatives directly, is not modelled.
- Marker message fields such as frame, namespace, timestamp, id, arrow type, scale and action (src/modules/trajectory_evaluators/simple_yaw_planning_evaluator.cpp:65-82). A marker is its pose and colour.
- Quaternions, `setFromYaw` and `getYaw`. A pose is a position plus a heading. Headings are measured in turns (1.0 = 2*pi rad), so the uniform offsets are the rational numbers i/n.
- Angles.Normalize: the body of `angleScaled` is not part of this model. It is taken to be reduction into [0, 1) of a turn. The distinctness of the sampled headings holds for any reduction modulo one turn.
- The planner position and the Euclidean `.norm()`. The distance to the segment's final pose is a non-negative real input.
- Floating point. Scores, colours and headings are exact reals. The update pass starts from the lowest double as its "best so far"; here it starts from "no best yet", so a score equal to the lowest double could win here but not in the code.
- The wrapped evaluator's own algorithms. Each of its calls is a pure function. Its gain, cost and value calls are taken to change only the matching metric of the segment they receive. Their success flags during sampling and re-scoring are ignored, as in the code.
- `TrajectorySegment::shallowCopy` is not part of this model. An alternative is taken to copy the trajectory, metrics and parent link and to start with an empty extension slot. Children and the visited flag are not modelled.
- Heap ownership of the cached info (`new`/`reset`) and the `reinterpret_cast`/`dynamic_cast` reads. The extension slot is `Option<YawInfo>`, and a slot written by another evaluator is not modelled.
- Other sampling policies. The decorator's abstract sampling and heading hooks are bound to the simple policy, which ignores the start heading.
- YawPlanningProperties.UpdateIdempotentByGain: it covers the local re-selection only, not the wrapped evaluator's own update that follows it.
