/** The yaw-planning decorator evaluator: it samples headings for a segment,
    has the wrapped evaluator score each one, rewires the segment to the best
    and keeps the alternatives so that later update passes can re-score them.
    Its sampling and heading hooks are those of the simple policy. */
module YawPlanning {
  import opened Wrappers
  import opened Segments
  import opened Selection
  import opened Angles
  import opened SimplePolicy

  /** Outcome of parameter validation. */
  datatype Verdict = Accepted | Rejected(message: string)

  const NDirectionsError: string := "n_directions expected > 0"

  /** Rejects a non-positive direction count; otherwise the generic
      evaluator's own verdict stands. */
  function CheckParamsValid(cfg: Config, parentVerdict: Verdict): (r: Verdict)
    ensures cfg.nDirections < 1 ==> r == Rejected(NDirectionsError)
    ensures cfg.nDirections >= 1 ==> r == parentVerdict
  {
    if cfg.nDirections < 1 then Rejected(NDirectionsError) else parentVerdict
  }

  /** How many alternatives gain computation builds: alternative 0 is built
      before the sampling loop, so there is always at least one. */
  function AlternativeCount(nDirections: int): (r: nat)
    ensures r >= 1
    ensures nDirections >= 1 ==> r == nDirections
    ensures nDirections < 1 ==> r == 1
  {
    if nDirections < 1 then 1 else nDirections
  }

  /** A configuration that passes validation builds exactly `nDirections`
      alternatives. */
  lemma AcceptedConfigCount(cfg: Config, parentVerdict: Verdict)
    requires CheckParamsValid(cfg, parentVerdict).Accepted?
    ensures AlternativeCount(cfg.nDirections) == cfg.nDirections
  {
  }

  /** The copy an alternative starts from: trajectory, metrics and parent
      link, without the extension slot. */
  function ShallowCopy(s: Segment): Segment {
    s.(info := None)
  }

  /** The wrapped evaluator's computeGain, followed by its computeCost and
      computeValue when selecting by value. Only metrics change. */
  function Evaluate(cfg: Config, inner: Evaluator, s: Segment): (r: Segment)
    ensures r.trajectory == s.trajectory && r.hasParent == s.hasParent && r.info == s.info
    ensures r.gain == inner.gainOf(s)
    ensures cfg.selectByValue ==> r.cost == inner.costOf(s.(gain := r.gain))
    ensures cfg.selectByValue ==> r.value == inner.valueOf(s.(gain := r.gain, cost := r.cost))
    ensures !cfg.selectByValue ==> r.cost == s.cost && r.value == s.value
  {
    var g := s.(gain := inner.gainOf(s));
    if cfg.selectByValue then
      var c := g.(cost := inner.costOf(g));
      c.(value := inner.valueOf(c))
    else g
  }

  /** The heading alternative `i` faces: the original (last-pose) heading for
      alternative 0, the `i`-th uniform sample for the others. */
  function TargetYaw(cfg: Config, originalYaw: real, i: int): real
    requires 0 <= i < AlternativeCount(cfg.nDirections)
  {
    if i == 0 then originalYaw else SampleYaw(originalYaw, i, cfg.nDirections)
  }

  /** The alternatives face pairwise different headings: no two of them are
      a whole number of turns apart. */
  lemma TargetYawsDistinct(cfg: Config, originalYaw: real, i: int, j: int)
    requires 0 <= i < j < AlternativeCount(cfg.nDirections)
    ensures !WholeTurns(TargetYaw(cfg, originalYaw, i) - TargetYaw(cfg, originalYaw, j))
    ensures TargetYaw(cfg, originalYaw, i) != TargetYaw(cfg, originalYaw, j)
  {
    var n := cfg.nDirections;
    if i == 0 {
      var x := Offset(j, n);
      OffsetsInsideOneTurn(j, j, n);
      NormalizeSeparates(originalYaw, x, (x + 1.0) / 2.0);
    } else {
      OffsetsInsideOneTurn(i, j, n);
      NormalizeSeparates(originalYaw, Offset(i, n), Offset(j, n));
    }
  }

  /** Alternative `i` of `seg`: a shallow copy facing `TargetYaw`, scored by
      the wrapped evaluator. */
  function Candidate(cfg: Config, inner: Evaluator, seg: Segment, i: int): (r: Segment)
    requires |seg.trajectory| > 0 && 0 <= i < AlternativeCount(cfg.nDirections)
    ensures SameGeometry(r.trajectory, seg.trajectory)
    ensures AllFacing(r.trajectory, TargetYaw(cfg, LastPose(seg.trajectory).yaw, i))
    ensures r.info.None? && r.hasParent == seg.hasParent
    ensures var copy := Segment(r.trajectory, seg.gain, seg.cost, seg.value, seg.hasParent, None);
      && r.gain == inner.gainOf(copy)
      && (cfg.selectByValue ==>
            && r.cost == inner.costOf(copy.(gain := r.gain))
            && r.value == inner.valueOf(copy.(gain := r.gain, cost := r.cost)))
      && (!cfg.selectByValue ==> r.cost == seg.cost && r.value == seg.value)
  {
    var t := seg.trajectory;
    var yaw := TargetYaw(cfg, LastPose(t).yaw, i);
    Evaluate(cfg, inner, ShallowCopy(seg).(trajectory := SetTrajectoryYaw(t, FirstPose(t).yaw, yaw)))
  }

  /** Gain computation: builds every alternative, keeps the first best by
      the selection criterion, copies its data onto the segment and caches
      the alternatives in the segment's extension slot. */
  function ComputeGain(cfg: Config, inner: Evaluator, seg: Segment): (r: Updated)
    requires |seg.trajectory| > 0
    ensures r.ok
    ensures r.segment.info.Some? && ValidInfo(r.segment.info.value)
    ensures |r.segment.info.value.orientations| == AlternativeCount(cfg.nDirections)
    ensures var alts := r.segment.info.value.orientations;
      forall i :: 0 <= i < |alts| ==> alts[i] == Candidate(cfg, inner, seg, i)
    ensures AllFacing(r.segment.info.value.orientations[0].trajectory, LastPose(seg.trajectory).yaw)
    ensures var info := r.segment.info.value;
      FirstMaxAmong(Scores(cfg, info.orientations), AllEligible(|info.orientations|), info.active)
    ensures var w := r.segment.info.value.orientations[r.segment.info.value.active];
      && r.segment.trajectory == w.trajectory
      && r.segment.gain == w.gain
      && (cfg.selectByValue ==> r.segment.cost == w.cost && r.segment.value == w.value)
      && (!cfg.selectByValue ==> r.segment.cost == seg.cost && r.segment.value == seg.value)
    ensures SameGeometry(r.segment.trajectory, seg.trajectory)
    ensures r.segment.hasParent == seg.hasParent
  {
    var n := AlternativeCount(cfg.nDirections);
    var alts := seq(n, i requires 0 <= i < n => Candidate(cfg, inner, seg, i));
    var elig := AllEligible(n);
    assert elig[0];
    var best := Scan(Scores(cfg, alts), elig, 1, Some(0));
    var active := best.value;
    var w := alts[active];
    Updated(
      seg.(trajectory := w.trajectory,
           gain := w.gain,
           cost := if cfg.selectByValue then w.cost else seg.cost,
           value := if cfg.selectByValue then w.value else seg.value,
           info := Some(YawInfo(alts, active))),
      true)
  }

  /** Cost computation is the wrapped evaluator's: no heading is re-sampled. */
  function ComputeCost(inner: Evaluator, seg: Segment): (r: Updated)
    ensures r.ok == inner.costOk(seg)
    ensures r.segment.cost == inner.costOf(seg)
    ensures r.segment.trajectory == seg.trajectory && r.segment.info == seg.info
  {
    Updated(seg.(cost := inner.costOf(seg)), inner.costOk(seg))
  }

  /** Value computation is the wrapped evaluator's: no heading is re-sampled. */
  function ComputeValue(inner: Evaluator, seg: Segment): (r: Updated)
    ensures r.ok == inner.valueOk(seg)
    ensures r.segment.value == inner.valueOf(seg)
    ensures r.segment.trajectory == seg.trajectory && r.segment.info == seg.info
  {
    Updated(seg.(value := inner.valueOf(seg)), inner.valueOk(seg))
  }

  /** Next-best selection is the wrapped evaluator's choice. */
  function SelectNextBest(inner: Evaluator, seg: Segment): (r: int)
    ensures r == inner.nextBest(seg)
  {
    inner.nextBest(seg)
  }

  /** The update pass touches the segment only if it is not the root, carries
      cached alternatives and lies within range (a zero range means always). */
  predicate UpdateGate(cfg: Config, seg: Segment, dist: real) {
    seg.hasParent && seg.info.Some? && (cfg.updateRange == 0.0 || cfg.updateRange > dist)
  }

  /** What the update pass reads once parent and info are present. */
  predicate UpdateReady(seg: Segment) {
    seg.hasParent && seg.info.Some? ==> |seg.trajectory| > 0 && ValidInfo(seg.info.value)
  }

  /** Alternatives the update pass may re-score: those whose recorded gain
      exceeds the gain floor. */
  function Eligibility(cfg: Config, alts: seq<Segment>): (r: seq<bool>)
    ensures |r| == |alts|
    ensures forall i :: 0 <= i < |alts| ==> (r[i] <==> alts[i].gain > cfg.updateGain)
  {
    seq(|alts|, i requires 0 <= i < |alts| => alts[i].gain > cfg.updateGain)
  }

  /** `after` is `before` with exactly the eligible alternatives re-scored. */
  predicate RescoredFrom(cfg: Config, inner: Evaluator, before: seq<Segment>, after: seq<Segment>) {
    && |after| == |before|
    && forall i :: 0 <= i < |before| ==>
         after[i] == if before[i].gain > cfg.updateGain then Evaluate(cfg, inner, before[i]) else before[i]
  }

  function Rescore(cfg: Config, inner: Evaluator, alts: seq<Segment>): (r: seq<Segment>)
    ensures RescoredFrom(cfg, inner, alts, r)
  {
    seq(|alts|, i requires 0 <= i < |alts| =>
      if alts[i].gain > cfg.updateGain then Evaluate(cfg, inner, alts[i]) else alts[i])
  }

  /** The local part of the update pass. Inside the gate it re-scores the
      eligible alternatives, re-selects among them (keeping the active index
      when none is eligible), then turns the segment's existing poses to the
      active alternative's final heading and copies its metrics; the
      segment's geometry is never replaced. */
  function UpdateLocal(cfg: Config, inner: Evaluator, seg: Segment, dist: real): (r: Segment)
    requires dist >= 0.0 && UpdateReady(seg)
    ensures !UpdateGate(cfg, seg, dist) ==> r == seg
    ensures cfg.updateRange < 0.0 ==> r == seg
    ensures UpdateGate(cfg, seg, dist) ==>
      && r.info.Some? && ValidInfo(r.info.value)
      && RescoredFrom(cfg, inner, seg.info.value.orientations, r.info.value.orientations)
    ensures UpdateGate(cfg, seg, dist) ==>
      var elig := Eligibility(cfg, seg.info.value.orientations);
      && (NoneEligible(elig) ==> r.info.value.active == seg.info.value.active)
      && (!NoneEligible(elig) ==> FirstMaxAmong(Scores(cfg, r.info.value.orientations), elig, r.info.value.active))
    ensures UpdateGate(cfg, seg, dist) ==>
      var w := r.info.value.orientations[r.info.value.active];
      && SameGeometry(r.trajectory, seg.trajectory)
      && AllFacing(r.trajectory, LastPose(w.trajectory).yaw)
      && r.gain == w.gain
      && (cfg.selectByValue ==> r.cost == w.cost && r.value == w.value)
      && (!cfg.selectByValue ==> r.cost == seg.cost && r.value == seg.value)
      && r.hasParent == seg.hasParent
  {
    if !UpdateGate(cfg, seg, dist) then seg
    else
      var info := seg.info.value;
      var elig := Eligibility(cfg, info.orientations);
      var alts := Rescore(cfg, inner, info.orientations);
      var best := Scan(Scores(cfg, alts), elig, 0, None);
      var active := if best.Some? then best.value as int else info.active;
      var w := alts[active];
      var t := seg.trajectory;
      seg.(trajectory := SetTrajectoryYaw(t, FirstPose(t).yaw, LastPose(w.trajectory).yaw),
           gain := w.gain,
           cost := if cfg.selectByValue then w.cost else seg.cost,
           value := if cfg.selectByValue then w.value else seg.value,
           info := Some(YawInfo(alts, active)))
  }

  /** The full update pass: the local re-selection, then always the wrapped
      evaluator's own update, whose result is returned. */
  function UpdateSegment(cfg: Config, inner: Evaluator, seg: Segment, dist: real): (r: Updated)
    requires dist >= 0.0 && UpdateReady(seg)
    ensures r == inner.update(UpdateLocal(cfg, inner, seg, dist))
    ensures !UpdateGate(cfg, seg, dist) ==> r == inner.update(seg)
  {
    inner.update(UpdateLocal(cfg, inner, seg, dist))
  }

  /** The decorator's own visualisation: nothing without cached alternatives,
      otherwise the wrapped evaluator's markers for the active alternative. */
  function VisualizeBase(inner: Evaluator, msg: seq<Marker>, seg: Segment): (r: seq<Marker>)
    requires seg.info.Some? ==> ValidInfo(seg.info.value)
    ensures seg.info.None? ==> r == msg
    ensures seg.info.Some? ==>
      r == msg + inner.visualize(seg.info.value.orientations[seg.info.value.active])
  {
    match seg.info
    case None => msg
    case Some(info) => msg + inner.visualize(info.orientations[info.active])
  }
}
