/** The simple policy's visualisation: one arrow per cached alternative at
    its final pose, coloured by its score relative to the others (red for
    the lowest, green for the highest, blue when all are equal), then the
    wrapped evaluator's own markers for the active alternative. */
module SimpleVisualization {
  import opened Wrappers
  import opened Segments
  import opened YawPlanning

  const MarkerAlpha: real := 0.4
  const Neutral := Colour(0.3, 0.3, 1.0, MarkerAlpha)

  /** The running minimum and maximum of `s`, continued from index `i` with
      `lo` and `hi` the extremes of the indices before it. */
  function ScoreRange(s: seq<real>, i: nat, lo: real, hi: real): (r: (real, real))
    requires 0 < i <= |s|
    requires forall j :: 0 <= j < i ==> lo <= s[j] <= hi
    requires exists j :: 0 <= j < i && s[j] == lo
    requires exists j :: 0 <= j < i && s[j] == hi
    ensures forall j :: 0 <= j < |s| ==> r.0 <= s[j] <= r.1
    ensures exists j :: 0 <= j < |s| && s[j] == r.0
    ensures exists j :: 0 <= j < |s| && s[j] == r.1
    decreases |s| - i
  {
    if i == |s| then (lo, hi)
    else
      var hi' := if s[i] > hi then s[i] else hi;
      var lo' := if s[i] < lo then s[i] else lo;
      ScoreRange(s, i + 1, lo', hi')
  }

  /** The extremes of a non-empty score list, starting from the first score. */
  function Bounds(s: seq<real>): (r: (real, real))
    requires |s| > 0
    ensures forall j :: 0 <= j < |s| ==> r.0 <= s[j] <= r.1
    ensures exists j :: 0 <= j < |s| && s[j] == r.0
    ensures exists j :: 0 <= j < |s| && s[j] == r.1
  {
    ScoreRange(s, 1, s[0], s[0])
  }

  function Min(a: real, b: real): real {
    if a <= b then a else b
  }

  lemma PositiveProduct(a: real, b: real)
    requires a > 0.0 && b > 0.0
    ensures a * b > 0.0
  {
  }

  /** Where a score sits in [lo, hi], as a fraction of the range. */
  lemma FractionInUnitInterval(score: real, lo: real, hi: real)
    requires lo < hi
    ensures lo <= score <= hi ==> 0.0 <= (score - lo) / (hi - lo) <= 1.0
    ensures score == hi ==> (score - lo) / (hi - lo) == 1.0
    ensures score == lo ==> (score - lo) / (hi - lo) == 0.0
  {
    var d := hi - lo;
    var f := (score - lo) / d;
    assert f * d == score - lo;
    if lo <= score <= hi {
      if f < 0.0 {
        PositiveProduct(-f, d);
      }
      if f > 1.0 {
        PositiveProduct(f - 1.0, d);
      }
    }
    if score == hi {
      if f > 1.0 {
        PositiveProduct(f - 1.0, d);
      } else if f < 1.0 {
        PositiveProduct(1.0 - f, d);
      }
    }
  }

  /** The colour of a score within [lo, hi]: red fades out over the upper
      half of the range and green fades in over the lower half. */
  function MarkerColour(score: real, lo: real, hi: real): (c: Colour)
    ensures c.a == MarkerAlpha
    ensures lo == hi ==> c == Neutral
    ensures lo < hi && lo <= score <= hi ==>
      && 0.0 <= c.r <= 1.0 && 0.0 <= c.g <= 1.0 && c.b == 0.0
      && (c.r == 1.0 || c.g == 1.0)
    ensures lo < hi && score == hi ==> c.r == 0.0 && c.g == 1.0
    ensures lo < hi && score == lo ==> c.r == 1.0 && c.g == 0.0
    ensures lo < hi ==>
      var f := (score - lo) / (hi - lo);
      && (f <= 0.5 ==> c.r == 1.0 && c.g == 2.0 * f)
      && (f >= 0.5 ==> c.g == 1.0 && c.r == 2.0 - 2.0 * f)
  {
    if hi != lo then
      var frac := (score - lo) / (hi - lo);
      assert lo < hi ==>
        && (lo <= score <= hi ==> 0.0 <= frac <= 1.0)
        && (score == hi ==> frac == 1.0)
        && (score == lo ==> frac == 0.0) by {
        if lo < hi {
          FractionInUnitInterval(score, lo, hi);
        }
      }
      Colour(Min((0.5 - frac) * 2.0 + 1.0, 1.0), Min((frac - 0.5) * 2.0 + 1.0, 1.0), 0.0, MarkerAlpha)
    else
      Neutral
  }

  /** A higher score never gets less green or more red. */
  lemma ColourMonotone(s1: real, s2: real, lo: real, hi: real)
    requires lo < hi && s1 <= s2
    ensures MarkerColour(s1, lo, hi).g <= MarkerColour(s2, lo, hi).g
    ensures MarkerColour(s1, lo, hi).r >= MarkerColour(s2, lo, hi).r
  {
    var f1 := (s1 - lo) / (hi - lo);
    var f2 := (s2 - lo) / (hi - lo);
    assert f1 * (hi - lo) == s1 - lo;
    assert f2 * (hi - lo) == s2 - lo;
    assert (f2 - f1) * (hi - lo) == s2 - s1;
    assert f1 <= f2;
  }

  /** One arrow per alternative, in index order. */
  function AlternativeMarkers(cfg: Config, alts: seq<Segment>): (r: seq<Marker>)
    requires |alts| > 0
    requires forall i :: 0 <= i < |alts| ==> |alts[i].trajectory| > 0
    ensures |r| == |alts|
    ensures forall k :: 0 <= k < |alts| ==> r[k].pose == LastPose(alts[k].trajectory)
    ensures forall k :: 0 <= k < |alts| ==>
      r[k].colour == MarkerColour(Scores(cfg, alts)[k], Bounds(Scores(cfg, alts)).0, Bounds(Scores(cfg, alts)).1)
  {
    var bounds := Bounds(Scores(cfg, alts));
    seq(|alts|, k requires 0 <= k < |alts| =>
      Marker(LastPose(alts[k].trajectory), MarkerColour(Score(cfg, alts[k]), bounds.0, bounds.1)))
  }

  predicate AllEqual(s: seq<real>) {
    forall i, j :: 0 <= i < |s| && 0 <= j < |s| ==> s[i] == s[j]
  }

  predicate IsTop(s: seq<real>, k: int)
    requires 0 <= k < |s|
  {
    forall j :: 0 <= j < |s| ==> s[j] <= s[k]
  }

  predicate IsBottom(s: seq<real>, k: int)
    requires 0 <= k < |s|
  {
    forall j :: 0 <= j < |s| ==> s[k] <= s[j]
  }

  /** The extremes collapse exactly when all scores are equal; otherwise the
      top scorers sit at the maximum and the bottom scorers at the minimum. */
  lemma BoundsSeparate(s: seq<real>)
    requires |s| > 0
    ensures AllEqual(s) <==> Bounds(s).0 == Bounds(s).1
    ensures forall k :: 0 <= k < |s| && IsTop(s, k) ==> s[k] == Bounds(s).1
    ensures forall k :: 0 <= k < |s| && IsBottom(s, k) ==> s[k] == Bounds(s).0
  {
    var lo, hi := Bounds(s).0, Bounds(s).1;
    var jlo :| 0 <= jlo < |s| && s[jlo] == lo;
    var jhi :| 0 <= jhi < |s| && s[jhi] == hi;
    if AllEqual(s) {
      assert s[jlo] == s[jhi];
    }
    if lo == hi {
      assert forall k :: 0 <= k < |s| ==> s[k] == lo;
    }
    forall k | 0 <= k < |s| && IsTop(s, k)
      ensures s[k] == hi
    {
      assert s[jhi] <= s[k];
    }
    forall k | 0 <= k < |s| && IsBottom(s, k)
      ensures s[k] == lo
    {
      assert s[k] <= s[jlo];
    }
  }

  /** When the scores are all equal, every arrow is neutral blue. */
  lemma EqualScoresNeutral(cfg: Config, alts: seq<Segment>)
    requires |alts| > 0
    requires forall i :: 0 <= i < |alts| ==> |alts[i].trajectory| > 0
    requires AllEqual(Scores(cfg, alts))
    ensures var m := AlternativeMarkers(cfg, alts);
      forall k :: 0 <= k < |alts| ==> m[k].colour == Neutral
  {
    BoundsSeparate(Scores(cfg, alts));
  }

  /** When the scores differ, the arrows run from red to green without blue:
      a top scorer is pure green and a bottom scorer pure red. */
  lemma DistinctScoresRedToGreen(cfg: Config, alts: seq<Segment>)
    requires |alts| > 0
    requires forall i :: 0 <= i < |alts| ==> |alts[i].trajectory| > 0
    requires !AllEqual(Scores(cfg, alts))
    ensures var m := AlternativeMarkers(cfg, alts);
      var s := Scores(cfg, alts);
      forall k :: 0 <= k < |alts| ==>
        && 0.0 <= m[k].colour.r <= 1.0 && 0.0 <= m[k].colour.g <= 1.0 && m[k].colour.b == 0.0
        && (IsTop(s, k) ==> m[k].colour.r == 0.0 && m[k].colour.g == 1.0)
        && (IsBottom(s, k) ==> m[k].colour.r == 1.0 && m[k].colour.g == 0.0)
  {
    var s := Scores(cfg, alts);
    BoundsSeparate(s);
    assert Bounds(s).0 < Bounds(s).1 by {
      assert Bounds(s).0 <= s[0] <= Bounds(s).1;
    }
  }

  /** When the scores differ, a higher-scoring arrow is never less green or
      more red. */
  lemma ColoursFollowScores(cfg: Config, alts: seq<Segment>, k: int, l: int)
    requires |alts| > 0
    requires forall i :: 0 <= i < |alts| ==> |alts[i].trajectory| > 0
    requires !AllEqual(Scores(cfg, alts))
    requires 0 <= k < |alts| && 0 <= l < |alts| && Score(cfg, alts[k]) <= Score(cfg, alts[l])
    ensures AlternativeMarkers(cfg, alts)[k].colour.g <= AlternativeMarkers(cfg, alts)[l].colour.g
    ensures AlternativeMarkers(cfg, alts)[k].colour.r >= AlternativeMarkers(cfg, alts)[l].colour.r
  {
    var s := Scores(cfg, alts);
    var lo, hi := Bounds(s).0, Bounds(s).1;
    BoundsSeparate(s);
    assert lo < hi by {
      assert lo <= s[0] <= hi;
    }
    ColourMonotone(s[k], s[l], lo, hi);
  }

  /** Visualisation of the simple policy: nothing without cached
      alternatives; otherwise the given markers, then one arrow per
      alternative in index order, then, only when follow-up visualisation is
      on, the wrapped evaluator's markers for the active alternative. */
  function Visualize(cfg: Config, visualizeFollowup: bool, inner: Evaluator, msg: seq<Marker>, seg: Segment): (r: seq<Marker>)
    requires seg.info.Some? ==> ValidInfo(seg.info.value)
    ensures seg.info.None? ==> r == msg
    ensures seg.info.Some? ==>
      var alts := seg.info.value.orientations;
      && |r| >= |msg| + |alts|
      && r[..|msg|] == msg
      && r[|msg|..|msg| + |alts|] == AlternativeMarkers(cfg, alts)
      && (visualizeFollowup ==> r[|msg| + |alts|..] == inner.visualize(alts[seg.info.value.active]))
      && (!visualizeFollowup ==> |r| == |msg| + |alts|)
  {
    match seg.info
    case None => msg
    case Some(info) =>
      var own := msg + AlternativeMarkers(cfg, info.orientations);
      if visualizeFollowup then own + inner.visualize(info.orientations[info.active]) else own
  }

  /** With follow-up on, the simple visualisation ends with exactly what the
      decorator's own visualisation adds. */
  lemma FollowupIsBaseVisualization(cfg: Config, inner: Evaluator, msg: seq<Marker>, seg: Segment)
    requires seg.info.Some? && ValidInfo(seg.info.value)
    ensures var r := Visualize(cfg, true, inner, msg, seg);
      var n := |msg| + |seg.info.value.orientations|;
      |r| >= n && r[n..] == VisualizeBase(inner, [], seg)
  {
  }
}
