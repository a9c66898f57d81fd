/** Properties of the update pass that relate several calls. */
module YawPlanningProperties {
  import opened Wrappers
  import opened Segments
  import opened Selection
  import opened YawPlanning

  /** The wrapped evaluator's gain is a function of the trajectory alone. */
  ghost predicate GainDependsOnGeometry(inner: Evaluator) {
    forall s: Segment, t: Segment :: s.trajectory == t.trajectory ==> inner.gainOf(s) == inner.gainOf(t)
  }

  /** Re-scoring an alternative that was already re-scored changes nothing
      when selecting by gain and the gain depends on geometry only. */
  lemma RescoreStable(cfg: Config, inner: Evaluator, s: Segment)
    requires !cfg.selectByValue && GainDependsOnGeometry(inner)
    ensures Evaluate(cfg, inner, Evaluate(cfg, inner, s)) == Evaluate(cfg, inner, s)
  {
    var e := Evaluate(cfg, inner, s);
    var e2 := Evaluate(cfg, inner, e);
    assert inner.gainOf(e) == inner.gainOf(s);
    assert e2.gain == e.gain;
  }

  /** Selecting by gain, with a geometry-determined gain, a second update pass
      in a row (same range, same distance) leaves the segment as the first
      one left it. */
  lemma UpdateIdempotentByGain(cfg: Config, inner: Evaluator, seg: Segment, dist: real)
    requires dist >= 0.0 && UpdateReady(seg)
    requires !cfg.selectByValue && GainDependsOnGeometry(inner)
    ensures UpdateReady(UpdateLocal(cfg, inner, seg, dist))
    ensures UpdateLocal(cfg, inner, UpdateLocal(cfg, inner, seg, dist), dist) == UpdateLocal(cfg, inner, seg, dist)
  {
    var s1 := UpdateLocal(cfg, inner, seg, dist);
    if UpdateGate(cfg, seg, dist) {
      assert UpdateGate(cfg, s1, dist);
      var s2 := UpdateLocal(cfg, inner, s1, dist);
      var a0 := seg.info.value.orientations;
      var a1 := s1.info.value.orientations;
      var a2 := s2.info.value.orientations;
      var k1 := s1.info.value.active;
      var k2 := s2.info.value.active;
      var e1 := Eligibility(cfg, a0);
      var e2 := Eligibility(cfg, a1);

      // The second pass re-scores to the same numbers.
      forall i | 0 <= i < |a1|
        ensures a2[i] == a1[i]
      {
        if a1[i].gain > cfg.updateGain {
          if a0[i].gain > cfg.updateGain {
            RescoreStable(cfg, inner, a0[i]);
          }
        }
      }
      assert a2 == a1;

      // Only alternatives eligible in the first pass can be eligible in the second.
      assert forall j :: 0 <= j < |a1| && e2[j] ==> e1[j];

      if !NoneEligible(e1) && !NoneEligible(e2) {
        var j :| 0 <= j < |a1| && e2[j];
        assert Scores(cfg, a1)[j] <= Scores(cfg, a1)[k1];
        assert e2[k1];
        FirstMaxNarrow(Scores(cfg, a1), e1, e2, k1);
        FirstMaxUnique(Scores(cfg, a1), e2, k1, k2);
      }
      assert k2 == k1;
      GeometryAndHeadingDetermine(s2.trajectory, s1.trajectory, LastPose(a1[k1].trajectory).yaw);
    }
  }

  // A two-heading example: heading 0 has gain 5 and value 10, heading 0.5
  // has gain 7 and value 2; both were cached with gain 7 and the gain floor is 6.

  const Origin := Vec3(0.0, 0.0, 0.0)

  function ExampleInner(): Evaluator {
    Evaluator(
      (s: Segment) => if |s.trajectory| > 0 && s.trajectory[0].yaw == 0.0 then 5.0 else 7.0,
      s => 0.0,
      (s: Segment) => if |s.trajectory| > 0 && s.trajectory[0].yaw == 0.0 then 10.0 else 2.0,
      s => true,
      s => true,
      s => 0,
      s => Updated(s, true),
      s => [])
  }

  function ExampleAlternative(yaw: real): Segment {
    Segment([Pose(Origin, yaw)], 7.0, 0.0, 0.0, true, None)
  }

  function ExampleSegment(): Segment {
    Segment([Pose(Origin, 0.0)], 7.0, 0.0, 0.0, true,
      Some(YawInfo([ExampleAlternative(0.0), ExampleAlternative(0.5)], 1)))
  }

  const ExampleConfig := Config(2, true, 0.0, 6.0)

  function ExampleFirstPass(): Segment {
    UpdateLocal(ExampleConfig, ExampleInner(), ExampleSegment(), 0.0)
  }

  /** The first pass re-scores both alternatives and picks heading 0 for its value. */
  lemma ExampleFirstPassPicksHeadingZero()
    ensures var once := ExampleFirstPass();
      && UpdateReady(once) && once.hasParent && once.info.Some?
      && |once.info.value.orientations| == 2
      && once.info.value.orientations[0].gain == 5.0
      && once.info.value.orientations[1].gain == 7.0
      && once.info.value.active == 0
  {
    var cfg := ExampleConfig;
    var inner := ExampleInner();
    var seg := ExampleSegment();
    assert UpdateGate(cfg, seg, 0.0);
    var once := ExampleFirstPass();
    var a0 := seg.info.value.orientations;
    var a1 := once.info.value.orientations;
    var e1 := Eligibility(cfg, a0);
    assert e1[0] && e1[1];
    assert a1[0] == Evaluate(cfg, inner, a0[0]);
    assert a1[1] == Evaluate(cfg, inner, a0[1]);
    assert a1[0].gain == 5.0 && a1[0].value == 10.0;
    assert a1[1].gain == 7.0 && a1[1].value == 2.0;
    var sc := Scores(cfg, a1);
    assert sc[0] == 10.0 && sc[1] == 2.0;
    assert FirstMaxAmong(sc, e1, 0);
    FirstMaxUnique(sc, e1, 0, once.info.value.active);
  }

  /** Selecting by value, the update pass is not idempotent even when the
      gain depends on geometry only: after the first pass only heading 0.5
      still clears the gain floor, so the second pass switches to it.
      Eligibility is judged on gain, ranking on value. */
  lemma ByValueUpdateNotIdempotent()
    ensures GainDependsOnGeometry(ExampleInner())
    ensures UpdateReady(ExampleFirstPass()) && ExampleFirstPass().info.Some?
    ensures ExampleFirstPass().info.value.active == 0
    ensures var twice := UpdateLocal(ExampleConfig, ExampleInner(), ExampleFirstPass(), 0.0);
      twice.info.Some? && twice.info.value.active == 1
  {
    ExampleFirstPassPicksHeadingZero();
    var cfg := ExampleConfig;
    var once := ExampleFirstPass();
    assert UpdateGate(cfg, once, 0.0);
    var twice := UpdateLocal(cfg, ExampleInner(), once, 0.0);
    var e2 := Eligibility(cfg, once.info.value.orientations);
    assert !e2[0] && e2[1];
    assert !NoneEligible(e2);
    SoleEligibleWins(Scores(cfg, twice.info.value.orientations), e2, 1, twice.info.value.active);
  }

  // Three headings sampled from heading 0, scored 5, 9 and 3 by gain and
  // 8, 4 and 9 by value.

  function Pick(s: Segment, atZero: real, atThird: real, otherwise: real): real {
    if |s.trajectory| == 0 then otherwise
    else if s.trajectory[0].yaw == 0.0 then atZero
    else if s.trajectory[0].yaw == 1.0 / 3.0 then atThird
    else otherwise
  }

  function ThreeHeadingsInner(): Evaluator {
    Evaluator(
      (s: Segment) => Pick(s, 5.0, 9.0, 3.0),
      s => 0.0,
      (s: Segment) => Pick(s, 8.0, 4.0, 9.0),
      s => true,
      s => true,
      s => 0,
      s => Updated(s, true),
      s => [])
  }

  function ThreeHeadingsSegment(): Segment {
    Segment([Pose(Origin, 0.0)], 0.0, 0.0, 0.0, true, None)
  }

  /** The alternatives face 0, 1/3 and 2/3 of a turn and score 5, 9 and 3
      by gain and 8, 4 and 9 by value. */
  lemma ThreeHeadingsScores(byValue: bool)
    ensures var cfg := Config(3, byValue, -1.0, 0.0);
      var c := seq(3, i requires 0 <= i < 3 => Candidate(cfg, ThreeHeadingsInner(), ThreeHeadingsSegment(), i));
      && c[0].gain == 5.0 && c[1].gain == 9.0 && c[2].gain == 3.0
      && (byValue ==> c[0].value == 8.0 && c[1].value == 4.0 && c[2].value == 9.0)
  {
    var cfg := Config(3, byValue, -1.0, 0.0);
    var seg := ThreeHeadingsSegment();
    assert TargetYaw(cfg, 0.0, 1) == 1.0 / 3.0 by {
      assert (1.0 / 3.0).Floor == 0;
    }
    assert TargetYaw(cfg, 0.0, 2) == 2.0 / 3.0 by {
      assert (2.0 / 3.0).Floor == 0;
    }
  }

  /** Selecting by gain picks the heading scored 9 and takes its gain;
      selecting by value picks the heading valued 9 instead. */
  lemma ThreeHeadingsSelection()
    ensures var r := ComputeGain(Config(3, false, -1.0, 0.0), ThreeHeadingsInner(), ThreeHeadingsSegment());
      r.segment.info.Some? && r.segment.info.value.active == 1 && r.segment.gain == 9.0
    ensures var r := ComputeGain(Config(3, true, -1.0, 0.0), ThreeHeadingsInner(), ThreeHeadingsSegment());
      r.segment.info.Some? && r.segment.info.value.active == 2 && r.segment.value == 9.0
  {
    ThreeHeadingsScores(false);
    ThreeHeadingsScores(true);
    var byGain := Config(3, false, -1.0, 0.0);
    var r := ComputeGain(byGain, ThreeHeadingsInner(), ThreeHeadingsSegment());
    var alts := r.segment.info.value.orientations;
    assert Scores(byGain, alts) == [5.0, 9.0, 3.0];
    assert FirstMaxAmong(Scores(byGain, alts), AllEligible(3), 1);
    FirstMaxUnique(Scores(byGain, alts), AllEligible(3), 1, r.segment.info.value.active);

    var byValue := Config(3, true, -1.0, 0.0);
    var v := ComputeGain(byValue, ThreeHeadingsInner(), ThreeHeadingsSegment());
    var valts := v.segment.info.value.orientations;
    assert Scores(byValue, valts) == [8.0, 4.0, 9.0];
    assert FirstMaxAmong(Scores(byValue, valts), AllEligible(3), 2);
    FirstMaxUnique(Scores(byValue, valts), AllEligible(3), 2, v.segment.info.value.active);
  }
}
