/** The step check of the triangle evaluator (tools/eval_chain.py): on steep
    slopes a sample that stands still, or a step of double height, is found,
    wherever on the checked part of a fitted slope it is. */
module TriangleSteps {
  import opened Common
  import opened Reals
  import opened LineFit
  import opened TurningPoints
  import opened TriEval

  // ------------------------------------------------------------------------
  // Slow and fast steps
  // ------------------------------------------------------------------------

  /** Sample i of inner slope s is checked: an eighth of the slope, two samples at least, is left out at either end. */
  predicate InChecked(tp: seq<nat>, s: nat, i: nat)
    requires 1 <= s < |tp|
  {
    var eighth := (tp[s] as int - tp[s - 1] as int) / 8;
    var m := if eighth > 2 then eighth else 2;
    tp[s - 1] + m <= i < tp[s] - m
  }

  /** The step from sample i to the next, counted along the slope. */
  function Along(x: seq<int>, i: nat, slope: real): real
    requires i + 1 < |x|
  {
    if slope >= 0.0 then x[i + 1] as real - x[i] as real else x[i] as real - x[i + 1] as real
  }

  predicate OnChecked(x: seq<int>, tp: seq<nat>, segs: seq<Option<Line>>, s: nat, i: nat) {
    1 <= s < |tp| && s < |segs| && segs[s].Some? && i + 1 < |x| && InChecked(tp, s, i)
  }

  /** Less than half the slope's steepness. */
  predicate Slow(x: seq<int>, tp: seq<nat>, segs: seq<Option<Line>>, s: nat, i: nat) {
    OnChecked(x, tp, segs, s, i) && Along(x, i, segs[s].value.slope) < 0.5 * Abs(segs[s].value.slope)
  }

  /** More than one and a half times the slope's steepness. */
  predicate Fast(x: seq<int>, tp: seq<nat>, segs: seq<Option<Line>>, s: nat, i: nat) {
    OnChecked(x, tp, segs, s, i) && Along(x, i, segs[s].value.slope) > 1.5 * Abs(segs[s].value.slope)
  }

  lemma AlongIs(x: seq<int>, i: nat, slope: real)
    requires i + 1 < |x|
    ensures StepAlong(x, i, slope) == Along(x, i, slope)
  {
  }

  lemma {:induction false} CountsIff(x: seq<int>, lo: nat, hi: nat, slope: real)
    requires hi < |x|
    ensures MissingSteps(x, lo, hi, slope) > 0 <==>
            exists i :: lo <= i < hi && Along(x, i, slope) < 0.5 * Abs(slope)
    ensures DoubleSteps(x, lo, hi, slope) > 0 <==>
            exists i :: lo <= i < hi && Along(x, i, slope) > 1.5 * Abs(slope)
  {
    hide Along, StepAlong;
    if lo < hi {
      CountsIff(x, lo, hi - 1, slope);
      AlongIs(x, hi - 1, slope);
    }
  }

  lemma CheckBounds(x: seq<int>, tp: seq<nat>, s: nat, i: nat)
    requires Ordered(x, tp) && 1 <= s < |tp|
    ensures InChecked(tp, s, i) <==> CheckLo(tp, s) <= i < CheckHi(tp, s)
    ensures CheckHi(tp, s) < |x| && (InChecked(tp, s, i) ==> i + 1 < |x| && CheckHi(tp, s) >= 0)
  {
  }

  /** The counts of the slopes before k. */
  lemma {:induction false} FaultsIff(x: seq<int>, tp: seq<nat>, segs: seq<Option<Line>>, k: nat)
    requires Ordered(x, tp) && |segs| == |tp| + 1 && k <= |tp|
    ensures StepFaults(x, tp, segs, k).0 > 0 <==> exists s: nat, i: nat :: s < k && Slow(x, tp, segs, s, i)
    ensures StepFaults(x, tp, segs, k).1 > 0 <==> exists s: nat, i: nat :: s < k && Fast(x, tp, segs, s, i)
  {
    hide MissingSteps, DoubleSteps, CheckLo, CheckHi, InChecked, Along;
    if k > 1 {
      var s := k - 1;
      FaultsIff(x, tp, segs, s);
      SlopeCounts(x, tp, segs, s);
    }
  }

  lemma SlopeCounts(x: seq<int>, tp: seq<nat>, segs: seq<Option<Line>>, s: nat)
    requires Ordered(x, tp) && |segs| == |tp| + 1 && 1 <= s < |tp|
    ensures var counted := segs[s].Some? && CheckHi(tp, s) >= 0;
            && CheckHi(tp, s) < |x|
            && ((exists i :: Slow(x, tp, segs, s, i)) <==>
                  counted && MissingSteps(x, CheckLo(tp, s), CheckHi(tp, s), segs[s].value.slope) > 0)
            && ((exists i :: Fast(x, tp, segs, s, i)) <==>
                  counted && DoubleSteps(x, CheckLo(tp, s), CheckHi(tp, s), segs[s].value.slope) > 0)
  {
    hide MissingSteps, DoubleSteps, CheckLo, CheckHi, InChecked, Along;
    CheckBounds(x, tp, s, 0);
    forall i: nat
      ensures InChecked(tp, s, i) <==> CheckLo(tp, s) <= i < CheckHi(tp, s)
      ensures InChecked(tp, s, i) ==> i + 1 < |x| && CheckHi(tp, s) >= 0
    {
      CheckBounds(x, tp, s, i);
    }
    if segs[s].Some? && CheckHi(tp, s) >= 0 {
      var slope := segs[s].value.slope;
      CountsIff(x, CheckLo(tp, s), CheckHi(tp, s), slope);
      if i :| CheckLo(tp, s) <= i < CheckHi(tp, s) && Along(x, i, slope) < 0.5 * Abs(slope) {
        assert Slow(x, tp, segs, s, i);
      }
      if i :| CheckLo(tp, s) <= i < CheckHi(tp, s) && Along(x, i, slope) > 1.5 * Abs(slope) {
        assert Fast(x, tp, segs, s, i);
      }
    }
  }

  // ------------------------------------------------------------------------
  // Steep enough to be checked
  // ------------------------------------------------------------------------

  predicate Inner(segs: seq<Option<Line>>, ntp: nat, s: nat) { 1 <= s < ntp && s < |segs| && segs[s].Some? }

  /** How many of the slopes before k are inner and fitted, and the sum of their steepness. */
  function InnerCount(segs: seq<Option<Line>>, ntp: nat, k: nat): nat {
    if k == 0 then 0 else InnerCount(segs, ntp, k - 1) + if Inner(segs, ntp, k - 1) then 1 else 0
  }

  function InnerSteepness(segs: seq<Option<Line>>, ntp: nat, k: nat): real {
    if k == 0 then 0.0
    else InnerSteepness(segs, ntp, k - 1) + if Inner(segs, ntp, k - 1) then Abs(segs[k - 1].value.slope) else 0.0
  }

  /** The mean steepness of the fitted inner slopes is 40 at least. */
  predicate Steep(segs: seq<Option<Line>>, ntp: nat) {
    InnerCount(segs, ntp, ntp) > 0 && InnerSteepness(segs, ntp, ntp) >= 40.0 * InnerCount(segs, ntp, ntp) as real
  }

  lemma {:induction false} StepsAre(segs: seq<Option<Line>>, ntp: nat, k: nat)
    requires k <= |segs|
    ensures |Steps(segs, ntp, k)| == InnerCount(segs, ntp, k)
    ensures Sum(Steps(segs, ntp, k)) == InnerSteepness(segs, ntp, k)
  {
    if k > 0 {
      StepsAre(segs, ntp, k - 1);
      var before, all := Steps(segs, ntp, k - 1), Steps(segs, ntp, k);
      if Inner(segs, ntp, k - 1) { assert all[..|all| - 1] == before; }
    }
  }

  lemma SteepIff(segs: seq<Option<Line>>, ntp: nat)
    requires |segs| == ntp + 1
    ensures MeanOf(Steps(segs, ntp, ntp + 1)) >= 40.0 <==> Steep(segs, ntp)
  {
    StepsAre(segs, ntp, ntp + 1);
    var all := Steps(segs, ntp, ntp + 1);
    if |all| > 0 { MeanAtLeast(Sum(all), |all| as real, 40.0); }
  }

  lemma MeanAtLeast(sum: real, n: real, bound: real)
    requires n > 0.0
    ensures sum / n >= bound <==> sum >= bound * n
  {
    assert (sum / n) * n == sum;
    if sum / n >= bound { assert (sum / n - bound) * n >= 0.0; } else { assert (bound - sum / n) * n > 0.0; }
  }

  // ------------------------------------------------------------------------
  // The whole evaluation
  // ------------------------------------------------------------------------

  function FitsOf(x: seq<int>): (segs: seq<Option<Line>>)
    requires x != [] && |TurningPointsOf(x)| >= 2
    ensures |segs| == |TurningPointsOf(x)| + 1
  {
    var tp := TurningPointsOf(x);
    Segments(x, tp, MedianGap(tp), |tp| + 1)
  }

  lemma JudgedSteps(x: seq<int>, tp: seq<nat>, overflow: bool)
    requires x != [] && |tp| >= 2 && Ordered(x, tp)
    ensures var r, segs := Judged(x, tp, overflow), Segments(x, tp, MedianGap(tp), |tp| + 1);
            (r.zero, r.dbl)
            == if MeanOf(Steps(segs, |tp|, |tp| + 1)) >= 40.0 then StepFaults(x, tp, segs, |tp|) else (0, 0)
  {
    hide Segments, Vertices, Lengths, Slip, StepFaults, Steps, MeanOf, MaxReal, Deviations, MedianGap;
  }

  /** On a window whose fitted inner slopes have a mean steepness of 40 at least, a
      step counts as missing exactly if some checked one is below half its
      slope's steepness, and as double exactly if some is above one and a half
      times that. Below 40 nothing is checked. */
  lemma StepCheck(x: seq<int>)
    requires |x| >= 16 && |TurningPointsOf(x)| >= 2
    ensures Evaluation(x).Some?
    ensures var r, tp, segs := Evaluation(x).value, TurningPointsOf(x), FitsOf(x);
            && (Steep(segs, |tp|) ==>
                  && (r.zero > 0 <==> exists s: nat, i: nat :: Slow(x, tp, segs, s, i))
                  && (r.dbl > 0 <==> exists s: nat, i: nat :: Fast(x, tp, segs, s, i)))
            && (!Steep(segs, |tp|) ==> r.zero == 0 && r.dbl == 0)
  {
    var tp, segs := TurningPointsOf(x), FitsOf(x);
    EvaluationIs(x);
    hide TurningPointsOf, FitsOf, StepFaults, Steps, MeanOf, Steep, Slow, Fast, Evaluation;
    CountedIff(x, tp, segs);
  }

  lemma EvaluationIs(x: seq<int>)
    requires |x| >= 16 && |TurningPointsOf(x)| >= 2
    ensures Evaluation(x).Some?
    ensures var r, tp, segs := Evaluation(x).value, TurningPointsOf(x), FitsOf(x);
            (r.zero, r.dbl)
            == if MeanOf(Steps(segs, |tp|, |tp| + 1)) >= 40.0 then StepFaults(x, tp, segs, |tp|) else (0, 0)
  {
    hide TurningPointsOf, Segments, StepFaults, Steps, MeanOf, Judged, MedianGap, Overflows, NoResult;
    JudgedSteps(x, TurningPointsOf(x), Overflows(x));
  }

  lemma CountedIff(x: seq<int>, tp: seq<nat>, segs: seq<Option<Line>>)
    requires Ordered(x, tp) && |segs| == |tp| + 1
    ensures MeanOf(Steps(segs, |tp|, |tp| + 1)) >= 40.0 <==> Steep(segs, |tp|)
    ensures var f := StepFaults(x, tp, segs, |tp|);
            && (f.0 > 0 <==> exists s: nat, i: nat :: Slow(x, tp, segs, s, i))
            && (f.1 > 0 <==> exists s: nat, i: nat :: Fast(x, tp, segs, s, i))
  {
    hide Ordered, StepFaults, Steps, MeanOf, Steep, Slow, Fast;
    SteepIff(segs, |tp|);
    FaultsIff(x, tp, segs, |tp|);
    InnerOnly(x, tp, segs);
  }

  lemma InnerOnly(x: seq<int>, tp: seq<nat>, segs: seq<Option<Line>>)
    ensures forall s: nat, i: nat :: Slow(x, tp, segs, s, i) || Fast(x, tp, segs, s, i) ==> s < |tp|
  {
    hide InChecked, Along;
  }

  /** Such a window is refused. */
  lemma StepFaultRefused(x: seq<int>, s: nat, i: nat)
    requires |x| >= 16 && |TurningPointsOf(x)| >= 2 && Steep(FitsOf(x), |TurningPointsOf(x)|)
    requires Slow(x, TurningPointsOf(x), FitsOf(x), s, i) || Fast(x, TurningPointsOf(x), FitsOf(x), s, i)
    ensures Evaluation(x).Some? && !GridOk(Evaluation(x).value)
  {
    hide TurningPointsOf, FitsOf, Steep, Slow, Fast, Evaluation;
    StepCheck(x);
  }
}
