/** A whole window with a sample that stands still on a steep slope: the
    vertices hardly move, and the step check refuses it (tools/eval_chain.py). */
module StuckSample {
  import opened Common
  import opened Reals
  import opened LineFit
  import opened TurningPoints
  import opened TriEval
  import opened TriangleFaults
  import opened TriangleCorners
  import opened TriangleSteps

  // ------------------------------------------------------------------------
  // The window
  // ------------------------------------------------------------------------

  /** Twenty steps of 50 up, twenty down. */
  function Tri(i: nat): int { if i / 20 % 2 == 0 then 50 * (i % 20) else 1000 - 50 * (i % 20) }

  function Clean(): (y: seq<int>)
    ensures |y| == 301
  {
    seq(301, i requires 0 <= i < 301 => Tri(i))
  }

  /** Sample 110 holds the value of sample 109. */
  function Window(): (x: seq<int>)
    ensures |x| == 301
  {
    Clean()[110 := 550]
  }

  lemma OnSlope(k: nat, i: nat)
    requires k < 15 && 20 * k <= i <= 20 * k + 20
    ensures Clean()[i] == if k % 2 == 0 then 50 * (i - 20 * k) else 1000 - 50 * (i - 20 * k)
  {
    if i == 20 * k + 20 {
      assert i / 20 == k + 1 && i % 20 == 0;
    } else {
      assert i / 20 == k && i % 20 == i - 20 * k;
    }
  }

  /** The sample that stands still is the middle one of slope 5, which goes down. */
  lemma Stuck(i: nat)
    requires i < 301
    ensures Window()[i] == Clean()[i] + if i == 110 then 50 else 0
    ensures Window()[109] == 550 && Window()[110] == 550 && Window()[111] == 450
  {
    OnSlope(5, 109);
    OnSlope(5, 110);
    OnSlope(5, 111);
    hide Tri;
  }

  lemma WindowHysteresis()
    ensures Hysteresis(Window()) == 250
  {
    var x := Window();
    OnSlope(0, 0);
    OnSlope(0, 20);
    Stuck(0);
    Stuck(20);
    forall i | 0 <= i < 301 ensures 0 <= x[i] <= 1000 { Stuck(i); }
    hide Window, Clean, Tri, MaxOf, MinOf;
    assert MaxOf(x) in x && MinOf(x) in x && x[20] <= MaxOf(x) && MinOf(x) <= x[0];
  }

  // ------------------------------------------------------------------------
  // Turning points and fits
  // ------------------------------------------------------------------------

  function Corners(): (c: seq<nat>)
    ensures |c| == 16
  {
    seq(16, k requires 0 <= k < 16 => 20 * k)
  }

  lemma SlopeOfWindow(k: nat)
    requires k < 15
    ensures Slope(Window(), 250, 20 * k, 20 * k + 20, k % 2 == 0)
  {
    var x, a := Window(), 20 * k;
    OnSlope(k, a);
    OnSlope(k, a + 1);
    OnSlope(k, a + 20);
    Stuck(a);
    Stuck(a + 1);
    Stuck(a + 20);
    hide Window, Clean;
    forall i | a <= i < a + 20 ensures if k % 2 == 0 then x[i] <= x[i + 1] else x[i] >= x[i + 1] {
      OnSlope(k, i);
      OnSlope(k, i + 1);
      Stuck(i);
      Stuck(i + 1);
    }
  }

  lemma WindowTurns()
    ensures var tp := TurningPointsOf(Window());
            |tp| == 14 && !Overflows(Window()) && forall j :: 0 <= j < 14 ==> tp[j] == 20 * (j + 1)
  {
    var c := Corners();
    forall k | 0 <= k < 15 ensures Slope(Window(), 250, c[k], c[k + 1], Goes(true, k)) {
      assert c[k + 1] == 20 * k + 20;
      SlopeOfWindow(k);
    }
    assert c[0] == 0 && c[1] == 20 && c[15] == 300;
    hide Window, Slope, Hysteresis, TurningPointsOf, Overflows;
    WindowHysteresis();
    CornersAreTurns(Window(), c, true);
  }

  lemma {:induction false} AllEqual(s: seq<real>, v: real)
    requires forall i :: 0 <= i < |s| ==> s[i] == v
    ensures multiset(s)[v] == |s|
  {
    if s != [] {
      var n := |s| - 1;
      assert s == s[..n] + [s[n]];
      AllEqual(s[..n], v);
    }
  }

  lemma WindowGaps()
    ensures |TurningPointsOf(Window())| == 14 && MedianGap(TurningPointsOf(Window())) == 20
  {
    WindowTurns();
    hide TurningPointsOf, Window, Median;
    var g := Gaps(TurningPointsOf(Window()));
    AllEqual(g, 20.0);
    MajorityIsMedian(g, 20.0);
    assert (20.0).Floor == 20;
  }

  function LineOf(s: nat): Line {
    if s % 2 == 0 then Line(50.0, -1000.0 * s as real) else Line(-50.0, 1000.0 + 1000.0 * s as real)
  }

  /** The fit of every slope; the one with the stuck sample keeps its slope and moves by 50/17. */
  function FitOf(s: nat): Line {
    if s == 5 then Line(-50.0, LineOf(5).offset + Quotient(50.0, 17.0)) else LineOf(s)
  }

  lemma CleanOnLine(s: nat)
    requires s < 15
    ensures OnLine(Clean(), 20 * s + 2, 20 * s + 18, LineOf(s))
  {
    forall i | 20 * s + 2 <= i <= 20 * s + 18 ensures Clean()[i] as real == LineOf(s).At(i as real) {
      OnSlope(s, i);
      hide Clean;
      assert (i - 20 * s) as real == i as real - 20.0 * s as real;
    }
  }

  lemma TrimOf(tp: seq<nat>, s: nat)
    requires |tp| == 14 && s < 15 && forall j :: 0 <= j < 14 ==> tp[j] == 20 * (j + 1)
    ensures Trimmed(301, tp, 20, s) == Some((20 * s + 2, 20 * s + 18))
  {
    if s > 0 { assert tp[s - 1] == 20 * s; }
    if s < 14 { assert tp[s] == 20 * s + 20; }
  }

  lemma SegmentOf(x: seq<int>, tp: seq<nat>, s: nat)
    requires |x| == 301 && |tp| == 14 && Ordered(x, tp) && s < 15 && MedianGap(tp) == 20
    requires forall j :: 0 <= j < 14 ==> tp[j] == 20 * (j + 1)
    ensures Segments(x, tp, MedianGap(tp), 15)[s] == Fit(x, 20 * s + 2, 20 * s + 18)
  {
    TrimOf(tp, s);
    hide MedianGap, Trimmed, Fit;
  }

  lemma WindowSegment(s: nat)
    requires s < 15
    ensures |TurningPointsOf(Window())| == 14
    ensures FitsOf(Window())[s] == Fit(Window(), 20 * s + 2, 20 * s + 18)
  {
    hide TurningPointsOf, Window, MedianGap, Segments, Fit;
    WindowTurns();
    WindowGaps();
    SegmentOf(Window(), TurningPointsOf(Window()), s);
  }

  lemma CleanBumped(s: nat)
    requires s < 15
    ensures Bumped(Window(), Clean(), 20 * s + 2, 20 * s + 19, 110, 50)
    ensures s != 5 ==> OnLine(Window(), 20 * s + 2, 20 * s + 18, LineOf(s))
  {
    CleanOnLine(s);
    hide LineOf;
    forall i | 20 * s + 2 <= i < 20 * s + 19 ensures Window()[i] == Clean()[i] + if i == 110 then 50 else 0 {
      Stuck(i);
    }
  }

  lemma FitFive()
    ensures Fit(Window(), 102, 118) == Some(FitOf(5))
  {
    CleanOnLine(5);
    CleanBumped(5);
    hide Window, Clean, Fit, Bumped, OnLine;
    FitOfBump(Window(), Clean(), 102, 118, 110, 50, LineOf(5));
  }

  lemma FitOther(s: nat)
    requires s < 15 && s != 5
    ensures Fit(Window(), 20 * s + 2, 20 * s + 18) == Some(FitOf(s))
  {
    CleanBumped(s);
    hide Window, Fit, LineOf, OnLine;
    FitIsExact(Window(), 20 * s + 2, 20 * s + 18, LineOf(s));
  }

  lemma WindowFit(s: nat)
    requires s < 15
    ensures |TurningPointsOf(Window())| == 14 && FitsOf(Window())[s] == Some(FitOf(s))
  {
    hide Window, TurningPointsOf, FitsOf, Fit, FitOf;
    WindowSegment(s);
    if s == 5 { FitFive(); } else { FitOther(s); }
  }

  // ------------------------------------------------------------------------
  // Refused by its steps, not by its vertices
  // ------------------------------------------------------------------------

  lemma {:induction false} AllSteep(segs: seq<Option<Line>>, k: nat)
    requires |segs| == 15 && k <= 14 && forall s :: 0 <= s < 15 ==> segs[s] == Some(FitOf(s))
    ensures InnerCount(segs, 14, k) == if k == 0 then 0 else k - 1
    ensures InnerSteepness(segs, 14, k) == 50.0 * InnerCount(segs, 14, k) as real
  {
    if k > 0 { AllSteep(segs, k - 1); }
  }

  /** The vertices, in the window's samples. */
  function CornerOf(j: nat): real {
    20.0 * (j + 1) as real + if j == 4 || j == 5 then Quotient(1.0, 34.0) else 0.0
  }

  lemma VertexAt(j: nat)
    requires j < 14
    ensures Vertex(Some(FitOf(j)), Some(FitOf(j + 1))) == Some(CornerOf(j))
  {
    assert (j + 1) % 2 == 0 <==> j % 2 != 0;
    assert FitOf(j).slope != FitOf(j + 1).slope;
    assert FitOf(j).At(CornerOf(j)) == FitOf(j + 1).At(CornerOf(j)) by {
      assert Quotient(50.0, 17.0) == 100.0 * Quotient(1.0, 34.0);
    }
    hide FitOf, CornerOf;
    VertexIsIntersection(FitOf(j), FitOf(j + 1), CornerOf(j));
  }

  lemma {:induction false} SpansBelow(pos: seq<Option<real>>, k: nat, T: real, lo: nat, hi: nat, bound: real)
    requires hi + k <= |pos|
    requires forall j :: lo <= j < hi && pos[j].Some? && pos[j + k].Some? ==>
               Abs(pos[j + k].value - pos[j].value - (k / 2) as real * T) <= bound
    ensures forall i :: 0 <= i < |Spans(pos, k, T, lo, hi)| ==> Spans(pos, k, T, lo, hi)[i] <= bound
    decreases hi - lo
  {
    if lo < hi { SpansBelow(pos, k, T, lo + 1, hi, bound); }
  }

  lemma SmallSlip(pos: seq<Option<real>>)
    requires |pos| == 14 && forall j :: 0 <= j < 14 ==> pos[j] == Some(CornerOf(j))
    ensures Slip(pos).n > 0 && Slip(pos).slip < 0.5
  {
    hide Slip, Median, Periods, Spans;
    assert Quotient(1.0, 34.0) < 0.03;
    assert (4 / 2) as real == 2.0;
    MedianPeriod(pos, 1, 2, 6, 11, 40.0);
    SlipBy(pos, 40.0);
    SpansBelow(pos, 4, 40.0, 1, 9, 0.1);
    SpanListed(pos, 4, 40.0, 1, 9, 1);
  }

  lemma StuckSteps(x: seq<int>, tp: seq<nat>, segs: seq<Option<Line>>)
    requires |x| == 301 && x[109] == 550 && x[110] == 550 && x[111] == 450
    requires |tp| == 14 && tp[4] == 100 && tp[5] == 120
    requires |segs| == 15 && forall s :: 0 <= s < 15 ==> segs[s] == Some(FitOf(s))
    ensures Steep(segs, 14) && Slow(x, tp, segs, 5, 109) && Fast(x, tp, segs, 5, 110)
  {
    AllSteep(segs, 14);
    assert segs[5] == Some(FitOf(5)) && FitOf(5).slope == -50.0;
    hide FitOf;
  }

  /** The window is steep enough to be checked, its vertices are good to a tenth
      of a sample, and yet it is refused, because a step is missing and one is double. */
  lemma StuckRefused()
    ensures var r := Evaluation(Window());
            r.Some? && r.value.zero > 0 && r.value.dbl > 0 && r.value.slip < 0.5 && !GridOk(r.value)
  {
    hide Window, TurningPointsOf, FitsOf, Evaluation, FitOf, Steep, Slow, Fast;
    var x := Window();
    WindowTurns();
    forall s | 0 <= s < 15 ensures FitsOf(x)[s] == Some(FitOf(s)) { WindowFit(s); }
    Stuck(0);
    StuckSteps(x, TurningPointsOf(x), FitsOf(x));
    StuckFound(x);
    SlipOfWindow(x, FitsOf(x));
  }

  lemma StuckFound(x: seq<int>)
    requires |x| == 301 && |TurningPointsOf(x)| == 14 && Steep(FitsOf(x), 14)
    requires Slow(x, TurningPointsOf(x), FitsOf(x), 5, 109) && Fast(x, TurningPointsOf(x), FitsOf(x), 5, 110)
    ensures var r := Evaluation(x); r.Some? && r.value.zero > 0 && r.value.dbl > 0 && !GridOk(r.value)
  {
    hide TurningPointsOf, FitsOf, Evaluation, Steep, Slow, Fast;
    StepCheck(x);
  }

  lemma SlipOfWindow(x: seq<int>, segs: seq<Option<Line>>)
    requires |x| == 301 && |TurningPointsOf(x)| == 14 && segs == FitsOf(x)
    requires forall s :: 0 <= s < 15 ==> segs[s] == Some(FitOf(s))
    ensures Evaluation(x).Some? && Evaluation(x).value.slip < 0.5
  {
    hide TurningPointsOf, Segments, Evaluation, Judged, Overflows, MedianGap, Slip, FitOf, Vertex;
    var tp := TurningPointsOf(x);
    EvaluationJudges(x, tp);
    JudgedBy(x, tp, Overflows(x));
    forall j | 0 <= j < 14 ensures Vertices(segs)[j] == Some(CornerOf(j)) { VertexAt(j); }
    SmallSlip(Vertices(segs));
  }
}
