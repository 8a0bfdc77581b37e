/** Whole windows of a triangle with slopes of ten samples: a clean one that
    passes, one with a sample lost on an inner slope that fails, and one with a
    sample lost on an outer slope that passes all the same. */
module TriangleWaves {
  import opened Common
  import opened Reals
  import opened LineFit
  import opened TurningPoints
  import opened TriEval
  import opened TriangleFaults
  import opened TriangleCorners

  // ------------------------------------------------------------------------
  // The windows
  // ------------------------------------------------------------------------

  const LAST := 140

  /** The triangle: ten steps up, ten steps down. */
  function Wave(p: nat): int { if p / 10 % 2 == 0 then 10 * (p % 10) else 100 - 10 * (p % 10) }

  const NOTHING := 141

  /** The sample that is lost, the fourth of a slope between two turning points, if one is. */
  predicate Loss(lost: nat) { lost == NOTHING || (13 <= lost < 130 && lost % 10 == 3) }

  /** Which sample of the wave is at index i, and where sample p is. */
  function Phase(lost: nat, i: nat): nat { if i < lost then i else i + 1 }

  function Index(lost: nat, p: nat): (i: nat)
    ensures i <= p
  {
    if p <= lost then p else p - 1
  }

  function Window(lost: nat): (x: seq<int>)
    ensures |x| == Index(lost, LAST) + 1
  {
    seq(Index(lost, LAST) + 1, i requires 0 <= i <= Index(lost, LAST) => Wave(Phase(lost, i)))
  }

  lemma SampleAt(lost: nat, p: nat)
    requires Loss(lost) && p <= LAST && p != lost
    ensures Index(lost, p) < |Window(lost)| && Window(lost)[Index(lost, p)] == Wave(p)
  {
  }

  /** The wave on the slope that starts at sample 10 q. */
  lemma OnSlope(p: nat, q: nat)
    requires 10 * q <= p <= 10 * q + 10
    ensures Wave(p) == if q % 2 == 0 then 10 * (p - 10 * q) else 100 - 10 * (p - 10 * q)
  {
    if p == 10 * q + 10 {
      assert p / 10 == q + 1 && p % 10 == 0;
    } else {
      assert p / 10 == q && p % 10 == p - 10 * q;
    }
  }

  lemma WaveBounds(p: nat)
    ensures 0 <= Wave(p) <= 100
  {
  }

  lemma WindowHysteresis(lost: nat)
    requires Loss(lost)
    ensures Hysteresis(Window(lost)) == 25
  {
    var x := Window(lost);
    SampleAt(lost, 0);
    SampleAt(lost, 10);
    assert Wave(0) == 0 && Wave(10) == 100;
    forall i | 0 <= i < |x| ensures 0 <= x[i] <= 100 { WaveBounds(Phase(lost, i)); }
    hide Window, Wave, MaxOf, MinOf;
    assert MaxOf(x) in x && MinOf(x) in x;
    assert x[Index(lost, 10)] <= MaxOf(x) && MinOf(x) <= x[Index(lost, 0)];
  }

  // ------------------------------------------------------------------------
  // Their turning points
  // ------------------------------------------------------------------------

  /** The corners, first and last sample included: samples 0, 10, .., 140 of the wave. */
  function CornersAt(lost: nat): (c: seq<nat>)
    ensures |c| == 15
  {
    seq(15, k requires 0 <= k < 15 => Index(lost, 10 * k))
  }

  lemma SlopeSpan(lost: nat, s: nat)
    requires Loss(lost)
    ensures Index(lost, 10 * s + 10) - Index(lost, 10 * s) == if s == lost / 10 then 9 else 10
  {
  }

  /** Index i lies on slope k, r steps along. */
  lemma OnWindow(lost: nat, k: nat, i: nat)
    requires Loss(lost) && k < 14 && Index(lost, 10 * k) <= i <= Index(lost, 10 * k + 10)
    ensures i < |Window(lost)|
    ensures var r := Phase(lost, i) - 10 * k;
            0 <= r <= 10 && Window(lost)[i] == if k % 2 == 0 then 10 * r else 100 - 10 * r
  {
    var p := Phase(lost, i);
    assert 10 * k <= p <= 10 * k + 10;
    assert Index(lost, 10 * k + 10) <= Index(lost, LAST);
    OnSlope(p, k);
  }

  lemma SlopeEnds(lost: nat, k: nat)
    requires Loss(lost) && k < 14
    ensures var x, a, b := Window(lost), Index(lost, 10 * k), Index(lost, 10 * k + 10);
            && a + 1 < b < |x|
            && (if k % 2 == 0 then x[a] == 0 < x[a + 1] && x[b] == 100 else x[a] == 100 > x[a + 1] && x[b] == 0)
  {
    var a, b := Index(lost, 10 * k), Index(lost, 10 * k + 10);
    SlopeSpan(lost, k);
    OnWindow(lost, k, a);
    OnWindow(lost, k, a + 1);
    OnWindow(lost, k, b);
    assert Phase(lost, a) == 10 * k && Phase(lost, b) == 10 * k + 10 && Phase(lost, a + 1) > 10 * k;
    hide Window, Wave, Loss, Index;
  }

  lemma SlopeOfWindow(lost: nat, k: nat)
    requires Loss(lost) && k < 14
    ensures Slope(Window(lost), 25, Index(lost, 10 * k), Index(lost, 10 * k + 10), k % 2 == 0)
  {
    var x, a, b := Window(lost), Index(lost, 10 * k), Index(lost, 10 * k + 10);
    hide Window, Wave, Loss, Index;
    SlopeEnds(lost, k);
    forall i | a <= i < b ensures if k % 2 == 0 then x[i] <= x[i + 1] else x[i] >= x[i + 1] {
      OnWindow(lost, k, i);
      OnWindow(lost, k, i + 1);
    }
  }

  lemma WindowCorners(lost: nat)
    requires Loss(lost)
    ensures HasCorners(Window(lost), 25, CornersAt(lost), true)
  {
    var c := CornersAt(lost);
    assert c[0] == 0 && c[14] == |Window(lost)| - 1;
    forall k | 0 <= k < 14 ensures Slope(Window(lost), 25, c[k], c[k + 1], Goes(true, k)) {
      assert c[k] == Index(lost, 10 * k) && c[k + 1] == Index(lost, 10 * (k + 1)) && 10 * (k + 1) == 10 * k + 10;
      SlopeOfWindow(lost, k);
    }
    hide Window, Slope, Index;
  }

  /** Thirteen turning points, at the wave's samples 10, 20, .., 130. */
  lemma WindowTurns(lost: nat)
    requires Loss(lost)
    ensures var tp := TurningPointsOf(Window(lost));
            && |tp| == 13 && !Overflows(Window(lost))
            && forall j :: 0 <= j < 13 ==> tp[j] == Index(lost, 10 * (j + 1))
  {
    WindowHysteresis(lost);
    WindowCorners(lost);
    var c := CornersAt(lost);
    assert c[1] == 10;
    hide Window, Hysteresis, HasCorners, TurningPointsOf, Overflows;
    CornersAreTurns(Window(lost), c, true);
    forall j | 0 <= j < 13 ensures c[1..14][j] == Index(lost, 10 * (j + 1)) {
      var k := j + 1;
      assert c[k] == Index(lost, 10 * k);
    }
  }

  // ------------------------------------------------------------------------
  // Their slopes
  // ------------------------------------------------------------------------

  lemma {:induction false} CountEqual(s: seq<real>, v: real, e: int)
    requires forall i :: 0 <= i < |s| && i != e ==> s[i] == v
    ensures multiset(s)[v] >= |s| - 1 && (e < 0 || e >= |s| ==> multiset(s)[v] == |s|)
  {
    if s != [] {
      var n := |s| - 1;
      assert s == s[..n] + [s[n]];
      CountEqual(s[..n], v, e);
    }
  }

  lemma MostAreTen(g: seq<real>, e: int)
    requires |g| == 12 && forall i :: 0 <= i < |g| && i != e ==> g[i] == 10.0
    ensures Median(g) == 10.0
  {
    CountEqual(g, 10.0, e);
    MajorityIsMedian(g, 10.0);
  }

  lemma GapsOfTen(lost: nat, tp: seq<nat>)
    requires Loss(lost) && |tp| == 13 && forall j :: 0 <= j < 13 ==> tp[j] == Index(lost, 10 * (j + 1))
    ensures MedianGap(tp) == 10
  {
    var g, e := Gaps(tp), lost / 10 - 1;
    forall i | 0 <= i < |g| && i != e ensures g[i] == 10.0 { GapIsTen(lost, tp, i); }
    hide Median, Index, Loss;
    MostAreTen(g, e);
    assert (10.0).Floor == 10;
  }

  lemma WindowGaps(lost: nat)
    requires Loss(lost)
    ensures |TurningPointsOf(Window(lost))| == 13 && MedianGap(TurningPointsOf(Window(lost))) == 10
  {
    WindowTurns(lost);
    hide TurningPointsOf, Window, MedianGap, Index, Loss;
    GapsOfTen(lost, TurningPointsOf(Window(lost)));
  }

  lemma GapIsTen(lost: nat, tp: seq<nat>, i: nat)
    requires Loss(lost) && |tp| == 13 && i < 12 && i != lost / 10 - 1
    requires forall j :: 0 <= j < 13 ==> tp[j] == Index(lost, 10 * (j + 1))
    ensures Gaps(tp)[i] == 10.0
  {
    var k := i + 1;
    assert tp[i] == Index(lost, 10 * k) && tp[k] == Index(lost, 10 * (k + 1)) && 10 * (k + 1) == 10 * k + 10;
  }

  /** Slope s of the wave, as a line over the window's indices. */
  function LineOf(lost: nat, s: nat): Line {
    var start := Index(lost, 10 * s) as real;
    if s % 2 == 0 then Line(10.0, -10.0 * start) else Line(-10.0, 100.0 + 10.0 * start)
  }

  function Lines(lost: nat): (l: seq<Line>)
    ensures |l| == 14
  {
    seq(14, s requires 0 <= s < 14 => LineOf(lost, s))
  }

  function Corner(j: nat): real { 10.0 * (j + 1) as real }

  function Corners(): (v: seq<real>)
    ensures |v| == 13
  {
    seq(13, j requires 0 <= j < 13 => Corner(j))
  }

  lemma CornersPeriodic()
    ensures Periodic(Corners(), 20.0)
  {
  }

  lemma LinesZigzag(lost: nat)
    ensures Zigzagging(Lines(lost))
  {
    hide Index;
  }

  lemma SampleOnLine(lost: nat, s: nat, i: nat)
    requires Loss(lost) && s < 14 && s != lost / 10 && Index(lost, 10 * s) <= i <= Index(lost, 10 * s + 10)
    ensures i < |Window(lost)| && Window(lost)[i] as real == LineOf(lost, s).At(i as real)
  {
    var p := Phase(lost, i);
    assert p != lost && 10 * s <= p <= 10 * s + 10 && i - Index(lost, 10 * s) == p - 10 * s;
    assert Index(lost, p) == i;
    SampleAt(lost, p);
    OnSlope(p, s);
    hide Window, Wave, Phase, Index;
    assert i as real - Index(lost, 10 * s) as real == (p - 10 * s) as real;
  }

  lemma TrimOf(n: nat, tp: seq<nat>, s: nat, a: nat, b: nat)
    requires |tp| == 13 && s < 14 && n > 0 && 9 <= b - a <= 10
    requires a == (if s == 0 then 0 else tp[s - 1]) && b == (if s == 13 then n - 1 else tp[s])
    ensures Trimmed(n, tp, 10, s) == if b - a == 9 then None else Some((a + 2, b - 2))
  {
  }

  /** Every slope but the faulty one is fitted over its seven inner samples. */
  lemma WindowTrims(lost: nat, s: nat)
    requires Loss(lost) && s < 14
    ensures var x := Window(lost); var tp := TurningPointsOf(x);
            var a, b := Index(lost, 10 * s), Index(lost, 10 * s + 10);
            |tp| == 13 && Trimmed(|x|, tp, MedianGap(tp), s) == if s == lost / 10 then None else Some((a + 2, b - 2))
  {
    hide TurningPointsOf, Window, MedianGap, Loss, Trimmed;
    WindowTurns(lost);
    WindowGaps(lost);
    SlopeSpan(lost, s);
    var tp, k := TurningPointsOf(Window(lost)), s + 1;
    assert 10 * k == 10 * s + 10;
    assert s < 13 ==> tp[s] == Index(lost, 10 * k);
    hide Index;
    IndexStart(lost);
    TrimOf(|Window(lost)|, tp, s, Index(lost, 10 * s), Index(lost, 10 * s + 10));
  }

  lemma IndexStart(lost: nat)
    ensures Index(lost, 0) == 0
  {
  }

  lemma WindowSlope(lost: nat, s: nat)
    requires Loss(lost) && s < 14 && s != lost / 10
    ensures |TurningPointsOf(Window(lost))| == 13
    ensures SlopeOn(Window(lost), TurningPointsOf(Window(lost)), s, Lines(lost)[s])
  {
    WindowTrims(lost, s);
    var x, a, b := Window(lost), Index(lost, 10 * s), Index(lost, 10 * s + 10);
    assert Index(lost, 10 * s + 10) <= Index(lost, LAST) && b - a == 10;
    forall i | a + 2 <= i <= b - 2 ensures x[i] as real == Lines(lost)[s].At(i as real) { SampleOnLine(lost, s, i); }
    hide TurningPointsOf, MedianGap, Trimmed, LineOf;
  }

  /** Neighbouring slopes meet in the wave's corners. */
  lemma LinesMeet(lost: nat, j: nat)
    requires Loss(lost) && j < 13 && j != lost / 10 && j + 1 != lost / 10
    ensures var here := Index(lost, 10 * (j + 1)) as real;
            && LineOf(lost, j).slope != LineOf(lost, j + 1).slope
            && LineOf(lost, j).At(here) == LineOf(lost, j + 1).At(here)
  {
    assert Index(lost, 10 * (j + 1)) == Index(lost, 10 * j) + 10;
    assert (j + 1) % 2 == 0 <==> j % 2 != 0;
  }

  lemma CornerAt(lost: nat, j: nat)
    requires Loss(lost) && j < 13
    ensures Shifted(Corners(), lost / 10, -1.0)[j] == Index(lost, 10 * (j + 1)) as real
  {
    assert j < lost / 10 <==> 10 * (j + 1) <= lost;
  }

  lemma WindowStraight(lost: nat)
    requires Loss(lost)
    ensures var s := lost / 10;
            |TurningPointsOf(Window(lost))| == 13
            && StraightSlopes(Window(lost), TurningPointsOf(Window(lost)), Lines(lost),
                              Shifted(Corners(), s, -1.0), s)
  {
    WindowTurns(lost);
    var s := lost / 10;
    var v := Shifted(Corners(), s, -1.0);
    forall k | 0 <= k <= 13 && k != s
      ensures SlopeOn(Window(lost), TurningPointsOf(Window(lost)), k, Lines(lost)[k])
    {
      WindowSlope(lost, k);
    }
    hide SlopeOn, TurningPointsOf, Window, LineOf, Shifted, Corners, Index, Loss;
    forall j | 0 <= j < 13 && j != s && j + 1 != s
      ensures Lines(lost)[j].slope != Lines(lost)[j + 1].slope
      ensures Lines(lost)[j].At(v[j]) == Lines(lost)[j + 1].At(v[j])
    {
      LinesMeet(lost, j);
      CornerAt(lost, j);
    }
  }

  // ------------------------------------------------------------------------
  // What the evaluator says of them
  // ------------------------------------------------------------------------

  /** A sample lost on any inner slope: the window is refused. */
  lemma InnerLossFails(s: nat)
    requires 3 <= s <= 10
    ensures var r := Evaluation(Window(10 * s + 3)); r.Some? && !GridOk(r.value) && r.value.slip >= 1.0
  {
    var lost := 10 * s + 3;
    assert Loss(lost) && lost / 10 == s;
    WindowTurns(lost);
    WindowStraight(lost);
    CornersPeriodic();
    assert |Window(lost)| == 140;
    hide Window, TurningPointsOf, StraightSlopes, Evaluation, GridOk, Periodic, Corners, Lines;
    FaultyWindowFails(Window(lost), Lines(lost), Corners(), 20.0, s, -1.0);
  }

  lemma OuterReady(s: nat)
    requires s == 1 || s == 2 || s == 11 || s == 12
    ensures var x := Window(10 * s + 3); var tp := TurningPointsOf(x);
            && |x| == 140 && |tp| == 13 && !Overflows(x) && Trimmed(|x|, tp, MedianGap(tp), s).None?
            && StraightSlopes(x, tp, Lines(10 * s + 3), Shifted(Corners(), s, -1.0), s)
  {
    var lost := 10 * s + 3;
    assert Loss(lost) && lost / 10 == s;
    WindowTurns(lost);
    WindowStraight(lost);
    WindowTrims(lost, s);
    assert |Window(lost)| == 140;
    hide Window, TurningPointsOf, StraightSlopes, Corners, Lines, Overflows, MedianGap, Trimmed, Index, Loss;
  }

  /** A sample lost on one of the outer slopes between turning points: the window passes. */
  lemma OuterLossPasses(s: nat)
    requires s == 1 || s == 2 || s == 11 || s == 12
    ensures var r := Evaluation(Window(10 * s + 3)); r.Some? && GridOk(r.value) && r.value.slip == 0.0
  {
    hide Window, TurningPointsOf, StraightSlopes, Evaluation, GridOk, Periodic, Corners, Lines, Overflows, Zigzagging,
      MedianGap, Trimmed, Index, Shifted;
    OuterReady(s);
    CornersPeriodic();
    LinesZigzag(10 * s + 3);
    OuterFaultPasses(Window(10 * s + 3), Lines(10 * s + 3), Corners(), 20.0, s, -1.0);
  }

  lemma WholeStraight()
    ensures |TurningPointsOf(Window(NOTHING))| == 13
    ensures StraightSlopes(Window(NOTHING), TurningPointsOf(Window(NOTHING)), Lines(NOTHING), Corners(), -1)
  {
    var lost := NOTHING;
    WindowTurns(lost);
    forall k | 0 <= k <= 13 ensures SlopeOn(Window(lost), TurningPointsOf(Window(lost)), k, Lines(lost)[k]) {
      WindowSlope(lost, k);
    }
    hide SlopeOn, TurningPointsOf, Window, LineOf;
    forall j | 0 <= j < 13
      ensures Lines(lost)[j].slope != Lines(lost)[j + 1].slope
      ensures Lines(lost)[j].At(Corners()[j]) == Lines(lost)[j + 1].At(Corners()[j])
    {
      LinesMeet(lost, j);
      assert Corners()[j] == Index(lost, 10 * (j + 1)) as real;
    }
  }

  /** Nothing lost: the window passes. */
  lemma WholeWindowPasses()
    ensures var r := Evaluation(Window(NOTHING)); r.Some? && GridOk(r.value) && r.value.slip == 0.0
  {
    WindowTurns(NOTHING);
    WholeStraight();
    CornersPeriodic();
    LinesZigzag(NOTHING);
    assert |Window(NOTHING)| == 141;
    hide Window, TurningPointsOf, StraightSlopes, Evaluation, GridOk, Periodic, Corners, Lines, Overflows, Zigzagging;
    CleanWindowPasses(Window(NOTHING), Lines(NOTHING), Corners(), 20.0);
  }
}
