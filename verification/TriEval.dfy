/** `tri_eval` and `grid_ok` in tools/eval_chain.py: does a window of the
    triangle signal have every sample, each once?

    Slopes are fitted between the turning points, vertices are where neighbouring
    fits intersect, and a lost or repeated sample shows as a distance between
    vertices that is off by one from whole periods. */
module TriEval {
  import opened Common
  import opened Reals
  import opened LineFit
  import opened TurningPoints

  const STEP_CHECK_LSB := 40.0
  const GRID_SLIP_MAX := 0.5

  datatype TriResult = TriResult(
    mn: int, mx: int, tps: nat, overflow: bool,
    nUp: nat, nDn: nat, lUp: real, lDn: real, dev: real,
    step: real, stepChecked: bool, zero: nat, dbl: nat,
    slip: real, slipK: nat, slipN: nat, period: Option<real>, tpPos: seq<Option<real>>)

  predicate GridOk(r: TriResult) {
    r.nUp >= 1 && r.nDn >= 1 && !r.overflow && r.slipN != 0
    && r.slip < GRID_SLIP_MAX && r.zero == 0 && r.dbl == 0
  }

  // ------------------------------------------------------------------------
  // Order statistics and sums
  // ------------------------------------------------------------------------

  function Sum(s: seq<real>): real {
    if s == [] then 0.0 else Sum(s[..|s| - 1]) + s[|s| - 1]
  }

  function MeanOf(s: seq<real>): real {
    if s == [] then 0.0 else Sum(s) / |s| as real
  }

  // ------------------------------------------------------------------------
  // Slopes and vertices
  // ------------------------------------------------------------------------

  predicate Ordered(x: seq<int>, tp: seq<nat>) {
    && (forall j :: 0 <= j < |tp| ==> tp[j] < |x|)
    && forall j :: 1 <= j < |tp| ==> tp[j - 1] < tp[j]
  }

  function Gaps(tp: seq<nat>): seq<real> {
    seq(if tp == [] then 0 else |tp| - 1, i requires 0 <= i < |tp| - 1 => tp[i + 1] as real - tp[i] as real)
  }

  /** The samples the fit of slope `s` uses: the stretch between two turning
      points - the outer stretches cut to the median length - without an
      eighth at either end. None when too few are left. */
  function Trimmed(n: nat, tp: seq<nat>, med: int, s: nat): Option<(int, int)>
    requires tp != [] && s <= |tp|
  {
    var b0 := if s == |tp| then n - 1 else tp[s];
    var a := if s == 0 then (if b0 > med then b0 - med else 0) else tp[s - 1];
    var b := if s == |tp| && b0 - a > med then a + med else b0;
    var m := Max((b - a) / 8, 2);
    if b - a > 2 * m + 5 then Some((a + m, b - m)) else None
  }

  lemma TrimmedInside(x: seq<int>, tp: seq<nat>, med: int, s: nat)
    requires tp != [] && s <= |tp| && Ordered(x, tp)
    ensures var t := Trimmed(|x|, tp, med, s);
            t.Some? ==> 0 <= t.value.0 && t.value.1 < |x| && t.value.1 - t.value.0 >= 5
  {
  }

  function Segment(x: seq<int>, tp: seq<nat>, med: int, s: nat): Option<Line>
    requires tp != [] && s <= |tp| && Ordered(x, tp)
  {
    var t := Trimmed(|x|, tp, med, s);
    if t.Some? then
      TrimmedInside(x, tp, med, s);
      Fit(x, t.value.0, t.value.1)
    else None
  }

  function Segments(x: seq<int>, tp: seq<nat>, med: int, k: nat): (segs: seq<Option<Line>>)
    requires tp != [] && k <= |tp| + 1 && Ordered(x, tp)
    ensures |segs| == k && forall s :: 0 <= s < k ==> segs[s] == Segment(x, tp, med, s)
  {
    seq(k, s requires 0 <= s < k => Segment(x, tp, med, s))
  }

  /** The steepness of the inner slopes among the first `k` segments. */
  function Steps(segs: seq<Option<Line>>, ntp: nat, k: nat): seq<real>
    requires k <= |segs|
  {
    if k == 0 then []
    else if segs[k - 1].Some? && 0 < k - 1 < ntp then Steps(segs, ntp, k - 1) + [Abs(segs[k - 1].value.slope)]
    else Steps(segs, ntp, k - 1)
  }

  method FitSegment(x: seq<int>, tp: seq<nat>, med: int, s: nat) returns (f: Option<Line>)
    requires tp != [] && s <= |tp| && Ordered(x, tp)
    ensures f == Segment(x, tp, med, s)
  {
    hide Fit;
    var n, ntp := |x|, |tp|;
    var a := if s == 0 then 0 else tp[s - 1];
    var b := if s == ntp then n - 1 else tp[s];
    if s == 0 && b > med { a := b - med; }
    if s == ntp && b - a > med { b := a + med; }
    var length := b - a;
    var m := Max(length / 8, 2);
    TrimmedInside(x, tp, med, s);
    f := None;
    if length > 2 * m + 5 { f := FitLine(x, a + m, b - m); }
  }

  method FitSegments(x: seq<int>, tp: seq<nat>, med: int) returns (segs: seq<Option<Line>>, steps: seq<real>)
    requires tp != [] && Ordered(x, tp)
    ensures segs == Segments(x, tp, med, |tp| + 1)
    ensures steps == Steps(segs, |tp|, |tp| + 1)
  {
    var n, ntp := |x|, |tp|;
    segs, steps := [], [];
    var s := 0;
    hide Segment, Fit, Trimmed;
    while s < ntp + 1
      invariant 0 <= s <= ntp + 1
      invariant segs == Segments(x, tp, med, s)
      invariant steps == Steps(segs, ntp, s)
    {
      var f := FitSegment(x, tp, med, s);
      StepsPrefix(segs, [f], ntp, s);
      segs := segs + [f];
      if f.Some? && 0 < s < ntp { steps := steps + [Abs(f.value.slope)]; }
      s := s + 1;
    }
  }

  lemma StepsPrefix(segs: seq<Option<Line>>, more: seq<Option<Line>>, ntp: nat, k: nat)
    requires k <= |segs|
    ensures Steps(segs + more, ntp, k) == Steps(segs, ntp, k)
  {
    if k > 0 { StepsPrefix(segs, more, ntp, k - 1); }
  }

  /** A sample-to-sample step along a slope, positive in the slope's direction. */
  function StepAlong(x: seq<int>, i: nat, slope: real): real
    requires i + 1 < |x|
  {
    (x[i + 1] - x[i]) as real * (if slope >= 0.0 then 1.0 else -1.0)
  }

  function MissingSteps(x: seq<int>, lo: nat, hi: nat, slope: real): nat
    requires hi < |x|
  {
    if hi <= lo then 0
    else MissingSteps(x, lo, hi - 1, slope) + if StepAlong(x, hi - 1, slope) < 0.5 * Abs(slope) then 1 else 0
  }

  function DoubleSteps(x: seq<int>, lo: nat, hi: nat, slope: real): nat
    requires hi < |x|
  {
    if hi <= lo then 0
    else DoubleSteps(x, lo, hi - 1, slope)
         + if StepAlong(x, hi - 1, slope) >= 0.5 * Abs(slope) && StepAlong(x, hi - 1, slope) > 1.5 * Abs(slope)
           then 1 else 0
  }

  /** The samples of slope `s` whose steps are checked. */
  function CheckLo(tp: seq<nat>, s: nat): nat
    requires 1 <= s < |tp| && tp[s - 1] <= tp[s]
  {
    tp[s - 1] + Max((tp[s] - tp[s - 1]) / 8, 2)
  }

  function CheckHi(tp: seq<nat>, s: nat): int
    requires 1 <= s < |tp| && tp[s - 1] <= tp[s]
  {
    tp[s] - Max((tp[s] - tp[s - 1]) / 8, 2)
  }

  function StepFaults(x: seq<int>, tp: seq<nat>, segs: seq<Option<Line>>, k: nat): (nat, nat)
    requires Ordered(x, tp) && |segs| == |tp| + 1 && k <= |tp|
  {
    if k <= 1 then (0, 0)
    else
      var (z, d) := StepFaults(x, tp, segs, k - 1);
      if segs[k - 1].None? || CheckHi(tp, k - 1) < 0 then (z, d)
      else (z + MissingSteps(x, CheckLo(tp, k - 1), CheckHi(tp, k - 1), segs[k - 1].value.slope),
            d + DoubleSteps(x, CheckLo(tp, k - 1), CheckHi(tp, k - 1), segs[k - 1].value.slope))
  }

  method CountStepFaults(x: seq<int>, tp: seq<nat>, segs: seq<Option<Line>>) returns (zero: nat, dbl: nat)
    requires tp != [] && Ordered(x, tp) && |segs| == |tp| + 1
    ensures (zero, dbl) == StepFaults(x, tp, segs, |tp|)
  {
    zero, dbl := 0, 0;
    var s := 1;
    while s < |tp|
      invariant 1 <= s <= |tp|
      invariant (zero, dbl) == StepFaults(x, tp, segs, s)
    {
      if segs[s].Some? {
        var a, b := tp[s - 1], tp[s];
        var m := Max((b - a) / 8, 2);
        var sl := segs[s].value.slope;
        ghost var z0, d0 := zero, dbl;
        var i := a + m;
        while i < b - m
          invariant a + m <= i && (i <= b - m || i == a + m)
          invariant i < |x| ==> zero == z0 + MissingSteps(x, a + m, i, sl) && dbl == d0 + DoubleSteps(x, a + m, i, sl)
          invariant i == a + m ==> zero == z0 && dbl == d0
        {
          var dd := StepAlong(x, i, sl);
          if dd < 0.5 * Abs(sl) { zero := zero + 1; } else if dd > 1.5 * Abs(sl) { dbl := dbl + 1; }
          i := i + 1;
        }
        assert CheckHi(tp, s) == b - m && CheckLo(tp, s) == a + m;
      }
      s := s + 1;
    }
  }

  /** Where two fits intersect. */
  function Vertex(f1: Option<Line>, f2: Option<Line>): Option<real> {
    if f1.Some? && f2.Some? && f1.value.slope != f2.value.slope then
      Some(Quotient(f2.value.offset - f1.value.offset, f1.value.slope - f2.value.slope))
    else None
  }

  function Vertices(segs: seq<Option<Line>>): (pos: seq<Option<real>>)
    requires segs != []
    ensures |pos| == |segs| - 1 && forall j :: 0 <= j < |pos| ==> pos[j] == Vertex(segs[j], segs[j + 1])
  {
    seq(|segs| - 1, j requires 0 <= j < |segs| - 1 => Vertex(segs[j], segs[j + 1]))
  }

  method Intersections(segs: seq<Option<Line>>) returns (pos: seq<Option<real>>)
    requires segs != []
    ensures pos == Vertices(segs)
  {
    pos := [];
    for j := 0 to |segs| - 1
      invariant |pos| == j && forall i :: 0 <= i < j ==> pos[i] == Vertex(segs[i], segs[i + 1])
    {
      var f1, f2 := segs[j], segs[j + 1];
      if f1.Some? && f2.Some? && f1.value.slope != f2.value.slope {
        pos := pos + [Some(Quotient(f2.value.offset - f1.value.offset, f1.value.slope - f2.value.slope))];
      } else {
        pos := pos + [None];
      }
    }
  }

  /** Length of slope `s`, if both its vertices and its fit are known. */
  function SlopeLength(pos: seq<Option<real>>, segs: seq<Option<Line>>, s: nat): Option<real>
    requires 1 <= s < |pos| < |segs|
  {
    if pos[s - 1].None? || pos[s].None? || segs[s].None? then None
    else Some(pos[s].value - pos[s - 1].value)
  }

  function Lengths(pos: seq<Option<real>>, segs: seq<Option<Line>>, k: nat, up: bool): seq<real>
    requires k <= |pos| < |segs|
  {
    if k <= 1 then []
    else
      var l := SlopeLength(pos, segs, k - 1);
      if l.Some? && (segs[k - 1].value.slope > 0.0) == up
      then Lengths(pos, segs, k - 1, up) + [l.value]
      else Lengths(pos, segs, k - 1, up)
  }

  method SlopeLengths(pos: seq<Option<real>>, segs: seq<Option<Line>>) returns (up: seq<real>, dn: seq<real>)
    requires 1 <= |pos| < |segs|
    ensures up == Lengths(pos, segs, |pos|, true) && dn == Lengths(pos, segs, |pos|, false)
  {
    up, dn := [], [];
    var s := 1;
    while s < |pos|
      invariant 1 <= s <= |pos|
      invariant up == Lengths(pos, segs, s, true) && dn == Lengths(pos, segs, s, false)
    {
      if !(pos[s - 1].None? || pos[s].None? || segs[s].None?) {
        var length := pos[s].value - pos[s - 1].value;
        if segs[s].value.slope > 0.0 { up := up + [length]; } else { dn := dn + [length]; }
      }
      s := s + 1;
    }
  }

  function Deviations(s: seq<real>, mean: real): (d: seq<real>)
    ensures |d| == |s|
  {
    seq(|s|, i requires 0 <= i < |s| => Abs(s[i] - mean))
  }

  // ------------------------------------------------------------------------
  // Slip
  // ------------------------------------------------------------------------

  /** The distances pos[j+2] - pos[j] for j in lo..hi-1, where both are known. */
  function Periods(pos: seq<Option<real>>, lo: nat, hi: nat): seq<real>
    requires hi + 2 <= |pos| || hi <= lo
    decreases hi - lo
  {
    if hi <= lo then []
    else if pos[lo].Some? && pos[lo + 2].Some? then
      [pos[lo + 2].value - pos[lo].value] + Periods(pos, lo + 1, hi)
    else Periods(pos, lo + 1, hi)
  }

  function Spans(pos: seq<Option<real>>, k: nat, T: real, lo: nat, hi: nat): seq<real>
    requires hi + k <= |pos| || hi <= lo
    decreases hi - lo
  {
    if hi <= lo then []
    else if pos[lo].Some? && pos[lo + k].Some? then
      [Abs(pos[lo + k].value - pos[lo].value - (k / 2) as real * T)] + Spans(pos, k, T, lo + 1, hi)
    else Spans(pos, k, T, lo + 1, hi)
  }

  datatype SlipResult = SlipResult(slip: real, k: nat, n: nat, period: Option<real>)

  /** Spans of 2 whole periods (1 when there are few vertices), without the outermost vertices. */
  function SpanVertices(ntp: nat): nat { if ntp >= 7 then 4 else 2 }

  function Slip(pos: seq<Option<real>>): SlipResult {
    var ntp := |pos|;
    var k := SpanVertices(ntp);
    var per := Periods(pos, 1, if ntp >= 3 then ntp - 3 else 0);
    if per == [] then SlipResult(99.0, 0, 0, None)
    else
      var T := Median(per);
      var spans := Spans(pos, k, T, 1, if ntp >= k + 1 then ntp - 1 - k else 0);
      if spans == [] then SlipResult(99.0, 0, 0, None)
      else SlipResult(MaxReal(spans), k, |spans|, Some(T))
  }

  // ------------------------------------------------------------------------
  // The whole evaluation
  // ------------------------------------------------------------------------

  function NoResult(x: seq<int>): TriResult
    requires x != []
  {
    TriResult(MinOf(x), MaxOf(x), 0, false, 0, 0, 0.0, 0.0, 0.0, 0.0, false, 0, 0, 99.0, 0, 0, None, [])
  }

  /** The middle one of the distances between neighbouring turning points. */
  function MedianGap(tp: seq<nat>): int
    requires |tp| >= 2
  {
    Median(Gaps(tp)).Floor
  }

  /** The outcome for turning points `tp`. */
  function Judged(x: seq<int>, tp: seq<nat>, overflow: bool): TriResult
    requires x != [] && |tp| >= 2 && Ordered(x, tp)
  {
    var segs := Segments(x, tp, MedianGap(tp), |tp| + 1);
    var step := MeanOf(Steps(segs, |tp|, |tp| + 1));
    var (zero, dbl) := if step >= STEP_CHECK_LSB then StepFaults(x, tp, segs, |tp|) else (0, 0);
    var pos := Vertices(segs);
    var up, dn := Lengths(pos, segs, |tp|, true), Lengths(pos, segs, |tp|, false);
    var devs := Deviations(up, MeanOf(up)) + Deviations(dn, MeanOf(dn));
    var slip := Slip(pos);
    TriResult(MinOf(x), MaxOf(x), |tp|, overflow, |up|, |dn|, MeanOf(up), MeanOf(dn),
              if devs == [] then 0.0 else MaxReal(devs), step, step >= STEP_CHECK_LSB, zero, dbl,
              slip.slip, slip.k, slip.n, slip.period, pos)
  }

  /** The turning points of a window, as the scan with its hysteresis finds them. */
  function TurningPointsOf(x: seq<int>): (tp: seq<nat>)
    requires x != []
    ensures Ordered(x, tp)
  {
    var e := SkipStart(Scan(x, Hysteresis(x), |x|).extrema);
    TurningPointsAlternate(x, Hysteresis(x));
    AlternationMakesExtrema(x, Hysteresis(x), Capped(e));
    Capped(e)
  }

  function Overflows(x: seq<int>): bool
    requires x != []
  {
    |SkipStart(Scan(x, Hysteresis(x), |x|).extrema)| > TP_MAX
  }

  /** None stands for the exception on an empty window. */
  function Evaluation(x: seq<int>): Option<TriResult> {
    if x == [] then None
    else if |x| < 16 then Some(NoResult(x))
    else if |TurningPointsOf(x)| < 2 then
      Some(NoResult(x).(tps := |TurningPointsOf(x)|, overflow := Overflows(x)))
    else Some(Judged(x, TurningPointsOf(x), Overflows(x)))
  }

  lemma HysteresisIs(x: seq<int>)
    requires x != []
    ensures Hysteresis(x) == Max((MaxOf(x) - MinOf(x)) / 4, 8)
  {
  }

  lemma FoundIs(x: seq<int>)
    requires x != []
    ensures var e := SkipStart(Scan(x, Hysteresis(x), |x|).extrema);
            TurningPointsOf(x) == Capped(e) && Overflows(x) == (|e| > TP_MAX)
  {
  }

  /** The fits, vertices, lengths and the slip test of one window. */
  method Judge(x: seq<int>, tp: seq<nat>, overflow: bool) returns (r: TriResult)
    requires x != [] && |tp| >= 2 && Ordered(x, tp)
    ensures r == Judged(x, tp, overflow)
  {
    hide Segments, Steps, StepFaults, Vertices, Lengths, Slip, Scan, Median, Deviations, MeanOf, MinOf, MaxOf, Gaps;
    var med := MedianGap(tp);
    var segs, steps := FitSegments(x, tp, med);
    var step := MeanOf(steps);
    var zero, dbl := 0, 0;
    if step >= STEP_CHECK_LSB { zero, dbl := CountStepFaults(x, tp, segs); }
    var pos := Intersections(segs);
    var up, dn := SlopeLengths(pos, segs);
    var lUp, lDn := MeanOf(up), MeanOf(dn);
    var devs := Deviations(up, lUp) + Deviations(dn, lDn);
    var slip := Slip(pos);
    r := TriResult(MinOf(x), MaxOf(x), |tp|, overflow, |up|, |dn|, lUp, lDn,
                   if devs == [] then 0.0 else MaxReal(devs), step, step >= STEP_CHECK_LSB, zero, dbl,
                   slip.slip, slip.k, slip.n, slip.period, pos);
  }

  method TriEval(x: seq<int>) returns (result: Option<TriResult>)
    ensures result == Evaluation(x)
  {
    hide Judged, Scan, Capped, SkipStart, TurningPointsOf, Overflows, MinOf, MaxOf, Hysteresis;
    if x == [] { return None; }
    var r := NoResult(x);
    if |x| < 16 { return Some(r); }
    var h := Max((r.mx - r.mn) / 4, 8);
    HysteresisIs(x);
    var tp, overflow := FindTurningPoints(x, h);
    FoundIs(x);
    if |tp| < 2 { return Some(r.(tps := |tp|, overflow := overflow)); }
    var judged := Judge(x, tp, overflow);
    result := Some(judged);
  }
}
