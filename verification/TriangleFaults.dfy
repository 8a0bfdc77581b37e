/** What the triangle evaluator guarantees: a window of a clean triangle passes,
    and a window with one sample lost or repeated on an inner slope fails,
    whatever the two fits next to the fault came out as. */
module TriangleFaults {
  import opened Common
  import opened Reals
  import opened LineFit
  import opened TurningPoints
  import opened TriEval

  // ------------------------------------------------------------------------
  // Vertices
  // ------------------------------------------------------------------------

  /** An ideal triangle repeats with every second vertex. */
  ghost predicate Periodic(v: seq<real>, T: real) {
    forall j :: 0 <= j < |v| - 2 ==> v[j + 2] - v[j] == T
  }

  /** Slope `s` (between vertices s-1 and s) is `delta` samples too long: the
      vertices after it are shifted, and its own two may be anything or missing. */
  ghost predicate Faulted(v: seq<real>, s: nat, delta: real, pos: seq<Option<real>>) {
    && |pos| == |v|
    && (forall j :: 0 <= j < |v| && j < s - 1 ==> pos[j] == Some(v[j]))
    && (forall j :: s < j < |v| ==> pos[j] == Some(v[j] + delta))
  }

  lemma {:induction false} PeriodsSplit(pos: seq<Option<real>>, lo: nat, mid: nat, hi: nat)
    requires lo <= mid <= hi && hi + 2 <= |pos|
    ensures Periods(pos, lo, hi) == Periods(pos, lo, mid) + Periods(pos, mid, hi)
    decreases mid - lo
  {
    if lo < mid { PeriodsSplit(pos, lo + 1, mid, hi); }
  }

  /** Vertices j and j + k are known and `d` apart. */
  ghost predicate Apart(pos: seq<Option<real>>, j: nat, k: nat, d: real)
    requires j + k < |pos|
  {
    pos[j].Some? && pos[j + k].Some? && pos[j + k].value - pos[j].value == d
  }

  lemma {:induction false} PeriodsExact(pos: seq<Option<real>>, lo: nat, hi: nat, T: real)
    requires lo <= hi && hi + 2 <= |pos|
    requires forall j :: lo <= j < hi ==> Apart(pos, j, 2, T)
    ensures |Periods(pos, lo, hi)| == hi - lo && multiset(Periods(pos, lo, hi))[T] == hi - lo
    decreases hi - lo
  {
    if lo < hi {
      assert Apart(pos, lo, 2, T);
      PeriodsExact(pos, lo + 1, hi, T);
    }
  }

  lemma {:induction false} PeriodsLength(pos: seq<Option<real>>, lo: nat, hi: nat)
    requires lo <= hi && hi + 2 <= |pos|
    ensures |Periods(pos, lo, hi)| <= hi - lo
    decreases hi - lo
  {
    if lo < hi { PeriodsLength(pos, lo + 1, hi); }
  }

  /** With all distances but those of the pairs starting in a..b-1 equal to T,
      and fewer of these than half, the median is T. */
  lemma MedianPeriod(pos: seq<Option<real>>, lo: nat, a: nat, b: nat, hi: nat, T: real)
    requires lo <= a <= b <= hi && hi + 2 <= |pos| && 2 * (b - a) < hi - lo
    requires forall j :: lo <= j < a || b <= j < hi ==> Apart(pos, j, 2, T)
    ensures Periods(pos, lo, hi) != [] && Median(Periods(pos, lo, hi)) == T
  {
    PeriodsSplit(pos, lo, a, hi);
    PeriodsSplit(pos, a, b, hi);
    PeriodsExact(pos, lo, a, T);
    PeriodsExact(pos, b, hi, T);
    PeriodsLength(pos, a, b);
    MajorityIsMedian(Periods(pos, lo, hi), T);
  }

  /** Four of the distances at most touch the fault, and from 13 vertices on
      that is less than half of them: the median period stays exact. */
  lemma MedianSurvivesFault(v: seq<real>, T: real, s: nat, delta: real, pos: seq<Option<real>>)
    requires |v| >= 13 && Periodic(v, T) && 1 <= s < |v| && Faulted(v, s, delta, pos)
    ensures Periods(pos, 1, |v| - 3) != [] && Median(Periods(pos, 1, |v| - 3)) == T
  {
    var hi := |v| - 3;
    var a := if s < 4 then 1 else if s - 3 > hi then hi else s - 3;
    var b := if s + 1 > hi then hi else s + 1;
    MedianPeriod(pos, 1, a, b, hi, T);
  }

  lemma {:induction false} SpanListed(pos: seq<Option<real>>, k: nat, T: real, lo: nat, hi: nat, j: nat)
    requires lo <= j < hi && hi + k <= |pos| && pos[j].Some? && pos[j + k].Some?
    ensures Abs(pos[j + k].value - pos[j].value - (k / 2) as real * T) in Spans(pos, k, T, lo, hi)
    decreases hi - lo
  {
    var here := if pos[lo].Some? && pos[lo + k].Some? then
      [Abs(pos[lo + k].value - pos[lo].value - (k / 2) as real * T)] else [];
    assert Spans(pos, k, T, lo, hi) == here + Spans(pos, k, T, lo + 1, hi);
    if lo < j {
      SpanListed(pos, k, T, lo + 1, hi, j);
    } else {
      assert here[0] in here + Spans(pos, k, T, lo + 1, hi);
    }
  }

  lemma {:induction false} SpansAllZero(pos: seq<Option<real>>, k: nat, T: real, lo: nat, hi: nat)
    requires hi + k <= |pos|
    requires forall j :: lo <= j < hi ==> pos[j].None? || pos[j + k].None? || Apart(pos, j, k, (k / 2) as real * T)
    ensures forall i :: 0 <= i < |Spans(pos, k, T, lo, hi)| ==> Spans(pos, k, T, lo, hi)[i] == 0.0
    decreases hi - lo
  {
    if lo < hi { SpansAllZero(pos, k, T, lo + 1, hi); }
  }

  lemma PeriodsAdd(v: seq<real>, T: real, j: nat)
    requires Periodic(v, T) && j + 4 < |v|
    ensures v[j + 4] - v[j] == 2.0 * T
  {
    assert v[j + 2] - v[j] == T && v[(j + 2) + 2] - v[j + 2] == T;
  }

  /** The slip of a list of vertices whose median period is T. */
  lemma SlipBy(pos: seq<Option<real>>, T: real)
    requires |pos| >= 5
    requires Periods(pos, 1, |pos| - 3) != [] && Median(Periods(pos, 1, |pos| - 3)) == T
    ensures var k := SpanVertices(|pos|); var spans := Spans(pos, k, T, 1, |pos| - 1 - k);
            spans != [] ==> Slip(pos) == SlipResult(MaxReal(spans), k, |spans|, Some(T))
  {
    hide Periods, Median, Spans, MaxReal;
  }

  /** One sample too many or too few on slope s, 3 <= s <= ntp-3: the slip shows all of it. */
  lemma FaultShows(v: seq<real>, T: real, s: nat, delta: real, pos: seq<Option<real>>)
    requires |v| >= 13 && Periodic(v, T) && 3 <= s <= |v| - 3 && Faulted(v, s, delta, pos)
    ensures Slip(pos).n > 0 && Slip(pos).period == Some(T) && Slip(pos).slip >= Abs(delta)
  {
    hide Slip, Median, Periods, Spans;
    MedianSurvivesFault(v, T, s, delta, pos);
    SlipBy(pos, T);
    SpanAcross(v, T, s, delta, pos);
  }

  lemma SpanAcross(v: seq<real>, T: real, s: nat, delta: real, pos: seq<Option<real>>)
    requires |v| >= 13 && Periodic(v, T) && 3 <= s <= |v| - 3 && Faulted(v, s, delta, pos)
    ensures Abs(delta) in Spans(pos, 4, T, 1, |v| - 5)
  {
    hide Spans;
    var j := if s >= 4 then s - 3 else s - 2;
    PeriodsAdd(v, T, j);
    SpanListed(pos, 4, T, 1, |v| - 5, j);
    assert pos[j + 4].value - pos[j].value - 2.0 * T == delta;
  }

  /** No fault, no slip. */
  lemma CleanShowsNothing(v: seq<real>, T: real, pos: seq<Option<real>>)
    requires |v| >= 5 && Periodic(v, T)
    requires |pos| == |v| && forall j :: 0 <= j < |v| ==> pos[j] == Some(v[j])
    ensures Slip(pos).n > 0 && Slip(pos).period == Some(T) && Slip(pos).slip == 0.0
  {
    hide Slip, Median, Periods, Spans;
    var n, k := |v|, SpanVertices(|v|);
    MedianPeriod(pos, 1, 1, 1, n - 3, T);
    SlipBy(pos, T);
    var d := (k / 2) as real * T;
    forall j: nat | j < n - k ensures Apart(pos, j, k, d) {
      if k == 4 {
        PeriodsAdd(v, T, j);
        assert (k / 2) as real == 2.0;
      } else {
        assert (k / 2) as real * T == T;
      }
    }
    assert Apart(pos, 1, k, d);
    SpanListed(pos, k, T, 1, n - 1 - k, 1);
    SpansAllZero(pos, k, T, 1, n - 1 - k);
  }

  /** Where two vertices are missing, the others still keep their distances. */
  lemma OuterSpans(v: seq<real>, T: real, s: nat, delta: real, pos: seq<Option<real>>)
    requires |v| >= 13 && Periodic(v, T) && 1 <= s < |v| && !(3 <= s <= |v| - 3) && |pos| == |v|
    requires forall j :: 0 <= j < |v| ==>
               pos[j] == if j == s - 1 || j == s then None else Some(if j < s then v[j] else v[j] + delta)
    ensures var spans := Spans(pos, 4, T, 1, |v| - 5);
            spans != [] && forall i :: 0 <= i < |spans| ==> spans[i] == 0.0
  {
    hide Spans;
    var n := |v|;
    assert (4 / 2) as real == 2.0;
    forall j | 1 <= j < n - 5 && pos[j].Some? && pos[j + 4].Some? ensures Apart(pos, j, 4, 2.0 * T) {
      PeriodsAdd(v, T, j);
    }
    hide Periodic;
    SpansAllZero(pos, 4, T, 1, n - 5);
    SpanListed(pos, 4, T, 1, n - 5, if s < 3 then 3 else 1);
  }

  /** On the outer slopes the fault can go unseen: with the two vertices next
      to it missing, all the others keep their distances. */
  lemma OuterFaultHides(v: seq<real>, T: real, s: nat, delta: real) returns (pos: seq<Option<real>>)
    requires |v| >= 13 && Periodic(v, T) && 1 <= s < |v| && !(3 <= s <= |v| - 3)
    ensures Faulted(v, s, delta, pos) && Slip(pos).n > 0 && Slip(pos).slip == 0.0
  {
    hide Slip, Median, Periods, Spans;
    pos := seq(|v|, j requires 0 <= j < |v| =>
             if j == s - 1 || j == s then None else Some(if j < s then v[j] else v[j] + delta));
    MedianSurvivesFault(v, T, s, delta, pos);
    OuterSpans(v, T, s, delta, pos);
    hide Periodic;
    SlipBy(pos, T);
  }

  /** Exactly the faults on slopes 3..ntp-3 are certain to be seen. */
  lemma FaultCertainIff(v: seq<real>, T: real, s: nat, delta: real)
    requires |v| >= 13 && Periodic(v, T) && 1 <= s < |v| && Abs(delta) >= 0.5
    ensures (forall pos :: Faulted(v, s, delta, pos) ==> Slip(pos).slip >= 0.5) <==> 3 <= s <= |v| - 3
  {
    if 3 <= s <= |v| - 3 {
      forall pos | Faulted(v, s, delta, pos) ensures Slip(pos).slip >= 0.5 {
        FaultShows(v, T, s, delta, pos);
      }
    } else {
      var pos := OuterFaultHides(v, T, s, delta);
    }
  }

  // ------------------------------------------------------------------------
  // Windows
  // ------------------------------------------------------------------------

  /** Two slopes of different steepness through the point (p, y) give the vertex p. */
  lemma VertexIsIntersection(l1: Line, l2: Line, p: real)
    requires l1.slope != l2.slope && l1.At(p) == l2.At(p)
    ensures Vertex(Some(l1), Some(l2)) == Some(p)
  {
    var d := l1.slope - l2.slope;
    assert l2.offset - l1.offset == d * p;
    QuotientOfProduct(d, p);
  }

  lemma QuotientOfProduct(d: real, p: real)
    requires d != 0.0
    ensures Quotient(d * p, d) == p
  {
  }

  /** The samples the fit of slope `s` uses lie on `l`. */
  ghost predicate SlopeOn(x: seq<int>, tp: seq<nat>, s: nat, l: Line)
    requires |tp| >= 2 && s <= |tp| && Ordered(x, tp)
  {
    var t := Trimmed(|x|, tp, MedianGap(tp), s);
    t.Some? && 0 <= t.value.0 && t.value.1 < |x| && OnLine(x, t.value.0, t.value.1, l)
  }

  /** All slopes but `faulty` are straight, and neighbouring ones meet at the vertices `v`. */
  ghost predicate StraightSlopes(x: seq<int>, tp: seq<nat>, lines: seq<Line>, v: seq<real>, faulty: int)
    requires |tp| >= 2 && Ordered(x, tp)
  {
    && |lines| == |tp| + 1 && |v| == |tp|
    && (forall s :: 0 <= s <= |tp| && s != faulty ==> SlopeOn(x, tp, s, lines[s]))
    && (forall j :: 0 <= j < |tp| && j != faulty && j + 1 != faulty ==>
          lines[j].slope != lines[j + 1].slope && lines[j].At(v[j]) == lines[j + 1].At(v[j]))
  }

  lemma StraightSlopesMeet(x: seq<int>, tp: seq<nat>, lines: seq<Line>, v: seq<real>, faulty: int)
    requires |tp| >= 2 && Ordered(x, tp) && StraightSlopes(x, tp, lines, v, faulty)
    ensures var segs := Segments(x, tp, MedianGap(tp), |tp| + 1);
            && (forall s :: 0 <= s <= |tp| && s != faulty ==> segs[s] == Some(lines[s]))
            && (forall j :: 0 <= j < |tp| && j != faulty && j + 1 != faulty ==> Vertices(segs)[j] == Some(v[j]))
  {
    var med := MedianGap(tp);
    var segs := Segments(x, tp, med, |tp| + 1);
    forall s | 0 <= s <= |tp| && s != faulty ensures segs[s] == Some(lines[s]) {
      assert SlopeOn(x, tp, s, lines[s]);
      TrimmedInside(x, tp, med, s);
      var t := Trimmed(|x|, tp, med, s).value;
      FitIsExact(x, t.0, t.1, lines[s]);
    }
    forall j | 0 <= j < |tp| && j != faulty && j + 1 != faulty ensures Vertices(segs)[j] == Some(v[j]) {
      VertexIsIntersection(lines[j], lines[j + 1], v[j]);
    }
  }

  /** The vertices after a slope that is `delta` samples too long. */
  function Shifted(ideal: seq<real>, s: nat, delta: real): (v: seq<real>)
    ensures |v| == |ideal|
  {
    seq(|ideal|, j requires 0 <= j < |ideal| => if j < s then ideal[j] else ideal[j] + delta)
  }

  lemma EvaluationJudges(x: seq<int>, tp: seq<nat>)
    requires |x| >= 16 && tp == TurningPointsOf(x) && |tp| >= 2
    ensures Evaluation(x) == Some(Judged(x, tp, Overflows(x)))
  {
  }

  lemma JudgedBy(x: seq<int>, tp: seq<nat>, overflow: bool)
    requires x != [] && |tp| >= 2 && Ordered(x, tp)
    ensures var r := Judged(x, tp, overflow); var segs := Segments(x, tp, MedianGap(tp), |tp| + 1);
            var pos := Vertices(segs);
            && r.slip == Slip(pos).slip && r.slipN == Slip(pos).n && r.period == Slip(pos).period
            && r.nUp == |Lengths(pos, segs, |tp|, true)| && r.nDn == |Lengths(pos, segs, |tp|, false)|
            && (StepFaults(x, tp, segs, |tp|) == (0, 0) ==> r.zero == 0 && r.dbl == 0)
            && r.overflow == overflow
  {
    hide Segments, Vertices, Lengths, Slip, StepFaults, Steps, MeanOf, MaxReal, Deviations, MedianGap;
  }

  /** A window of a triangle with slope `s` half a sample off or more, as if it had
      lost or repeated one, fails, whatever the samples on that slope look like. */
  lemma FaultyWindowFails(x: seq<int>, lines: seq<Line>, ideal: seq<real>, T: real, s: nat, delta: real)
    requires |x| >= 16 && |TurningPointsOf(x)| == |ideal| >= 13 && Periodic(ideal, T)
    requires 3 <= s <= |ideal| - 3 && Abs(delta) >= 0.5
    requires StraightSlopes(x, TurningPointsOf(x), lines, Shifted(ideal, s, delta), s)
    ensures Evaluation(x).Some? && !GridOk(Evaluation(x).value) && Evaluation(x).value.slip >= Abs(delta)
    ensures Evaluation(x).value.period == Some(T)
  {
    hide TurningPointsOf, Segments, Slip, Evaluation, Judged, StraightSlopes, Vertices, Overflows, MedianGap,
      Periodic, Faulted, GridOk;
    var tp := TurningPointsOf(x);
    var v := Shifted(ideal, s, delta);
    EvaluationJudges(x, tp);
    JudgedBy(x, tp, Overflows(x));
    StraightSlopesMeet(x, tp, lines, v, s);
    var pos := Vertices(Segments(x, tp, MedianGap(tp), |tp| + 1));
    FaultedBy(ideal, s, delta, pos, v);
    FaultShows(ideal, T, s, delta, pos);
    FailsBySlip(Evaluation(x).value);
  }

  lemma FaultedBy(ideal: seq<real>, s: nat, delta: real, pos: seq<Option<real>>, v: seq<real>)
    requires |v| == |pos| == |ideal| && s < |ideal|
    requires forall j :: 0 <= j < |ideal| ==> v[j] == if j < s then ideal[j] else ideal[j] + delta
    requires forall j :: 0 <= j < |ideal| && j != s && j + 1 != s ==> pos[j] == Some(v[j])
    ensures Faulted(ideal, s, delta, pos)
  {
  }

  lemma FailsBySlip(r: TriResult)
    ensures r.slip >= 0.5 ==> !GridOk(r)
  {
  }

  /** The slopes go up and down in turn. */
  ghost predicate Zigzagging(lines: seq<Line>) {
    && (forall s :: 0 <= s < |lines| ==> lines[s].slope != 0.0)
    && (forall s :: 0 <= s < |lines| - 1 ==> (lines[s].slope > 0.0) != (lines[s + 1].slope > 0.0))
  }

  lemma {:induction false} LengthListed(pos: seq<Option<real>>, segs: seq<Option<Line>>, k: nat, s: nat, up: bool)
    requires 1 <= s < k <= |pos| < |segs| && SlopeLength(pos, segs, s).Some?
    requires (segs[s].value.slope > 0.0) == up
    ensures Lengths(pos, segs, k, up) != []
  {
    if s < k - 1 { LengthListed(pos, segs, k - 1, s, up); }
  }

  lemma StraightStep(x: seq<int>, a: int, b: int, l: Line, i: nat)
    requires 0 <= a <= i < b < |x| && OnLine(x, a, b, l)
    ensures StepAlong(x, i, l.slope) == Abs(l.slope)
  {
    assert l.slope * (i + 1) as real == l.slope * i as real + l.slope by {
      assert (i + 1) as real == i as real + 1.0;
    }
    assert x[i + 1] as real - x[i] as real == l.slope;
  }

  lemma {:induction false} StraightSlopeSteps(x: seq<int>, a: int, b: int, l: Line, lo: nat, hi: nat)
    requires 0 <= a <= lo && hi <= b < |x| && OnLine(x, a, b, l)
    ensures MissingSteps(x, lo, hi, l.slope) == 0 && DoubleSteps(x, lo, hi, l.slope) == 0
    decreases hi - lo
  {
    if lo < hi {
      StraightSlopeSteps(x, a, b, l, lo, hi - 1);
      StraightStep(x, a, b, l, hi - 1);
    }
  }

  lemma StraightSlopePasses(x: seq<int>, tp: seq<nat>, s: nat, l: Line)
    requires |tp| >= 2 && Ordered(x, tp) && 1 <= s < |tp| && SlopeOn(x, tp, s, l)
    ensures CheckHi(tp, s) >= 0 ==>
              && MissingSteps(x, CheckLo(tp, s), CheckHi(tp, s), l.slope) == 0
              && DoubleSteps(x, CheckLo(tp, s), CheckHi(tp, s), l.slope) == 0
  {
    hide MedianGap, OnLine, MissingSteps, DoubleSteps;
    if CheckHi(tp, s) >= 0 {
      var t := Trimmed(|x|, tp, MedianGap(tp), s).value;
      StraightSlopeSteps(x, t.0, t.1, l, CheckLo(tp, s), CheckHi(tp, s));
    }
  }

  lemma {:induction false} NoStepFaults(x: seq<int>, tp: seq<nat>, lines: seq<Line>, segs: seq<Option<Line>>, k: nat)
    requires |tp| >= 2 && Ordered(x, tp) && |lines| == |segs| == |tp| + 1 && k <= |tp|
    requires forall s :: 0 <= s <= |tp| ==>
               segs[s].None? || (segs[s] == Some(lines[s]) && SlopeOn(x, tp, s, lines[s]))
    ensures StepFaults(x, tp, segs, k) == (0, 0)
  {
    hide SlopeOn, MissingSteps, DoubleSteps, CheckLo;
    if k > 1 {
      NoStepFaults(x, tp, lines, segs, k - 1);
      if segs[k - 1].Some? { StraightSlopePasses(x, tp, k - 1, lines[k - 1]); }
    }
  }

  /** Straight slopes around one without a fit: its two vertices are missing, and no step is. */
  lemma UnfittedSlope(x: seq<int>, tp: seq<nat>, lines: seq<Line>, v: seq<real>, s: nat)
    requires |tp| >= 2 && Ordered(x, tp) && 1 <= s < |tp| && StraightSlopes(x, tp, lines, v, s)
    requires Trimmed(|x|, tp, MedianGap(tp), s).None?
    ensures var segs := Segments(x, tp, MedianGap(tp), |tp| + 1);
            && segs[s].None? && (forall k :: 0 <= k <= |tp| && k != s ==> segs[k] == Some(lines[k]))
            && (forall j :: 0 <= j < |tp| ==> Vertices(segs)[j] == if j == s - 1 || j == s then None else Some(v[j]))
            && StepFaults(x, tp, segs, |tp|) == (0, 0)
  {
    hide MedianGap, Trimmed, Fit, SlopeOn, StepFaults;
    StraightSlopesMeet(x, tp, lines, v, s);
    var segs := Segments(x, tp, MedianGap(tp), |tp| + 1);
    assert segs[s] == Segment(x, tp, MedianGap(tp), s);
    NoStepFaults(x, tp, lines, segs, |tp|);
  }

  /** Two neighbouring inner slopes with known vertices: one goes up, one down. */
  lemma {:induction false} BothLengths(pos: seq<Option<real>>, segs: seq<Option<Line>>, lines: seq<Line>)
    requires 13 <= |pos| < |segs| && |lines| == |segs| && Zigzagging(lines)
    requires pos[4].Some? && pos[5].Some? && pos[6].Some? && segs[5] == Some(lines[5]) && segs[6] == Some(lines[6])
    ensures Lengths(pos, segs, |pos|, true) != [] && Lengths(pos, segs, |pos|, false) != []
  {
    hide Lengths;
    var up := if lines[5].slope > 0.0 then 5 else 6;
    LengthListed(pos, segs, |pos|, up, true);
    LengthListed(pos, segs, |pos|, 11 - up, false);
  }

  lemma PassesWithSlip(r: TriResult)
    requires r.slip == 0.0 && r.slipN > 0 && r.nUp > 0 && r.nDn > 0 && r.zero == 0 && r.dbl == 0 && !r.overflow
    ensures GridOk(r)
  {
  }

  /** Samples lost on an outer slope, so that it is too short for a fit: the window passes. */
  lemma OuterFaultPasses(x: seq<int>, lines: seq<Line>, ideal: seq<real>, T: real, s: nat, delta: real)
    requires |x| >= 16 && |TurningPointsOf(x)| == |ideal| >= 13 && !Overflows(x) && Periodic(ideal, T)
    requires 1 <= s < |ideal| && !(3 <= s <= |ideal| - 3)
    requires StraightSlopes(x, TurningPointsOf(x), lines, Shifted(ideal, s, delta), s)
    requires Zigzagging(lines) && Trimmed(|x|, TurningPointsOf(x), MedianGap(TurningPointsOf(x)), s).None?
    ensures Evaluation(x).Some? && GridOk(Evaluation(x).value) && Evaluation(x).value.slip == 0.0
  {
    hide TurningPointsOf, Segments, Slip, Lengths, StepFaults, Overflows, Judged, Evaluation, StraightSlopes, Vertices,
      MedianGap, Trimmed, Fit, Spans, Periods, Median, Zigzagging, GridOk, MaxReal, Periodic, Faulted;
    var tp := TurningPointsOf(x);
    var v := Shifted(ideal, s, delta);
    EvaluationJudges(x, tp);
    JudgedBy(x, tp, Overflows(x));
    UnfittedSlope(x, tp, lines, v, s);
    var segs := Segments(x, tp, MedianGap(tp), |tp| + 1);
    var pos := Vertices(segs);
    FaultedBy(ideal, s, delta, pos, v);
    MedianSurvivesFault(ideal, T, s, delta, pos);
    OuterSpans(ideal, T, s, delta, pos);
    SlipBy(pos, T);
    ZeroSlip(Spans(pos, 4, T, 1, |ideal| - 5));
    LinesCount(x, tp, lines, v, s);
    BothLengths(pos, segs, lines);
    PassesWithSlip(Evaluation(x).value);
  }

  lemma LinesCount(x: seq<int>, tp: seq<nat>, lines: seq<Line>, v: seq<real>, s: nat)
    requires |tp| >= 2 && Ordered(x, tp) && StraightSlopes(x, tp, lines, v, s)
    ensures |lines| == |tp| + 1
  {
  }

  lemma ZeroSlip(spans: seq<real>)
    requires spans != [] && forall i :: 0 <= i < |spans| ==> spans[i] == 0.0
    ensures MaxReal(spans) == 0.0
  {
  }

  /** Straight slopes only: all vertices are the lines', and no step is missing. */
  lemma CleanSlopes(x: seq<int>, tp: seq<nat>, lines: seq<Line>, v: seq<real>)
    requires |tp| >= 2 && Ordered(x, tp) && StraightSlopes(x, tp, lines, v, -1)
    ensures var segs := Segments(x, tp, MedianGap(tp), |tp| + 1);
            && |lines| == |v| + 1 == |tp| + 1 && (forall k :: 0 <= k <= |tp| ==> segs[k] == Some(lines[k]))
            && (forall j :: 0 <= j < |tp| ==> Vertices(segs)[j] == Some(v[j]))
            && StepFaults(x, tp, segs, |tp|) == (0, 0)
  {
    hide MedianGap, Trimmed, Fit, SlopeOn, StepFaults;
    StraightSlopesMeet(x, tp, lines, v, -1);
    NoStepFaults(x, tp, lines, Segments(x, tp, MedianGap(tp), |tp| + 1), |tp|);
  }

  lemma {:induction false} CleanLengths(pos: seq<Option<real>>, segs: seq<Option<Line>>, lines: seq<Line>)
    requires 5 <= |pos| < |segs| == |lines| && Zigzagging(lines)
    requires pos[0].Some? && pos[1].Some? && pos[2].Some? && segs[1] == Some(lines[1]) && segs[2] == Some(lines[2])
    ensures Lengths(pos, segs, |pos|, true) != [] && Lengths(pos, segs, |pos|, false) != []
  {
    hide Lengths;
    var s := if lines[1].slope > 0.0 then 1 else 2;
    LengthListed(pos, segs, |pos|, s, true);
    LengthListed(pos, segs, |pos|, 3 - s, false);
  }

  /** A window of a clean triangle with 5 turning points or more passes. */
  lemma CleanWindowPasses(x: seq<int>, lines: seq<Line>, ideal: seq<real>, T: real)
    requires |x| >= 16 && |TurningPointsOf(x)| == |ideal| >= 5 && !Overflows(x) && Periodic(ideal, T)
    requires StraightSlopes(x, TurningPointsOf(x), lines, ideal, -1) && Zigzagging(lines)
    ensures Evaluation(x).Some? && GridOk(Evaluation(x).value) && Evaluation(x).value.slip == 0.0
  {
    hide TurningPointsOf, Segments, Slip, Lengths, StepFaults, Overflows, Judged, Evaluation, StraightSlopes, Vertices,
      MedianGap, Periodic, Zigzagging, GridOk;
    var tp := TurningPointsOf(x);
    EvaluationJudges(x, tp);
    JudgedBy(x, tp, Overflows(x));
    CleanSlopes(x, tp, lines, ideal);
    var segs := Segments(x, tp, MedianGap(tp), |tp| + 1);
    CleanShowsNothing(ideal, T, Vertices(segs));
    CleanLengths(Vertices(segs), segs, lines);
    PassesWithSlip(Evaluation(x).value);
  }
}
