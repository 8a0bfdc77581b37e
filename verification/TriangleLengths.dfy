/** The lengths the triangle evaluator gives for the two kinds of slopes
    (tools/eval_chain.py): on a clean window they are the triangle's own. */
module TriangleLengths {
  import opened Common
  import opened Reals
  import opened LineFit
  import opened TurningPoints
  import opened TriEval
  import opened TriangleFaults

  predicate AllAre(s: seq<real>, c: real) { forall i :: 0 <= i < |s| ==> s[i] == c }

  lemma {:induction false} SumOfEqual(s: seq<real>, c: real)
    requires AllAre(s, c)
    ensures Sum(s) == |s| as real * c
  {
    if s != [] { SumOfEqual(s[..|s| - 1], c); }
  }

  lemma MeanOfEqual(s: seq<real>, c: real)
    requires AllAre(s, c) && s != []
    ensures MeanOf(s) == c
  {
    SumOfEqual(s, c);
    QuotientOfProduct(|s| as real, c);
  }

  lemma NoDeviation(up: seq<real>, dn: seq<real>, a: real, b: real)
    requires AllAre(up, a) && AllAre(dn, b)
    ensures var d := Deviations(up, a) + Deviations(dn, b); d != [] ==> MaxReal(d) == 0.0
  {
    var d := Deviations(up, a) + Deviations(dn, b);
    assert AllAre(d, 0.0);
    hide Deviations;
  }

  /** Every listed length is that of a slope of its kind. */
  lemma {:induction false} LengthsFrom(pos: seq<Option<real>>, segs: seq<Option<Line>>, k: nat, up: bool, c: real)
    requires k <= |pos| < |segs|
    requires forall s :: 1 <= s < k && SlopeLength(pos, segs, s).Some? && (segs[s].value.slope > 0.0) == up ==>
               SlopeLength(pos, segs, s) == Some(c)
    ensures AllAre(Lengths(pos, segs, k, up), c)
  {
    hide SlopeLength;
    if k > 1 { LengthsFrom(pos, segs, k - 1, up, c); }
  }

  // ------------------------------------------------------------------------
  // A clean window
  // ------------------------------------------------------------------------

  lemma {:induction false} SameParity(v: seq<real>, T: real, s: nat, u: nat)
    requires Periodic(v, T) && 1 <= s <= u < |v| && s % 2 == u % 2
    ensures v[u] - v[u - 1] == v[s] - v[s - 1]
    decreases u - s
  {
    if s < u {
      SameParity(v, T, s, u - 2);
      assert v[(u - 2) + 2] - v[u - 2] == T && v[(u - 3) + 2] - v[u - 3] == T;
    }
  }

  lemma {:induction false} SameKind(lines: seq<Line>, s: nat, u: nat)
    requires Zigzagging(lines) && s <= u < |lines|
    ensures (lines[s].slope > 0.0) == (lines[u].slope > 0.0) <==> s % 2 == u % 2
    decreases u - s
  {
    if s < u { SameKind(lines, s, u - 1); }
  }

  /** The largest deviation from the mean of its kind. */
  function Deviation(up: seq<real>, dn: seq<real>): real {
    var d := Deviations(up, MeanOf(up)) + Deviations(dn, MeanOf(dn));
    if d == [] then 0.0 else MaxReal(d)
  }

  lemma JudgedLengths(x: seq<int>, tp: seq<nat>, overflow: bool)
    requires x != [] && |tp| >= 2 && Ordered(x, tp)
    ensures var r, segs := Judged(x, tp, overflow), Segments(x, tp, MedianGap(tp), |tp| + 1);
            var up, dn := Lengths(Vertices(segs), segs, |tp|, true), Lengths(Vertices(segs), segs, |tp|, false);
            r.lUp == MeanOf(up) && r.lDn == MeanOf(dn) && r.dev == Deviation(up, dn)
  {
    hide Segments, Vertices, Lengths, Slip, StepFaults, Steps, MeanOf, MaxReal, Deviations, MedianGap;
  }

  lemma {:induction false} TwoLengths(lines: seq<Line>, v: seq<real>, T: real, s: nat, u: nat)
    requires Zigzagging(lines) && Periodic(v, T) && |lines| == |v| + 1 && 1 <= s < |v| && 1 <= u < |v|
    requires (lines[s].slope > 0.0) == (lines[u].slope > 0.0)
    ensures v[u] - v[u - 1] == v[s] - v[s - 1]
  {
    hide Zigzagging, Periodic;
    if s <= u {
      SameKind(lines, s, u);
      SameParity(v, T, s, u);
    } else {
      SameKind(lines, u, s);
      SameParity(v, T, u, s);
    }
  }

  /** The slopes of one kind all have the length of slope s. */
  lemma {:induction false} KindLength(pos: seq<Option<real>>, segs: seq<Option<Line>>, lines: seq<Line>, v: seq<real>,
                                      T: real, s: nat)
    requires |segs| == |lines| == |v| + 1 && |pos| == |v| && 1 <= s < |v|
    requires forall u :: 0 <= u < |segs| ==> segs[u] == Some(lines[u])
    requires forall u :: 0 <= u < |v| ==> pos[u] == Some(v[u])
    requires Zigzagging(lines) && Periodic(v, T)
    ensures var l := Lengths(pos, segs, |pos|, lines[s].slope > 0.0); l != [] && AllAre(l, v[s] - v[s - 1])
  {
    hide Zigzagging, Periodic, Lengths;
    var up := lines[s].slope > 0.0;
    forall u | 1 <= u < |pos| && SlopeLength(pos, segs, u).Some? && (segs[u].value.slope > 0.0) == up
      ensures SlopeLength(pos, segs, u) == Some(v[s] - v[s - 1])
    {
      TwoLengths(lines, v, T, s, u);
    }
    LengthsFrom(pos, segs, |pos|, up, v[s] - v[s - 1]);
    LengthListed(pos, segs, |pos|, s, up);
  }

  lemma SlopesKnown(x: seq<int>, tp: seq<nat>, lines: seq<Line>, v: seq<real>)
    requires |tp| >= 2 && Ordered(x, tp) && StraightSlopes(x, tp, lines, v, -1)
    ensures var segs := Segments(x, tp, MedianGap(tp), |tp| + 1);
            && |segs| == |lines| == |v| + 1 && |v| == |tp|
            && (forall u :: 0 <= u < |segs| ==> segs[u] == Some(lines[u]))
            && (forall u :: 0 <= u < |v| ==> Vertices(segs)[u] == Some(v[u]))
  {
    hide SlopeOn, MedianGap;
    StraightSlopesMeet(x, tp, lines, v, -1);
  }

  /** Two kinds of lengths, all equal in each. */
  lemma KindsJudged(up: seq<real>, dn: seq<real>, a: real, b: real)
    requires up != [] && dn != [] && AllAre(up, a) && AllAre(dn, b)
    ensures MeanOf(up) == a && MeanOf(dn) == b && Deviation(up, dn) == 0.0
  {
    hide AllAre, Deviations, MaxReal, MeanOf;
    MeanOfEqual(up, a);
    MeanOfEqual(dn, b);
    NoDeviation(up, dn, a, b);
  }

  lemma Neighbours(lines: seq<Line>, v: seq<real>, T: real, s: nat, u: nat)
    requires Zigzagging(lines) && Periodic(v, T) && |lines| == |v| + 1 && 1 <= s < |v| && 1 <= u < |v|
    requires u == s + 1 || s == u + 1
    ensures (lines[s].slope > 0.0) != (lines[u].slope > 0.0)
    ensures (v[s] - v[s - 1]) + (v[u] - v[u - 1]) == T
  {
    var first := if s < u then s else u;
    assert v[(first - 1) + 2] - v[first - 1] == T;
  }

  /** What the lengths of such slopes come to. */
  lemma {:induction false} KindsMeasured(pos: seq<Option<real>>, segs: seq<Option<Line>>, lines: seq<Line>,
                                         v: seq<real>, T: real, s: nat)
    requires |segs| == |lines| == |v| + 1 && |pos| == |v| >= 3 && 1 <= s < |v|
    requires forall u :: 0 <= u < |segs| ==> segs[u] == Some(lines[u])
    requires forall u :: 0 <= u < |v| ==> pos[u] == Some(v[u])
    requires Zigzagging(lines) && Periodic(v, T)
    ensures var up, dn := Lengths(pos, segs, |pos|, true), Lengths(pos, segs, |pos|, false);
            && MeanOf(if lines[s].slope > 0.0 then up else dn) == v[s] - v[s - 1]
            && MeanOf(up) + MeanOf(dn) == T && Deviation(up, dn) == 0.0
  {
    hide Lengths, MeanOf, Deviation, AllAre, Periodic, Zigzagging;
    var u := if s == 1 then 2 else s - 1;
    KindLength(pos, segs, lines, v, T, s);
    KindLength(pos, segs, lines, v, T, u);
    Neighbours(lines, v, T, s, u);
    var up, dn := Lengths(pos, segs, |pos|, true), Lengths(pos, segs, |pos|, false);
    if lines[s].slope > 0.0 {
      KindsJudged(up, dn, v[s] - v[s - 1], v[u] - v[u - 1]);
    } else {
      KindsJudged(up, dn, v[u] - v[u - 1], v[s] - v[s - 1]);
    }
  }

  /** On a clean window the rising slopes' length is that of every rising slope,
      the falling ones' that of every falling one, and nothing deviates. */
  lemma CleanWindowLengths(x: seq<int>, lines: seq<Line>, v: seq<real>, T: real, s: nat)
    requires |x| >= 16 && |TurningPointsOf(x)| == |v| >= 3 && Periodic(v, T) && Zigzagging(lines)
    requires StraightSlopes(x, TurningPointsOf(x), lines, v, -1) && 1 <= s < |v|
    ensures Evaluation(x).Some?
    ensures var r := Evaluation(x).value;
            && (if lines[s].slope > 0.0 then r.lUp else r.lDn) == v[s] - v[s - 1]
            && r.lUp + r.lDn == T && r.dev == 0.0
  {
    var tp := TurningPointsOf(x);
    hide TurningPointsOf, StraightSlopes, Segments, Vertices, Lengths, MedianGap, Judged, Evaluation, Overflows, MeanOf,
      Deviation, Periodic, Zigzagging;
    EvaluationJudges(x, tp);
    JudgedLengths(x, tp, Overflows(x));
    SlopesKnown(x, tp, lines, v);
    var segs := Segments(x, tp, MedianGap(tp), |tp| + 1);
    KindsMeasured(Vertices(segs), segs, lines, v, T, s);
  }
}
