/** `fit_line` in tools/eval_chain.py: the least-squares line through the
    samples `a..b` of a window, over the reals. */
module LineFit {
  import opened Common
  import opened Reals

  /** y = slope * i + offset, `i` the sample index. */
  datatype Line = Line(slope: real, offset: real) {
    function At(i: real): real { slope * i + offset }
  }

  lemma TimesSign(p: real, q: real)
    ensures (p > 0.0 && q > 0.0) || (p < 0.0 && q < 0.0) ==> Times(p, q) > 0.0
    ensures p == 0.0 || q == 0.0 ==> Times(p, q) == 0.0
  {
  }

  lemma SqPositive(u: real)
    ensures Sq(u) >= 0.0 && (u != 0.0 ==> Sq(u) > 0.0)
  {
    TimesSign(u, u);
  }

  function Mean(a: int, b: int): real { 0.5 * (a + b) as real }

  // The four sums over a..b-1, with u = i - c.
  function SumU(a: int, b: int, c: real): real
    decreases b - a
  {
    if b <= a then 0.0 else SumU(a, b - 1, c) + ((b - 1) as real - c)
  }

  function SumUU(a: int, b: int, c: real): real
    decreases b - a
  {
    if b <= a then 0.0
    else SumUU(a, b - 1, c) + Sq((b - 1) as real - c)
  }

  function SumY(x: seq<int>, a: int, b: int): real
    requires 0 <= a && b <= |x|
    decreases b - a
  {
    if b <= a then 0.0 else SumY(x, a, b - 1) + x[b - 1] as real
  }

  function SumUY(x: seq<int>, a: int, b: int, c: real): real
    requires 0 <= a && b <= |x|
    decreases b - a
  {
    if b <= a then 0.0
    else SumUY(x, a, b - 1, c) + Times((b - 1) as real - c, x[b - 1] as real)
  }

  function FitFromSums(n: real, sx: real, sy: real, sxx: real, sxy: real, c: real): Option<Line>
    requires n != 0.0
  {
    var den := n * sxx - sx * sx;
    if den == 0.0 then None
    else
      var m := Quotient(n * sxy - sx * sy, den);
      Some(Line(m, Quotient(sy - m * sx, n) - m * c))
  }

  /** The fit as a function of the window. */
  function Fit(x: seq<int>, a: int, b: int): Option<Line>
    requires 0 <= a && b < |x|
  {
    if b <= a || b - a < 5 then None
    else
      var c := Mean(a, b);
      FitFromSums((b - a + 1) as real, SumU(a, b + 1, c), SumY(x, a, b + 1), SumUU(a, b + 1, c),
                  SumUY(x, a, b + 1, c), c)
  }

  method FitLine(x: seq<int>, a: int, b: int) returns (line: Option<Line>)
    requires 0 <= a && b < |x|
    ensures line == Fit(x, a, b)
  {
    if b <= a || b - a < 5 { return None; }
    hide Sq, Times, FitFromSums;
    var c := Mean(a, b);
    var n := (b - a + 1) as real;
    var sx, sy, sxx, sxy := 0.0, 0.0, 0.0, 0.0;
    var i := a;
    while i < b + 1
      invariant a <= i <= b + 1
      invariant sx == SumU(a, i, c) && sy == SumY(x, a, i)
      invariant sxx == SumUU(a, i, c) && sxy == SumUY(x, a, i, c)
    {
      var u := i as real - c;
      var y := x[i] as real;
      sx, sy, sxx, sxy := sx + u, sy + y, sxx + Sq(u), sxy + Times(u, y);
      i := i + 1;
    }
    return FitFromSums(n, sx, sy, sxx, sxy, c);
  }

  // ------------------------------------------------------------------------
  // The fit is the best line
  // ------------------------------------------------------------------------

  /** How far the line y = m u + k misses the point (u, y). */
  function Miss(y: real, u: real, m: real, k: real): real { y - m * u - k }

  /** The squared residual of the line y = m u + k over a..b-1. */
  function Residual(x: seq<int>, a: int, b: int, c: real, m: real, k: real): real
    requires 0 <= a && b <= |x|
    decreases b - a
  {
    if b <= a then 0.0
    else
      Residual(x, a, b - 1, c, m, k) + Sq(Miss(x[b - 1] as real, (b - 1) as real - c, m, k))
  }

  function SquaredError(x: seq<int>, a: int, b: int, l: Line): real
    requires 0 <= a && b < |x|
  {
    Residual(x, a, b + 1, 0.0, l.slope, l.offset)
  }

  lemma {:induction false} SumUClosed(a: int, b: int, c: real)
    requires a <= b
    ensures 2.0 * SumU(a, b, c) == (b - a) as real * ((a + b - 1) as real - 2.0 * c)
    decreases b - a
  {
    if a < b {
      SumUClosed(a, b - 1, c);
      var n, t := (b - a) as real, (a + b - 1) as real - 2.0 * c;
      assert (b - 1 - a) as real == n - 1.0 && (a + b - 2) as real - 2.0 * c == t - 1.0;
      assert (n - 1.0) * (t - 1.0) == n * t - n - t + 1.0;
    }
  }

  lemma {:induction false} SumUUPositive(a: int, b: int, c: real)
    requires a < b && a as real != c
    ensures SumUU(a, b, c) > 0.0
    decreases b - a
  {
    SqPositive((b - 1) as real - c);
    if a < b - 1 {
      SumUUPositive(a, b - 1, c);
    }
  }

  /** Around the mean index the first sum vanishes, so the denominator is n times a sum of squares. */
  lemma Centred(a: int, b: int)
    requires b > a
    ensures var c := Mean(a, b); SumU(a, b + 1, c) == 0.0 && SumUU(a, b + 1, c) > 0.0
  {
    var c := Mean(a, b);
    SumUClosed(a, b + 1, c);
    SumUUPositive(a, b + 1, c);
  }

  /** Moving a line by (dm, dk) changes the residual by a quadratic form in dm and dk. */
  lemma {:induction false} ResidualMoves(x: seq<int>, a: int, b: int, c: real, m: real, k: real, dm: real, dk: real)
    requires 0 <= a <= b <= |x|
    ensures Residual(x, a, b, c, m + dm, k + dk) == Residual(x, a, b, c, m, k)
              + Form(SumUU(a, b, c), SumU(a, b, c), SumUY(x, a, b, c), SumY(x, a, b), (b - a) as real, m, k, dm, dk)
    decreases b - a
  {
    hide Form, Sq, Times, Miss;
    if a < b {
      ResidualMoves(x, a, b - 1, c, m, k, dm, dk);
      var u, y := (b - 1) as real - c, x[b - 1] as real;
      SquareMoves(y, u, m, k, dm, dk);
      var n := (b - 1 - a) as real;
      var f0 := Form(SumUU(a, b - 1, c), SumU(a, b - 1, c), SumUY(x, a, b - 1, c), SumY(x, a, b - 1), n, m, k, dm, dk);
      var f := Form(SumUU(a, b, c), SumU(a, b, c), SumUY(x, a, b, c), SumY(x, a, b), n + 1.0, m, k, dm, dk);
      FormAdds(SumUU(a, b - 1, c), SumU(a, b - 1, c), SumUY(x, a, b - 1, c), SumY(x, a, b - 1),
               n, u, y, m, k, dm, dk);
      assert f == f0 + Form(Sq(u), u, Times(u, y), y, 1.0, m, k, dm, dk);
      assert (b - a) as real == n + 1.0;
    } else {
      FormZero(m, k, dm, dk);
    }
  }

  lemma FormZero(m: real, k: real, dm: real, dk: real)
    ensures Form(0.0, 0.0, 0.0, 0.0, 0.0, m, k, dm, dk) == 0.0
  {
  }

  lemma SquareMoves(y: real, u: real, m: real, k: real, dm: real, dk: real)
    ensures Sq(Miss(y, u, m + dm, k + dk)) == Sq(Miss(y, u, m, k)) + Form(Sq(u), u, Times(u, y), y, 1.0, m, k, dm, dk)
  {
    var e := y - m * u - k;
    var d := dm * u + dk;
    assert (m + dm) * u == m * u + dm * u;
    assert (e - d) * (e - d) == e * e - 2.0 * (e * d) + d * d;
    assert e * d == dm * (e * u) + dk * e;
    assert e * u == u * y - m * (u * u) - k * u;
    assert d * d == dm * dm * (u * u) + 2.0 * dm * dk * u + dk * dk;
  }

  function Form(suu: real, su: real, suy: real, sy: real, n: real, m: real, k: real, dm: real, dk: real): real {
    dm * dm * suu + 2.0 * dm * dk * su + n * dk * dk
    - 2.0 * dm * (suy - m * suu - k * su) - 2.0 * dk * (sy - m * su - n * k)
  }

  lemma FormAdds(suu: real, su: real, suy: real, sy: real, n: real, u: real, y: real,
                 m: real, k: real, dm: real, dk: real)
    ensures Form(suu, su, suy, sy, n, m, k, dm, dk) + Form(Sq(u), u, Times(u, y), y, 1.0, m, k, dm, dk)
            == Form(suu + Sq(u), su + u, suy + Times(u, y), sy + y, n + 1.0, m, k, dm, dk)
  {
  }

  // ------------------------------------------------------------------------
  // Main results
  // ------------------------------------------------------------------------

  /** The same line, with the sample index counted from `c`. */
  lemma ResidualShift(x: seq<int>, a: int, b: int, c: real, l: Line)
    requires 0 <= a <= b <= |x|
    ensures Residual(x, a, b, 0.0, l.slope, l.offset) == Residual(x, a, b, c, l.slope, l.At(c))
    decreases b - a
  {
    if a < b {
      ResidualShift(x, a, b - 1, c, l);
      var y, i := x[b - 1] as real, (b - 1) as real;
      assert Miss(y, i - 0.0, l.slope, l.offset) == Miss(y, i - c, l.slope, l.At(c));
    }
  }

  /** With the normal equations met, no other line comes closer. */
  lemma NormalEquations(x: seq<int>, a: int, b: int, c: real, m: real, k: real, dm: real, dk: real)
    requires 0 <= a < b <= |x| && SumU(a, b, c) == 0.0
    requires Times(m, SumUU(a, b, c)) == SumUY(x, a, b, c) && Times((b - a) as real, k) == SumY(x, a, b)
    ensures Residual(x, a, b, c, m + dm, k + dk)
            == Residual(x, a, b, c, m, k) + Times(Sq(dm), SumUU(a, b, c)) + Times((b - a) as real, Sq(dk))
  {
    hide Form, Times, Sq;
    ResidualMoves(x, a, b, c, m, k, dm, dk);
    FormAtOptimum(SumUU(a, b, c), SumUY(x, a, b, c), SumY(x, a, b), (b - a) as real, m, k, dm, dk);
  }

  lemma FormAtOptimum(suu: real, suy: real, sy: real, n: real, m: real, k: real, dm: real, dk: real)
    requires Times(m, suu) == suy && Times(n, k) == sy
    ensures Form(suu, 0.0, suy, sy, n, m, k, dm, dk) == Times(Sq(dm), suu) + Times(n, Sq(dk))
  {
    assert 2.0 * dm * (suy - m * suu - k * 0.0) == 0.0;
    assert 2.0 * dk * (sy - m * 0.0 - n * k) == 0.0;
    assert dm * dm * suu == Sq(dm) * suu;
    assert n * dk * dk == n * Sq(dk);
  }

  /** A line is fitted exactly when there are 6 samples or more, and then it
      is the one line with the least squared error. */
  lemma FitIsOptimal(x: seq<int>, a: int, b: int, other: Line)
    requires 0 <= a && b < |x|
    ensures Fit(x, a, b).Some? <==> b - a >= 5
    ensures var fit := Fit(x, a, b);
            fit.Some? && other != fit.value ==> SquaredError(x, a, b, fit.value) < SquaredError(x, a, b, other)
  {
    hide Times, Sq, FitFromSums, Line.At;
    if b - a >= 5 {
      var c := Mean(a, b);
      Centred(a, b);
      var n, suu := (b - a + 1) as real, SumUU(a, b + 1, c);
      FitSolves(n, SumY(x, a, b + 1), suu, SumUY(x, a, b + 1, c), c);
      var l := Fit(x, a, b).value;
      ResidualShift(x, a, b + 1, c, l);
      ResidualShift(x, a, b + 1, c, other);
      var dm, dk := other.slope - l.slope, other.At(c) - l.At(c);
      NormalEquations(x, a, b + 1, c, l.slope, l.At(c), dm, dk);
      if other != l { PositiveForm(n, suu, dm, dk, other, l, c); }
    }
  }

  lemma FitSolves(n: real, sy: real, sxx: real, sxy: real, c: real)
    requires n > 0.0 && sxx > 0.0
    ensures var fit := FitFromSums(n, 0.0, sy, sxx, sxy, c);
            fit.Some? && Times(fit.value.slope, sxx) == sxy && Times(n, fit.value.At(c)) == sy
  {
    assert n * sxx > 0.0;
    var m := Quotient(n * sxy - 0.0 * sy, n * sxx - 0.0 * 0.0);
    assert m * (n * sxx) == n * sxy;
    assert n * (m * sxx - sxy) == 0.0;
    var q := Quotient(sy - m * 0.0, n);
    assert q * n == sy;
  }

  lemma PositiveForm(n: real, suu: real, dm: real, dk: real, other: Line, l: Line, c: real)
    requires n > 0.0 && suu > 0.0 && other != l
    requires dm == other.slope - l.slope && dk == other.At(c) - l.At(c)
    ensures Times(Sq(dm), suu) + Times(n, Sq(dk)) > 0.0
  {
    SqPositive(dm);
    SqPositive(dk);
    if dm == 0.0 {
      assert dk == other.offset - l.offset;
    }
    TimesSign(Sq(dm), suu);
    TimesSign(n, Sq(dk));
  }

  /** Samples `a..b` of `x` lie on the line `l`. */
  ghost predicate OnLine(x: seq<int>, a: int, b: int, l: Line)
    requires 0 <= a && b < |x|
  {
    forall i :: a <= i <= b ==> x[i] as real == l.At(i as real)
  }

  lemma {:induction false} OnLineHasNoError(x: seq<int>, a: int, b: int, l: Line)
    requires 0 <= a && b <= |x| && forall i :: a <= i < b ==> x[i] as real == l.At(i as real)
    ensures Residual(x, a, b, 0.0, l.slope, l.offset) == 0.0
    decreases b - a
  {
    if a < b {
      OnLineHasNoError(x, a, b - 1, l);
      assert Miss(x[b - 1] as real, (b - 1) as real - 0.0, l.slope, l.offset) == 0.0;
    }
  }

  lemma {:induction false} ResidualNonNegative(x: seq<int>, a: int, b: int, c: real, m: real, k: real)
    requires 0 <= a && b <= |x|
    ensures Residual(x, a, b, c, m, k) >= 0.0
    decreases b - a
  {
    if a < b {
      ResidualNonNegative(x, a, b - 1, c, m, k);
      SqPositive(Miss(x[b - 1] as real, (b - 1) as real - c, m, k));
    }
  }

  /** Collinear samples: the fit is their line. */
  lemma FitIsExact(x: seq<int>, a: int, b: int, l: Line)
    requires 0 <= a && b < |x| && b - a >= 5 && OnLine(x, a, b, l)
    ensures Fit(x, a, b) == Some(l)
  {
    FitIsOptimal(x, a, b, l);
    OnLineHasNoError(x, a, b + 1, l);
    var fit := Fit(x, a, b).value;
    ResidualNonNegative(x, a, b + 1, 0.0, fit.slope, fit.offset);
  }

  /** The samples of y with `h` added to sample p. */
  ghost predicate Bumped(x: seq<int>, y: seq<int>, a: int, b: int, p: int, h: int)
    requires 0 <= a && b <= |x| && b <= |y|
  {
    forall i :: a <= i < b ==> x[i] == y[i] + if i == p then h else 0
  }

  lemma {:induction false} BumpedSums(x: seq<int>, y: seq<int>, a: int, b: int, p: int, h: int)
    requires 0 <= a <= b <= |x| && b <= |y| && Bumped(x, y, a, b, p, h)
    ensures SumY(x, a, b) == SumY(y, a, b) + if a <= p < b then h as real else 0.0
    ensures SumUY(x, a, b, p as real) == SumUY(y, a, b, p as real)
    decreases b - a
  {
    if a < b {
      BumpedSums(x, y, a, b - 1, p, h);
      if b - 1 == p { assert Times((b - 1) as real - p as real, x[p] as real) == 0.0; }
    }
  }

  /** A line with one sample off in its middle: the slope stays, and the fit moves by the sample's share. */
  lemma FitOfBump(x: seq<int>, y: seq<int>, a: int, b: int, p: int, h: int, l: Line)
    requires 0 <= a && b < |x| && b < |y| && b - a >= 5 && a + b == 2 * p && Bumped(x, y, a, b + 1, p, h)
    requires OnLine(y, a, b, l)
    ensures Fit(x, a, b) == Some(Line(l.slope, l.offset + Quotient(h as real, (b - a + 1) as real)))
  {
    hide Sq, Times;
    FitIsExact(y, a, b, l);
    assert Mean(a, b) == p as real;
    Centred(a, b);
    BumpedSums(x, y, a, b + 1, p, h);
    var n, sy, sxx, sxy := (b - a + 1) as real, SumY(y, a, b + 1), SumUU(a, b + 1, p as real),
        SumUY(y, a, b + 1, p as real);
    SumMoved(n, sy, sxx, sxy, p as real, h as real);
  }

  lemma SumMoved(n: real, sy: real, sxx: real, sxy: real, c: real, h: real)
    requires n > 0.0 && sxx > 0.0
    ensures var f, g := FitFromSums(n, 0.0, sy, sxx, sxy, c), FitFromSums(n, 0.0, sy + h, sxx, sxy, c);
            && f.Some? && g.Some? && g.value.slope == f.value.slope
            && g.value.offset == f.value.offset + Quotient(h, n)
  {
    assert n * sxx > 0.0;
    assert 0.0 * sy == 0.0 && 0.0 * (sy + h) == 0.0;
    var m := Quotient(n * sxy - 0.0 * sy, n * sxx - 0.0 * 0.0);
    assert (sy + h) / n == sy / n + h / n;
  }
}
