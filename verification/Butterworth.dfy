/** The bilinear design of the 4th-order Butterworth filters
    (tools/sigproc_design.py), over the reals: W = tan(pi fc) and the analog
    sections' coefficients are parameters. */
module Butterworth {
  import opened ComplexNumbers
  import opened Reals

  datatype Kind = LowPass | HighPass

  datatype Section = Section(g: real, a1: real, a2: real)

  function A0(c: real, w: real): real { 1.0 + c * w + w * w }

  function SectionFor(kind: Kind, w: real, c: real): Section
    requires A0(c, w) != 0.0
  {
    var a1 := Quotient(2.0 * w * w - 2.0, A0(c, w));
    var a2 := Quotient(1.0 - c * w + w * w, A0(c, w));
    Section(if kind == LowPass then (1.0 + a1 + a2) / 4.0 else (1.0 - a1 + a2) / 4.0, a1, a2)
  }

  predicate Positive(cs: seq<real>) { forall i :: 0 <= i < |cs| ==> cs[i] > 0.0 }

  lemma A0Positive(c: real, w: real)
    requires c > 0.0 && w > 0.0
    ensures A0(c, w) > 1.0
  {
    ProductPositive(c, w);
    ProductPositive(w, w);
  }

  lemma ProductPositive(x: real, y: real)
    requires x > 0.0 && y > 0.0
    ensures Times(x, y) > 0.0
  {
  }

  function Sections(kind: Kind, w: real, cs: seq<real>): (s: seq<Section>)
    requires w > 0.0 && Positive(cs)
    ensures |s| == |cs|
  {
    if cs == [] then []
    else
      A0Positive(cs[|cs| - 1], w);
      Sections(kind, w, cs[..|cs| - 1]) + [SectionFor(kind, w, cs[|cs| - 1])]
  }

  method LpHp(kind: Kind, w: real, cs: seq<real>) returns (out: seq<Section>)
    requires w > 0.0 && Positive(cs)
    ensures out == Sections(kind, w, cs)
  {
    hide SectionFor, A0, Quotient;
    out := [];
    assert cs[..0] == [];
    for i := 0 to |cs|
      invariant out == Sections(kind, w, cs[..i])
    {
      var c := cs[i];
      A0Positive(c, w);
      var a0 := A0(c, w);
      var a1 := Quotient(2.0 * w * w - 2.0, a0);
      var a2 := Quotient(1.0 - c * w + w * w, a0);
      var g;
      if kind == LowPass {
        g := (1.0 + a1 + a2) / 4.0;
      } else {
        g := (1.0 - a1 + a2) / 4.0;
      }
      assert Section(g, a1, a2) == SectionFor(kind, w, c) by { SectionForIs(kind, w, c); }
      assert cs[..i + 1][..i] == cs[..i];
      out := out + [Section(g, a1, a2)];
    }
    assert cs[..|cs|] == cs;
  }

  lemma SectionForIs(kind: Kind, w: real, c: real)
    requires A0(c, w) != 0.0
    ensures var a1 := Quotient(2.0 * w * w - 2.0, A0(c, w)); var a2 := Quotient(1.0 - c * w + w * w, A0(c, w));
            SectionFor(kind, w, c) ==
              Section(if kind == LowPass then (1.0 + a1 + a2) / 4.0 else (1.0 - a1 + a2) / 4.0, a1, a2)
  {
    hide Quotient, A0;
  }

  // ------------------------------------------------------------------------
  // The response
  // ------------------------------------------------------------------------

  function B1(kind: Kind): real { if kind == LowPass then 2.0 else -2.0 }

  /** b0 + b1/z + b2/z/z. */
  function Bracket(b0: real, b1: real, b2: real, z: Complex): Complex
    requires NonZero(z)
  {
    Add(Add(Real(b0), Div(Real(b1), z)), Div(Div(Real(b2), z), z))
  }

  predicate Regular(s: Section, z: Complex) { NonZero(z) && NonZero(Bracket(1.0, s.a1, s.a2, z)) }

  function SectionResponse(s: Section, kind: Kind, z: Complex): Complex
    requires Regular(s, z)
  {
    Div(Mul(Real(s.g), Bracket(1.0, B1(kind), 1.0, z)), Bracket(1.0, s.a1, s.a2, z))
  }

  predicate AllRegular(sections: seq<Section>, z: Complex) {
    forall i :: 0 <= i < |sections| ==> Regular(sections[i], z)
  }

  function Cascade(sections: seq<Section>, kind: Kind, z: Complex): Complex
    requires AllRegular(sections, z)
  {
    if sections == [] then Real(1.0)
    else Mul(Cascade(sections[..|sections| - 1], kind, z), SectionResponse(sections[|sections| - 1], kind, z))
  }

  /** The complex response; the source returns its absolute value. */
  method Response(sections: seq<Section>, kind: Kind, z: Complex) returns (h: Complex)
    requires AllRegular(sections, z)
    ensures h == Cascade(sections, kind, z)
  {
    hide SectionResponse, Regular, Mul;
    h := Real(1.0);
    assert sections[..0] == [];
    for i := 0 to |sections|
      invariant h == Cascade(sections[..i], kind, z)
    {
      assert sections[..i + 1][..i] == sections[..i];
      h := Mul(h, SectionResponse(sections[i], kind, z));
    }
    assert sections[..|sections|] == sections;
  }

  // ------------------------------------------------------------------------
  // On the unit circle
  // ------------------------------------------------------------------------

  function P(t: real): Complex { Complex(1.0, -t) }

  function Q(t: real): Complex { Complex(1.0, t) }

  lemma PNonZero(t: real)
    ensures Norm2(P(t)) == Norm2(Q(t)) == 1.0 + t * t && 1.0 + t * t > 0.0
  {
    assert t * t >= 0.0;
  }

  /** z = (1 + jt)/(1 - jt): the unit circle at the angle 2 atan t. */
  function OnCircle(t: real): Complex
    requires NonZero(P(t))
  {
    Div(Q(t), P(t))
  }

  lemma CircleNonZero(t: real)
    ensures NonZero(P(t)) && NonZero(OnCircle(t))
  {
    PNonZero(t);
    NormDiv(Q(t), P(t));
  }

  lemma OverZ(a: Complex, t: real)
    requires NonZero(P(t)) && NonZero(OnCircle(t))
    ensures Mul(Div(a, OnCircle(t)), Q(t)) == Mul(a, P(t))
  {
    hide Div, Mul, P, Q, Norm2;
    var z := OnCircle(t);
    var d := Div(a, z);
    DivBack(Q(t), P(t));
    DivBack(a, z);
    MulAssoc(d, z, P(t));
  }

  lemma TwiceOverZ(a: Complex, t: real)
    requires NonZero(P(t)) && NonZero(OnCircle(t))
    ensures Mul(Div(Div(a, OnCircle(t)), OnCircle(t)), Mul(Q(t), Q(t))) == Mul(a, Mul(P(t), P(t)))
  {
    hide Div, Mul, P, Q, Norm2;
    var z, p, q := OnCircle(t), P(t), Q(t);
    var d := Div(a, z);
    var e := Div(d, z);
    OverZ(a, t);
    OverZ(d, t);
    MulAssoc(e, q, q);
    MulAssoc(d, p, q);
    MulComm(p, q);
    MulAssoc(d, q, p);
    MulAssoc(a, p, p);
  }

  lemma OnceOverZ(a: Complex, t: real)
    requires NonZero(P(t)) && NonZero(OnCircle(t))
    ensures Mul(Div(a, OnCircle(t)), Mul(Q(t), Q(t))) == Mul(a, Mul(P(t), Q(t)))
  {
    hide Div, Mul, P, Q, Norm2;
    OverZ(a, t);
    MulAssoc(Div(a, OnCircle(t)), Q(t), Q(t));
    MulAssoc(a, P(t), Q(t));
  }

  /** The bracket without its fractions. */
  function Cleared(b0: real, b1: real, b2: real, t: real): Complex {
    Complex((b0 + b2) * (1.0 - t * t) + b1 * (1.0 + t * t), 2.0 * t * (b0 - b2))
  }

  lemma BracketCleared(b0: real, b1: real, b2: real, t: real)
    requires NonZero(P(t)) && NonZero(OnCircle(t))
    ensures Mul(Bracket(b0, b1, b2, OnCircle(t)), Mul(Q(t), Q(t))) == Cleared(b0, b1, b2, t)
  {
    hide Div, Norm2, P, Q, Mul, Cleared, OnCircle;
    var z, qq := OnCircle(t), Mul(Q(t), Q(t));
    var v1, v2 := Div(Real(b1), z), Div(Div(Real(b2), z), z);
    AddMul(Add(Real(b0), v1), v2, qq);
    AddMul(Real(b0), v1, qq);
    OnceOverZ(Real(b1), t);
    TwiceOverZ(Real(b2), t);
    ClearedSum(b0, b1, b2, t);
  }

  lemma Squares(t: real)
    ensures Mul(Q(t), Q(t)) == Complex(1.0 - t * t, 2.0 * t)
    ensures Mul(P(t), Q(t)) == Complex(1.0 + t * t, 0.0)
    ensures Mul(P(t), P(t)) == Complex(1.0 - t * t, -2.0 * t)
  {
  }

  lemma ClearedSum(b0: real, b1: real, b2: real, t: real)
    ensures Add(Add(Mul(Real(b0), Mul(Q(t), Q(t))), Mul(Real(b1), Mul(P(t), Q(t)))), Mul(Real(b2), Mul(P(t), P(t))))
            == Cleared(b0, b1, b2, t)
  {
    Squares(t);
    MulReal(b0, Mul(Q(t), Q(t)));
    MulReal(b1, Mul(P(t), Q(t)));
    MulReal(b2, Mul(P(t), P(t)));
    hide Mul, P, Q;
    SumParts(b0, b1, b2, t * t, t);
  }

  lemma SumParts(b0: real, b1: real, b2: real, s: real, t: real)
    ensures b0 * (1.0 - s) + b1 * (1.0 + s) + b2 * (1.0 - s) == (b0 + b2) * (1.0 - s) + b1 * (1.0 + s)
    ensures b0 * (2.0 * t) + b1 * 0.0 + b2 * (-2.0 * t) == 2.0 * t * (b0 - b2)
  {
  }

  /** |1 + jt|^4 times the squared magnitude of a bracket. */
  lemma BracketNorm(b0: real, b1: real, b2: real, t: real)
    requires NonZero(P(t)) && NonZero(OnCircle(t))
    ensures Times(Norm2(Bracket(b0, b1, b2, OnCircle(t))), Sq(1.0 + t * t)) == Norm2(Cleared(b0, b1, b2, t))
  {
    hide Bracket, Mul, Cleared, Q, P, OnCircle, Norm2;
    BracketCleared(b0, b1, b2, t);
    NormMul(Bracket(b0, b1, b2, OnCircle(t)), Mul(Q(t), Q(t)));
    NormMul(Q(t), Q(t));
    PNonZero(t);
  }

  /** The analog section's squared denominator at frequency t, times W^4. */
  function Denominator(w: real, c: real, t: real): real { Damped(c * w, w * w, t) }

  function Damped(cw: real, ww: real, t: real): real { Sq(ww - t * t) + Sq(cw * t) }

  lemma DenominatorPositive(w: real, c: real, t: real)
    requires w > 0.0 && c > 0.0 && t >= 0.0
    ensures Denominator(w, c, t) > 0.0
  {
    if t == 0.0 {
      ProductPositive(w, w);
      SqPositive(w * w);
      assert w * w - t * t == w * w;
    } else {
      ProductPositive(c, w);
      ProductPositive(c * w, t);
      SqPositive(c * w * t);
    }
  }

  lemma SqPositive(x: real)
    requires x > 0.0
    ensures Sq(x) > 0.0
  {
    ProductPositive(x, x);
    assert Sq(x) == Times(x, x);
    hide Sq, Times;
  }

  /** The digital denominator is the analog one, scaled. */
  lemma DigitalDenominator(kind: Kind, w: real, c: real, t: real)
    requires A0(c, w) != 0.0
    ensures var s := SectionFor(kind, w, c);
            Times(Norm2(Cleared(1.0, s.a1, s.a2, t)), Sq(A0(c, w))) == 16.0 * Denominator(w, c, t)
  {
    hide SectionFor, Quotient, A0, Norm2, Cleared, Times, Sq, Damped;
    var a0, s := A0(c, w), SectionFor(kind, w, c);
    SectionParts(kind, w, c);
    A0Parts(c, w);
    DenominatorScaled(s.a1, s.a2, a0, c * w, w * w, t);
  }

  lemma A0Parts(c: real, w: real)
    ensures A0(c, w) == 1.0 + c * w + w * w
  {
  }

  lemma DenominatorScaled(a1: real, a2: real, a0: real, cw: real, ww: real, t: real)
    requires Times(a1, a0) == 2.0 * ww - 2.0 && Times(a2, a0) == 1.0 - cw + ww && a0 == 1.0 + cw + ww
    ensures Times(Norm2(Cleared(1.0, a1, a2, t)), Sq(a0)) == 16.0 * Damped(cw, ww, t)
  {
    var d := Cleared(1.0, a1, a2, t);
    ScaleRe(a1, a2, a0, t * t);
    ScaleIm(a2, a0, t);
    ReIs(ww, t * t);
    hide Norm2, Times, Sq;
    assert 2.0 * t * (a0 - Times(a2, a0)) == 4.0 * (cw * t);
    NormScaled(d, a0, ww - t * t, cw * t);
  }

  lemma SectionParts(kind: Kind, w: real, c: real)
    requires A0(c, w) != 0.0
    ensures var s := SectionFor(kind, w, c); var a0 := A0(c, w);
            Times(s.a1, a0) == 2.0 * w * w - 2.0 && Times(s.a2, a0) == 1.0 - c * w + w * w
  {
    var a0 := A0(c, w);
    var x, y := 2.0 * w * w - 2.0, 1.0 - c * w + w * w;
    SectionForIs(kind, w, c);
    hide SectionFor, Quotient, A0;
    QuotientBack(x, a0);
    QuotientBack(y, a0);
    assert SectionFor(kind, w, c).a1 == Quotient(x, a0) && SectionFor(kind, w, c).a2 == Quotient(y, a0);
  }

  lemma ScaleRe(a1: real, a2: real, a0: real, s: real)
    ensures Times((1.0 + a2) * (1.0 - s) + a1 * (1.0 + s), a0)
        == (a0 + Times(a2, a0)) * (1.0 - s) + Times(a1, a0) * (1.0 + s)
  {
    assert ((1.0 + a2) * (1.0 - s)) * a0 == (a0 + a2 * a0) * (1.0 - s);
    assert (a1 * (1.0 + s)) * a0 == (a1 * a0) * (1.0 + s);
  }

  lemma ScaleIm(a2: real, a0: real, t: real)
    ensures Times(2.0 * t * (1.0 - a2), a0) == 2.0 * t * (a0 - Times(a2, a0))
  {
  }

  lemma ReIs(ww: real, tt: real)
    ensures (2.0 + 2.0 * ww) * (1.0 - tt) + (2.0 * ww - 2.0) * (1.0 + tt) == 4.0 * (ww - tt)
  {
  }

  lemma NormScaled(d: Complex, a0: real, x: real, y: real)
    requires Times(d.re, a0) == 4.0 * x && Times(d.im, a0) == 4.0 * y
    ensures Times(Norm2(d), Sq(a0)) == 16.0 * (Sq(x) + Sq(y))
  {
    var re, im := d.re, d.im;
    assert (re * a0) * (re * a0) == 16.0 * (x * x);
    assert (im * a0) * (im * a0) == 16.0 * (y * y);
    assert (re * a0) * (re * a0) == (re * re) * (a0 * a0);
    assert (im * a0) * (im * a0) == (im * im) * (a0 * a0);
  }

  /** What one section contributes: 1 for the numerator's analog counterpart
      at DC (low-pass) or at Nyquist (high-pass). */
  function Numerator(kind: Kind, w: real, t: real): real {
    if kind == LowPass then Sq(w * w) else Sq(t * t)
  }

  lemma GainScaled(kind: Kind, w: real, c: real)
    requires A0(c, w) != 0.0
    ensures Times(SectionFor(kind, w, c).g, A0(c, w)) == if kind == LowPass then w * w else 1.0
  {
    SectionParts(kind, w, c);
    SectionForIs(kind, w, c);
    hide SectionFor, Quotient;
    var s, a0 := SectionFor(kind, w, c), A0(c, w);
    if kind == LowPass {
      assert s.g * a0 == (a0 + s.a1 * a0 + s.a2 * a0) / 4.0;
    } else {
      assert s.g * a0 == (a0 - s.a1 * a0 + s.a2 * a0) / 4.0;
    }
  }

  lemma DigitalNumerator(kind: Kind, t: real)
    ensures Norm2(Cleared(1.0, B1(kind), 1.0, t)) == if kind == LowPass then 16.0 else 16.0 * Sq(t * t)
  {
    var tt := t * t;
    if kind == LowPass {
      assert Cleared(1.0, 2.0, 1.0, t) == Complex(4.0, 0.0);
    } else {
      assert Cleared(1.0, -2.0, 1.0, t) == Complex(-4.0 * tt, 0.0);
      assert (-4.0 * tt) * (-4.0 * tt) == 16.0 * (tt * tt);
    }
  }

  lemma SectionRegular(kind: Kind, w: real, c: real, t: real)
    requires w > 0.0 && c > 0.0 && t >= 0.0
    ensures A0(c, w) != 0.0 && NonZero(P(t)) && NonZero(OnCircle(t)) && Regular(SectionFor(kind, w, c), OnCircle(t))
  {
    A0Positive(c, w);
    CircleNonZero(t);
    var s, z := SectionFor(kind, w, c), OnCircle(t);
    var b, d := Bracket(1.0, s.a1, s.a2, z), Cleared(1.0, s.a1, s.a2, t);
    BracketNorm(1.0, s.a1, s.a2, t);
    DigitalDenominator(kind, w, c, t);
    DenominatorPositive(w, c, t);
    NonZeroFactor(b, Sq(1.0 + t * t), Norm2(d), Sq(A0(c, w)), Denominator(w, c, t));
  }

  lemma NonZeroFactor(b: Complex, f: real, y: real, g: real, e: real)
    requires Times(Norm2(b), f) == y && Times(y, g) == 16.0 * e && e > 0.0
    ensures NonZero(b)
  {
    var x := Norm2(b);
    hide Norm2;
    assert x == 0.0 ==> y == 0.0;
  }

  /** The squared magnitude of one section on the unit circle is the analog
      section's: W^4 (low-pass) or t^4 (high-pass) over the denominator. */
  lemma SectionMagnitude(kind: Kind, w: real, c: real, t: real)
    requires w > 0.0 && c > 0.0 && t >= 0.0
    ensures A0(c, w) != 0.0 && NonZero(P(t)) && NonZero(OnCircle(t)) && Regular(SectionFor(kind, w, c), OnCircle(t))
    ensures Times(Norm2(SectionResponse(SectionFor(kind, w, c), kind, OnCircle(t))), Denominator(w, c, t))
        == Numerator(kind, w, t)
  {
    hide SectionFor, OnCircle, Denominator, Cleared, P, A0, Bracket, Norm2, Times, Sq, Regular, SectionResponse;
    SectionRegular(kind, w, c, t);
    var s, z, a0 := SectionFor(kind, w, c), OnCircle(t), A0(c, w);
    RegularParts(s, z);
    var top, bottom := Bracket(1.0, B1(kind), 1.0, z), Bracket(1.0, s.a1, s.a2, z);
    ResponseNorm(s, kind, z);
    BracketNorm(1.0, B1(kind), 1.0, t);
    BracketNorm(1.0, s.a1, s.a2, t);
    DigitalDenominator(kind, w, c, t);
    GainScaled(kind, w, c);
    Balance(Norm2(SectionResponse(s, kind, z)), Norm2(bottom), s.g, Norm2(top), Sq(1.0 + t * t), a0,
            Denominator(w, c, t), Norm2(Cleared(1.0, B1(kind), 1.0, t)), if kind == LowPass then w * w else 1.0);
    NumeratorIs(kind, w, t);
  }

  lemma RegularParts(s: Section, z: Complex)
    requires Regular(s, z)
    ensures NonZero(z) && NonZero(Bracket(1.0, s.a1, s.a2, z))
  {
  }

  lemma NumeratorIs(kind: Kind, w: real, t: real)
    ensures var k := if kind == LowPass then w * w else 1.0;
            (k * k) * (Norm2(Cleared(1.0, B1(kind), 1.0, t)) / 16.0) == Numerator(kind, w, t)
  {
    DigitalNumerator(kind, t);
    hide Norm2, Cleared;
  }

  lemma ResponseNorm(s: Section, kind: Kind, z: Complex)
    requires Regular(s, z)
    ensures Times(Norm2(SectionResponse(s, kind, z)), Norm2(Bracket(1.0, s.a1, s.a2, z)))
            == Times(Times(s.g, s.g), Norm2(Bracket(1.0, B1(kind), 1.0, z)))
  {
    var top, bottom := Bracket(1.0, B1(kind), 1.0, z), Bracket(1.0, s.a1, s.a2, z);
    NormDiv(Mul(Real(s.g), top), bottom);
    NormMul(Real(s.g), top);
    NormReal(s.g);
    hide Norm2, Mul, Div, Bracket, Times;
  }

  /** h b = g^2 n; b f a0^2 = 16 e; n f = m; g a0 = k: then h e = k^2 m / 16. */
  lemma Balance(h: real, b: real, g: real, n: real, f: real, a0: real, e: real, m: real, k: real)
    requires Times(h, b) == Times(Times(g, g), n) && Times(Times(b, f), Sq(a0)) == 16.0 * e && Times(n, f) == m
        && Times(g, a0) == k
    ensures Times(h, e) == (k * k) * (m / 16.0)
  {
    assert 16.0 * (h * e) == h * ((b * f) * (a0 * a0));
    assert h * ((b * f) * (a0 * a0)) == (h * b) * (f * (a0 * a0));
    assert ((g * g) * n) * (f * (a0 * a0)) == ((g * a0) * (g * a0)) * (n * f);
  }

  // ------------------------------------------------------------------------
  // The cascade
  // ------------------------------------------------------------------------

  function Pow8(x: real): (r: real)
    ensures r >= 0.0
  {
    Sq(Sq(Sq(x)))
  }

  /** 2 sin(pi/8) and 2 sin(3 pi/8): their squares are 2 - r and 2 + r with r*r = 2. */
  predicate ButterworthPair(cs: seq<real>, r: real) {
    && |cs| == 2 && r > 0.0 && r * r == 2.0
    && cs[0] > 0.0 && cs[1] > 0.0 && cs[0] * cs[0] == 2.0 - r && cs[1] * cs[1] == 2.0 + r
  }

  lemma DampedIs(w: real, c: real, t: real, cc: real)
    requires c * c == cc
    ensures Denominator(w, c, t) == Sq(Sq(w) - Sq(t)) + cc * (Sq(w) * Sq(t))
  {
    assert ((c * w) * t) * ((c * w) * t) == (c * c) * ((w * w) * (t * t));
  }

  lemma TwoDenominators(a: real, b: real, r: real)
    requires r * r == 2.0
    ensures (Sq(a - b) + (2.0 - r) * (a * b)) * (Sq(a - b) + (2.0 + r) * (a * b)) == Sq(Sq(a)) + Sq(Sq(b))
  {
    var x, y := a * a + b * b, a * b;
    assert Sq(a - b) + 2.0 * y == x;
    assert (x - r * y) * (x + r * y) == x * x - (r * r) * (y * y);
    assert y * y == (a * a) * (b * b);
    assert x * x == Sq(Sq(a)) + Sq(Sq(b)) + 2.0 * ((a * a) * (b * b));
    assert Sq(a - b) + (2.0 - r) * y == x - r * y && Sq(a - b) + (2.0 + r) * y == x + r * y;
  }

  lemma DenominatorsMultiply(w: real, t: real, cs: seq<real>, r: real)
    requires ButterworthPair(cs, r)
    ensures Times(Denominator(w, cs[0], t), Denominator(w, cs[1], t)) == Pow8(w) + Pow8(t)
  {
    DampedIs(w, cs[0], t, 2.0 - r);
    DampedIs(w, cs[1], t, 2.0 + r);
    TwoDenominators(Sq(w), Sq(t), r);
    hide Sq, Denominator;
  }

  lemma PairSections(kind: Kind, w: real, cs: seq<real>)
    requires w > 0.0 && |cs| == 2 && Positive(cs)
    ensures A0(cs[0], w) != 0.0 && A0(cs[1], w) != 0.0
    ensures Sections(kind, w, cs) == [SectionFor(kind, w, cs[0]), SectionFor(kind, w, cs[1])]
  {
    hide SectionFor, A0;
    A0Positive(cs[0], w);
    A0Positive(cs[1], w);
    assert cs[..1][0] == cs[0] && cs[..1][..0] == [];
    assert Sections(kind, w, cs[..1]) == Sections(kind, w, cs[..1][..0]) + [SectionFor(kind, w, cs[0])];
  }

  lemma CascadeOfTwo(a: Section, b: Section, kind: Kind, z: Complex)
    requires Regular(a, z) && Regular(b, z)
    ensures Norm2(Cascade([a, b], kind, z))
        == Times(Norm2(SectionResponse(a, kind, z)), Norm2(SectionResponse(b, kind, z)))
  {
    hide SectionResponse, Regular;
    var s := [a, b];
    assert s[..1] == [a] && [a][..0] == [];
    assert Cascade([a], kind, z) == Mul(Real(1.0), SectionResponse(a, kind, z));
    var one := SectionResponse(a, kind, z);
    MulReal(1.0, one);
    assert Mul(Real(1.0), one) == one;
    hide Mul, Norm2;
    NormMul(one, SectionResponse(b, kind, z));
  }

  lemma FourProducts(h1: real, d1: real, h2: real, d2: real, n: real)
    requires Times(h1, d1) == n && Times(h2, d2) == n
    ensures Times(Times(h1, h2), Times(d1, d2)) == n * n
  {
    assert (h1 * h2) * (d1 * d2) == (h1 * d1) * (h2 * d2);
  }

  lemma PairRegular(kind: Kind, w: real, cs: seq<real>, r: real, t: real)
    requires w > 0.0 && t >= 0.0 && ButterworthPair(cs, r)
    ensures Positive(cs) && NonZero(P(t)) && AllRegular(Sections(kind, w, cs), OnCircle(t))
  {
    hide Regular, OnCircle, P, SectionFor, Sections;
    assert Positive(cs);
    PairSections(kind, w, cs);
    SectionRegular(kind, w, cs[0], t);
    SectionRegular(kind, w, cs[1], t);
  }

  /** |H|^2 (W^8 + t^8) is W^8 for the low-pass and t^8 for the high-pass, on the whole unit circle. */
  lemma CascadeMagnitude(kind: Kind, w: real, cs: seq<real>, r: real, t: real)
    requires w > 0.0 && t >= 0.0 && ButterworthPair(cs, r)
    ensures Positive(cs) && NonZero(P(t)) && AllRegular(Sections(kind, w, cs), OnCircle(t))
    ensures Times(Norm2(Cascade(Sections(kind, w, cs), kind, OnCircle(t))), Pow8(w) + Pow8(t))
            == if kind == LowPass then Pow8(w) else Pow8(t)
  {
    hide Regular, OnCircle, P, SectionFor, Sections, Norm2, Times, SectionResponse, Denominator, Cascade;
    PairRegular(kind, w, cs, r, t);
    PairSections(kind, w, cs);
    SectionMagnitude(kind, w, cs[0], t);
    SectionMagnitude(kind, w, cs[1], t);
    var z := OnCircle(t);
    var s1, s2 := SectionFor(kind, w, cs[0]), SectionFor(kind, w, cs[1]);
    CascadeOfTwo(s1, s2, kind, z);
    FourProducts(Norm2(SectionResponse(s1, kind, z)), Denominator(w, cs[0], t),
                 Norm2(SectionResponse(s2, kind, z)), Denominator(w, cs[1], t), Numerator(kind, w, t));
    DenominatorsMultiply(w, t, cs, r);
    NumeratorSquared(kind, w, t);
  }

  lemma NumeratorSquared(kind: Kind, w: real, t: real)
    ensures Numerator(kind, w, t) * Numerator(kind, w, t) == if kind == LowPass then Pow8(w) else Pow8(t)
  {
  }

  // ------------------------------------------------------------------------
  // The analog prototype
  // ------------------------------------------------------------------------

  /** The squared magnitude of the analog prototype at the pre-warped frequency t. */
  function AnalogSquared(kind: Kind, w: real, t: real): real
    requires w > 0.0 && t > 0.0
  {
    if kind == LowPass then Quotient(1.0, 1.0 + Pow8(Quotient(t, w))) else Quotient(1.0, 1.0 + Pow8(Quotient(w, t)))
  }

  lemma {:induction false} SqQuotient(x: real, y: real)
    requires y > 0.0
    ensures Times(Sq(Quotient(x, y)), Sq(y)) == Sq(x) && Sq(y) > 0.0
  {
    var q := Quotient(x, y);
    assert (q * q) * (y * y) == (q * y) * (q * y);
    SqPositive(y);
  }

  lemma SqProduct(p: real, q: real, r: real)
    requires Times(p, q) == r
    ensures Times(Sq(p), Sq(q)) == Sq(r)
  {
    assert (p * p) * (q * q) == (p * q) * (p * q);
  }

  lemma Pow8Quotient(x: real, y: real)
    requires y > 0.0
    ensures Times(Pow8(Quotient(x, y)), Pow8(y)) == Pow8(x) && Pow8(y) > 0.0
  {
    hide Sq, Times, Quotient;
    SqQuotient(x, y);
    SqPositive(Sq(y));
    SqPositive(Sq(Sq(y)));
    SqProduct(Sq(Quotient(x, y)), Sq(y), Sq(x));
    SqProduct(Sq(Sq(Quotient(x, y))), Sq(Sq(y)), Sq(Sq(x)));
  }

  lemma OverOnePlus(h: real, q: real, a: real, b: real)
    requires Times(h, a + b) == a && a > 0.0 && Times(q, a) == b && q >= 0.0
    ensures h == Quotient(1.0, 1.0 + q)
  {
    assert a * (h * (1.0 + q)) == h * (a + q * a);
    var k := h * (1.0 + q) - 1.0;
    assert k * a == 0.0;
    if k != 0.0 { NonZeroProduct(k, a); }
    assert h * (1.0 + q) == 1.0;
  }

  /** The digital filter has the analog prototype's magnitude at every frequency. */
  lemma MatchesAnalog(kind: Kind, w: real, cs: seq<real>, r: real, t: real)
    requires w > 0.0 && t > 0.0 && ButterworthPair(cs, r)
    ensures Positive(cs) && NonZero(P(t)) && AllRegular(Sections(kind, w, cs), OnCircle(t))
    ensures Norm2(Cascade(Sections(kind, w, cs), kind, OnCircle(t))) == AnalogSquared(kind, w, t)
  {
    hide Regular, OnCircle, P, Sections, Norm2, Times, Cascade, Pow8, Quotient, Positive, AllRegular;
    CascadeMagnitude(kind, w, cs, r, t);
    var h := Norm2(Cascade(Sections(kind, w, cs), kind, OnCircle(t)));
    if kind == LowPass {
      Pow8Quotient(t, w);
      OverOnePlus(h, Pow8(Quotient(t, w)), Pow8(w), Pow8(t));
    } else {
      Pow8Quotient(w, t);
      OverOnePlus(h, Pow8(Quotient(w, t)), Pow8(t), Pow8(w));
    }
  }

  /** The two filters of one cut-off share the power: what one takes the other passes. */
  lemma PowerComplementary(w: real, cs: seq<real>, r: real, t: real)
    requires w > 0.0 && t >= 0.0 && ButterworthPair(cs, r)
    ensures Positive(cs) && NonZero(P(t))
    ensures AllRegular(Sections(LowPass, w, cs), OnCircle(t)) && AllRegular(Sections(HighPass, w, cs), OnCircle(t))
    ensures Norm2(Cascade(Sections(LowPass, w, cs), LowPass, OnCircle(t)))
            + Norm2(Cascade(Sections(HighPass, w, cs), HighPass, OnCircle(t))) == 1.0
  {
    hide Regular, OnCircle, P, Sections, Norm2, Cascade, Pow8, Positive, AllRegular;
    CascadeMagnitude(LowPass, w, cs, r, t);
    CascadeMagnitude(HighPass, w, cs, r, t);
    Pow8Quotient(1.0, w);
    SumToOne(Norm2(Cascade(Sections(LowPass, w, cs), LowPass, OnCircle(t))),
             Norm2(Cascade(Sections(HighPass, w, cs), HighPass, OnCircle(t))), Pow8(w), Pow8(t));
  }

  lemma SumToOne(x: real, y: real, a: real, b: real)
    requires Times(x, a + b) == a && Times(y, a + b) == b && a > 0.0 && b >= 0.0
    ensures x + y == 1.0
  {
    assert (x + y - 1.0) * (a + b) == 0.0;
    if x + y - 1.0 != 0.0 { NonZeroProduct(x + y - 1.0, a + b); }
  }

  /** Both poles of every section lie inside the unit circle (the stability triangle). */
  lemma SectionStable(kind: Kind, w: real, c: real)
    requires w > 0.0 && c > 0.0
    ensures A0(c, w) != 0.0
    ensures var s := SectionFor(kind, w, c); Abs(s.a2) < 1.0 && Abs(s.a1) < 1.0 + s.a2
  {
    A0Positive(c, w);
    ProductPositive(c, w);
    ProductPositive(w, w);
    SectionParts(kind, w, c);
    var s, a0 := SectionFor(kind, w, c), A0(c, w);
    hide SectionFor;
    Below(s.a2, 1.0, a0);
    Below(-s.a2, 1.0, a0);
    Below(s.a1 - s.a2, 1.0, a0);
    Below(-s.a1 - s.a2, 1.0, a0);
  }

  lemma Below(x: real, y: real, a: real)
    requires a > 0.0
    ensures Times(x, a) < Times(y, a) ==> x < y
  {
    if x >= y { assert (x - y) * a >= 0.0; }
  }
}
