/** The impact counter of the stand-in (tools/gui_app.py, FakeCounter): a damped
    resonator, every fourth magnitude against a threshold, and a relative
    re-arm. Real arithmetic; magnitudes are squared throughout. */
module ImpactCounter {
  import opened Common
  import opened Reals
  import opened ComplexNumbers

  // ------------------------------------------------------------------------
  // The detector
  // ------------------------------------------------------------------------

  /** The squared thresholds: counting, and the absolute re-arm at half of it. */
  datatype Levels = Levels(thr2: real, rearm2: real)

  /** Power-up: armed, nothing counted. `pk2` is the peak since the last count,
      `tr2` the trough since the re-arm. */
  datatype Detector = Detector(count: nat, armed: bool, pk2: real, tr2: real)

  const RESET := Detector(0, true, 0.0, 0.0)

  predicate Counts(d: Detector, m2: real, l: Levels) { d.armed && m2 > l.thr2 && m2 * 0.49 > Lower(d.tr2, m2) }

  predicate Rearms(d: Detector, m2: real, l: Levels) { !d.armed && (m2 < 0.49 * Higher(d.pk2, m2) || m2 < l.rearm2) }

  function Next(d: Detector, m2: real, l: Levels): Detector {
    if d.armed then
      if Counts(d, m2, l) then Detector(d.count + 1, false, m2, Lower(d.tr2, m2)) else d.(tr2 := Lower(d.tr2, m2))
    else if Rearms(d, m2, l) then Detector(d.count, true, Higher(d.pk2, m2), m2)
    else d.(pk2 := Higher(d.pk2, m2))
  }

  function Run(d: Detector, ms: seq<real>, l: Levels): Detector {
    if ms == [] then d else Next(Run(d, ms[..|ms| - 1], l), ms[|ms| - 1], l)
  }

  /** The squared peak to display: the largest magnitude since the last display, scaled. */
  function PeakOf(peak2: real, ms: seq<real>, gain2: real): real {
    if ms == [] then peak2 else Higher(PeakOf(peak2, ms[..|ms| - 1], gain2), Times(ms[|ms| - 1], gain2))
  }

  /** It is the largest of the peak so far and the scaled magnitudes. */
  lemma {:induction false} PeakIsLargest(peak2: real, ms: seq<real>, gain2: real)
    ensures var p := PeakOf(peak2, ms, gain2);
            && p >= peak2 && (forall i :: 0 <= i < |ms| ==> p >= Times(ms[i], gain2))
            && (p == peak2 || exists i :: 0 <= i < |ms| && p == Times(ms[i], gain2))
  {
    hide Times;
    if ms != [] {
      var n, p, q := |ms| - 1, PeakOf(peak2, ms, gain2), PeakOf(peak2, ms[..|ms| - 1], gain2);
      PeakIsLargest(peak2, ms[..n], gain2);
      forall i | 0 <= i < |ms| ensures p >= Times(ms[i], gain2) {
        if i < n { assert ms[..n][i] == ms[i]; }
      }
      if p != peak2 {
        if p == q {
          var i :| 0 <= i < n && q == Times(ms[..n][i], gain2);
          assert ms[i] == ms[..n][i];
        } else {
          assert p == Times(ms[n], gain2);
        }
      }
    }
  }

  // ------------------------------------------------------------------------
  // The class
  // ------------------------------------------------------------------------

  /** The resonator's coefficients for one rate: 2 d cos w, d^2, cos w, sin w. */
  datatype Resonator = Resonator(c: real, dd: real, cw: real, sw: real)

  function Magnitude2(q1: real, q2: real, r: Resonator): real {
    (q1 - q2 * r.cw) * (q1 - q2 * r.cw) + (q2 * r.sw) * (q2 * r.sw)
  }

  /** The next value, from a sample, the one before and the last two values. */
  function Resonate(u: real, xp: real, q1: real, q2: real, r: Resonator): real { (u - xp) + r.c * q1 - r.dd * q2 }

  /** The sample before; the first one stands for its own. */
  function Before(x: seq<real>, n: nat): real
    requires n < |x|
  {
    if n == 0 then x[0] else x[n - 1]
  }

  /** The resonator's two values after the first `n` samples. */
  function Filtered(x: seq<real>, r: Resonator, n: nat): (q: (real, real))
    requires n <= |x|
  {
    if n == 0 then (0.0, 0.0)
    else
      var (q1, q2) := Filtered(x, r, n - 1);
      (Resonate(x[n - 1], Before(x, n - 1), q1, q2, r), q1)
  }

  /** The magnitude at every fourth sample. */
  function Magnitudes(x: seq<real>, r: Resonator, n: nat): seq<real>
    requires n <= |x|
  {
    if n == 0 then []
    else
      var q := Filtered(x, r, n);
      Magnitudes(x, r, n - 1) + if (n - 1) % 4 == 3 then [Magnitude2(q.0, q.1, r)] else []
  }

  lemma FilteredNext(x: seq<real>, r: Resonator, n: nat)
    requires n < |x|
    ensures var q := Filtered(x, r, n);
            Filtered(x, r, n + 1) == (Resonate(x[n], Before(x, n), q.0, q.1, r), q.0)
  {
  }

  lemma NothingFiltered(x: seq<real>, r: Resonator)
    ensures Filtered(x, r, 0) == (0.0, 0.0) && Magnitudes(x, r, 0) == []
  {
  }

  lemma MagnitudesNext(x: seq<real>, r: Resonator, n: nat)
    requires n < |x|
    ensures var q := Filtered(x, r, n + 1);
            Magnitudes(x, r, n + 1) ==
              if n % 4 == 3 then Magnitudes(x, r, n) + [Magnitude2(q.0, q.1, r)] else Magnitudes(x, r, n)
  {
    hide Filtered, Magnitude2;
  }

  lemma RunOn(d: Detector, ms: seq<real>, m2: real, l: Levels)
    ensures Run(d, ms + [m2], l) == Next(Run(d, ms, l), m2, l)
  {
    hide Next;
    assert (ms + [m2])[..|ms|] == ms;
  }

  lemma EmptyRun(d: Detector, l: Levels)
    ensures Run(d, [], l) == d
  {
  }

  lemma PeakOn(peak2: real, ms: seq<real>, m2: real, gain2: real)
    ensures PeakOf(peak2, ms + [m2], gain2) == Higher(PeakOf(peak2, ms, gain2), Times(m2, gain2))
  {
    hide Times;
    assert (ms + [m2])[..|ms|] == ms;
  }

  lemma EmptyPeak(peak2: real, gain2: real)
    ensures PeakOf(peak2, [], gain2) == peak2
  {
  }

  datatype BlockError = EmptyBlock

  class FakeCounter {
    var count: nat
    var seen: nat
    var armed: bool
    var pk2: real
    var tr2: real
    var peak2: real

    function State(): Detector
      reads this
    {
      Detector(count, armed, pk2, tr2)
    }

    constructor ()
      ensures State() == RESET && seen == 0 && peak2 == 0.0
    {
      count, seen, armed, pk2, tr2, peak2 := 0, 0, true, 0.0, 0.0, 0.0;
    }

    /** The rule of the counter for one magnitude. */
    method Evaluate(m2: real, l: Levels)
      modifies this`count, this`armed, this`pk2, this`tr2
      ensures State() == Next(old(State()), m2, l)
    {
      if armed {
        tr2 := Lower(tr2, m2);
        if m2 > l.thr2 && m2 * 0.49 > tr2 {
          count := count + 1;
          armed, pk2 := false, m2;
        }
      } else {
        pk2 := Higher(pk2, m2);
        if m2 < 0.49 * pk2 || m2 < l.rearm2 { armed, tr2 := true, m2; }
      }
    }

    /** One block of samples; the resonator starts again at each block. `gain2` is the squared display scale. */
    method Block(x: seq<real>, r: Resonator, l: Levels, gain2: real) returns (result: Result<(), BlockError>)
      modifies this
      ensures x == [] ==>
                result == Failure(EmptyBlock) && State() == old(State()) && seen == old(seen) && peak2 == old(peak2)
      ensures x != [] ==>
                && result == Success(()) && seen == old(seen) + |x|
                && State() == Run(old(State()), Magnitudes(x, r, |x|), l)
                && peak2 == PeakOf(old(peak2), Magnitudes(x, r, |x|), gain2)
    {
      if x == [] { return Failure(EmptyBlock); }
      hide Magnitude2, Resonate, Run, Next, PeakOf, Times;
      EmptyRun(State(), l);
      EmptyPeak(peak2, gain2);
      NothingFiltered(x, r);
      hide Magnitudes, Filtered;
      var q1, q2, xp := 0.0, 0.0, x[0];
      for i := 0 to |x|
        invariant (q1, q2) == Filtered(x, r, i)
        invariant i < |x| ==> xp == Before(x, i)
        invariant seen == old(seen)
        invariant State() == Run(old(State()), Magnitudes(x, r, i), l)
        invariant peak2 == PeakOf(old(peak2), Magnitudes(x, r, i), gain2)
      {
        var q0 := Resonate(x[i], xp, q1, q2, r);
        xp, q2, q1 := x[i], q1, q0;
        ghost var ms := Magnitudes(x, r, i);
        MagnitudesNext(x, r, i);
        FilteredNext(x, r, i);
        if i % 4 == 3 {
          var m2 := Magnitude2(q1, q2, r);
          PeakOn(old(peak2), ms, m2, gain2);
          peak2 := Higher(peak2, Times(m2, gain2));
          Evaluate(m2, l);
          RunOn(old(State()), ms, m2, l);
        }
      }
      seen := seen + |x|;
      result := Success(());
    }
  }

  // ------------------------------------------------------------------------
  // What the resonator is
  // ------------------------------------------------------------------------

  /** One sample's turn and damping. */
  function Turn(d: real, cw: real, sw: real): Complex { Complex(d * cw, d * sw) }

  /** A damped, turning amplitude, struck by the steps of the signal. */
  function Amplitude(x: seq<real>, d: real, cw: real, sw: real, n: nat): Complex
    requires n <= |x|
  {
    if n == 0 then Real(0.0)
    else Add(Mul(Turn(d, cw, sw), Amplitude(x, d, cw, sw, n - 1)), Real(x[n - 1] - Before(x, n - 1)))
  }

  /** The coefficients of a rate: an angle, and the damping of one sample. */
  predicate Tuned(r: Resonator, d: real) {
    r.c == 2.0 * d * r.cw && r.dd == d * d && r.cw * r.cw + r.sw * r.sw == 1.0
  }

  /** The amplitude that two values of the resonator hold. */
  predicate HeldBy(a: Complex, q1: real, q2: real, r: Resonator, d: real) {
    a.re == q1 - d * r.cw * q2 && a.im == d * r.sw * q2
  }

  lemma StartHeld(r: Resonator, d: real)
    ensures HeldBy(Real(0.0), 0.0, 0.0, r, d)
  {
  }

  lemma TurnHeld(a: Complex, q1: real, q2: real, u: real, xp: real, r: Resonator, d: real)
    requires Tuned(r, d) && HeldBy(a, q1, q2, r, d)
    ensures HeldBy(Add(Mul(Turn(d, r.cw, r.sw), a), Real(u - xp)), Resonate(u, xp, q1, q2, r), q1, r, d)
  {
    Turned(q1, q2, u - xp, d, r.cw, r.sw);
  }

  lemma Turned(q1: real, q2: real, u: real, d: real, cw: real, sw: real)
    requires cw * cw + sw * sw == 1.0
    ensures d * cw * (q1 - d * cw * q2) - d * sw * (d * sw * q2) + u
            == (u + 2.0 * d * cw * q1 - d * d * q2) - d * cw * q1
    ensures d * cw * (d * sw * q2) + d * sw * (q1 - d * cw * q2) == d * sw * q1
  {
    assert d * cw * (d * cw * q2) + d * sw * (d * sw * q2) == d * d * q2 * (cw * cw + sw * sw);
  }

  /** The resonator's two values hold that amplitude throughout. */
  lemma {:induction false} ResonatorTurns(x: seq<real>, r: Resonator, d: real, n: nat)
    requires n <= |x| && Tuned(r, d)
    ensures HeldBy(Amplitude(x, d, r.cw, r.sw, n), Filtered(x, r, n).0, Filtered(x, r, n).1, r, d)
  {
    hide HeldBy, Resonate, Mul, Add, Real, Tuned, Turn;
    if n == 0 {
      StartHeld(r, d);
    } else {
      ResonatorTurns(x, r, d, n - 1);
      var q := Filtered(x, r, n - 1);
      TurnHeld(Amplitude(x, d, r.cw, r.sw, n - 1), q.0, q.1, x[n - 1], Before(x, n - 1), r, d);
    }
  }

  lemma TurnNorm(r: Resonator, d: real)
    requires Tuned(r, d)
    ensures Norm2(Turn(d, r.cw, r.sw)) == r.dd
  {
    assert (d * r.cw) * (d * r.cw) + (d * r.sw) * (d * r.sw) == d * d * (r.cw * r.cw + r.sw * r.sw);
  }

  lemma NothingAdded(a: Complex)
    ensures Add(a, Real(0.0)) == a
  {
  }

  /** While the signal stands still the amplitude rings down: its square falls by d squared a sample. */
  lemma RingsDown(x: seq<real>, r: Resonator, d: real, n: nat)
    requires n < |x| && Tuned(r, d) && x[n] == Before(x, n)
    ensures Norm2(Amplitude(x, d, r.cw, r.sw, n + 1)) == Times(r.dd, Norm2(Amplitude(x, d, r.cw, r.sw, n)))
  {
    TurnNorm(r, d);
    hide Norm2, Mul, Add, Times, Tuned, Turn;
    var a, z := Amplitude(x, d, r.cw, r.sw, n), Turn(d, r.cw, r.sw);
    NothingAdded(Mul(z, a));
    NormMul(z, a);
    assert x[n] - Before(x, n) == 0.0;
  }

  // ------------------------------------------------------------------------
  // What is counted
  // ------------------------------------------------------------------------

  lemma {:induction false} RunConcat(d: Detector, a: seq<real>, b: seq<real>, l: Levels)
    ensures Run(d, a + b, l) == Run(Run(d, a, l), b, l)
  {
    hide Next;
    if b == [] {
      assert a + b == a;
    } else {
      assert (a + b)[..|a + b| - 1] == a + b[..|b| - 1];
      RunConcat(d, a, b[..|b| - 1], l);
    }
  }

  function Joined(parts: seq<seq<real>>): seq<real> {
    if parts == [] then [] else Joined(parts[..|parts| - 1]) + parts[|parts| - 1]
  }

  function RunParts(d: Detector, parts: seq<seq<real>>, l: Levels): Detector {
    if parts == [] then d else Run(RunParts(d, parts[..|parts| - 1], l), parts[|parts| - 1], l)
  }

  /** However a sequence of magnitudes is cut into blocks, the detector ends the same. */
  lemma {:induction false} SplittingDoesNotMatter(d: Detector, parts: seq<seq<real>>, l: Levels)
    ensures RunParts(d, parts, l) == Run(d, Joined(parts), l)
  {
    hide Run, Next;
    if parts == [] {
      EmptyRun(d, l);
    } else {
      SplittingDoesNotMatter(d, parts[..|parts| - 1], l);
      RunConcat(d, Joined(parts[..|parts| - 1]), parts[|parts| - 1], l);
    }
  }

  /** A count is paid for by the step that re-armed, or by starting armed. */
  lemma {:induction false} CountsBudget(d: Detector, ms: seq<real>, l: Levels)
    ensures var e := Run(d, ms, l);
            && d.count <= e.count
            && 2 * (e.count - d.count) <= |ms| + (if d.armed then 1 else 0) - (if e.armed then 1 else 0)
  {
    if ms != [] { CountsBudget(d, ms[..|ms| - 1], l); }
  }

  /** m evaluations count half of m, rounded up, at most. */
  lemma CountsAtMostHalf(d: Detector, ms: seq<real>, l: Levels)
    ensures Run(d, ms, l).count - d.count <= (|ms| + 1) / 2
  {
    CountsBudget(d, ms, l);
  }

  predicate AllAre(ms: seq<real>, m2: real) { forall i :: 0 <= i < |ms| ==> ms[i] == m2 }

  /** A constant magnitude is counted once at most, whatever came before. */
  lemma {:induction false} ConstantCountsOnce(d: Detector, ms: seq<real>, m2: real, l: Levels)
    requires AllAre(ms, m2) && m2 >= 0.0 && l.rearm2 <= l.thr2
    ensures var e := Run(d, ms, l);
            && e.count <= d.count + 1
            && (e.count == d.count + 1 ==> !e.armed && e.pk2 == m2 && m2 > l.thr2)
            && (e.count == d.count && !d.armed && e.armed ==> e.tr2 == m2)
  {
    if ms != [] { ConstantCountsOnce(d, ms[..|ms| - 1], m2, l); }
  }

  /** The smallest and the largest of the magnitudes from position lo to hi. */
  function Lowest(ms: seq<real>, lo: nat, hi: nat): real
    requires lo < hi <= |ms|
  {
    if hi == lo + 1 then ms[lo] else Lower(Lowest(ms, lo, hi - 1), ms[hi - 1])
  }

  function Highest(ms: seq<real>, lo: nat, hi: nat): real
    requires lo < hi <= |ms|
  {
    if hi == lo + 1 then ms[lo] else Higher(Highest(ms, lo, hi - 1), ms[hi - 1])
  }

  /** Whether evaluation i is counted. */
  predicate CountedAt(d: Detector, ms: seq<real>, l: Levels, i: nat)
    requires i < |ms|
  {
    Counts(Run(d, ms[..i], l), ms[i], l)
  }

  lemma StepAt(d: Detector, ms: seq<real>, l: Levels, i: nat)
    requires i < |ms|
    ensures Run(d, ms[..i + 1], l) == Next(Run(d, ms[..i], l), ms[i], l)
  {
    assert ms[..i + 1][..i] == ms[..i];
    hide Next;
  }

  /** Since the count at i the detector is unarmed with the peak so far, or it
      was re-armed at some r and holds the trough since. */
  predicate AfterCount(d: Detector, ms: seq<real>, l: Levels, i: nat, j: nat, r: nat)
    requires i < j <= |ms|
  {
    var e := Run(d, ms[..j], l);
    if e.armed then
      && i < r < j && e.tr2 == Lowest(ms, r, j)
      && (ms[r] < 0.49 * Highest(ms, i, r + 1) || ms[r] < l.rearm2)
    else e.pk2 == Highest(ms, i, j)
  }

  lemma {:induction false} TraceAfterCount(d: Detector, ms: seq<real>, l: Levels, i: nat, j: nat) returns (r: nat)
    requires i < j <= |ms| && CountedAt(d, ms, l, i) && forall k :: i < k < j ==> !CountedAt(d, ms, l, k)
    ensures AfterCount(d, ms, l, i, j, r)
  {
    StepAt(d, ms, l, j - 1);
    r := j - 1;
    if j > i + 1 {
      var s := TraceAfterCount(d, ms, l, i, j - 1);
      assert !CountedAt(d, ms, l, j - 1);
      if Run(d, ms[..j - 1], l).armed { r := s; }
    }
  }

  /** Between two counts the magnitude falls below 0.49 of the peak since the
      first one (or below the re-arm level), and at the second it is up again,
      past the trough since then over 0.49. */
  lemma RearmBetweenCounts(d: Detector, ms: seq<real>, l: Levels, i: nat, j: nat) returns (r: nat)
    requires i < j < |ms| && CountedAt(d, ms, l, i) && CountedAt(d, ms, l, j)
    requires (forall k :: i < k < j ==> !CountedAt(d, ms, l, k)) && l.thr2 >= 0.0
    ensures i < r < j && (ms[r] < 0.49 * Highest(ms, i, r + 1) || ms[r] < l.rearm2)
    ensures ms[j] > l.thr2 && ms[j] * 0.49 > Lowest(ms, r, j)
  {
    r := TraceAfterCount(d, ms, l, i, j);
  }
}
