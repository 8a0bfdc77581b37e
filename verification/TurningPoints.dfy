/** The zigzag of `tri_eval` in tools/eval_chain.py: the turning points of a
    sampled window, found with a hysteresis band.

    `Scan` is the specification of the loop: it keeps every extremum, where the
    loop caps its list and skips a start-up extremum. Its properties are stated
    through `Run`, a one-way stretch of the window without a reversal over `h`. */
module TurningPoints {

  const TP_MAX := 160

  function Max(a: int, b: int): int { if a >= b then a else b }

  function Min(a: int, b: int): int { if a <= b then a else b }

  function MinOf(x: seq<int>): (m: int)
    requires x != []
    ensures m in x && forall i :: 0 <= i < |x| ==> m <= x[i]
  {
    if |x| == 1 then x[0] else Min(MinOf(x[..|x| - 1]), x[|x| - 1])
  }

  function MaxOf(x: seq<int>): (m: int)
    requires x != []
    ensures m in x && forall i :: 0 <= i < |x| ==> x[i] <= m
  {
    if |x| == 1 then x[0] else Max(MaxOf(x[..|x| - 1]), x[|x| - 1])
  }

  /** A quarter of the peak-to-peak value, at least 8. */
  function Hysteresis(x: seq<int>): int
    requires x != []
  {
    Max((MaxOf(x) - MinOf(x)) / 4, 8)
  }

  datatype Direction = Unknown | Up | Down

  /** The scan after some samples: the extrema before the first reversal, the
      extreme of the run under way, and all the extrema passed so far. */
  datatype Zigzag = Zigzag(dir: Direction, hi: nat, lo: nat, ext: nat, extrema: seq<nat>)

  predicate InWindow(z: Zigzag, n: nat) {
    z.hi < n && z.lo < n && z.ext < n && forall j :: 0 <= j < |z.extrema| ==> z.extrema[j] < n
  }

  function ScanStep(x: seq<int>, h: int, z: Zigzag, i: nat): Zigzag
    requires InWindow(z, i) && i < |x|
  {
    match z.dir
    case Unknown =>
      var hi := if x[i] > x[z.hi] then i else z.hi;
      var lo := if x[i] < x[z.lo] then i else z.lo;
      if x[i] + h < x[hi] then Zigzag(Down, hi, lo, i, z.extrema + [hi])
      else if x[i] > x[lo] + h then Zigzag(Up, hi, lo, i, z.extrema + [lo])
      else z.(hi := hi, lo := lo)
    case Up =>
      if x[i] >= x[z.ext] then z.(ext := i)
      else if x[z.ext] - x[i] > h then z.(dir := Down, ext := i, extrema := z.extrema + [z.ext])
      else z
    case Down =>
      if x[i] <= x[z.ext] then z.(ext := i)
      else if x[i] - x[z.ext] > h then z.(dir := Up, ext := i, extrema := z.extrema + [z.ext])
      else z
  }

  function Scan(x: seq<int>, h: int, n: nat): (z: Zigzag)
    requires 1 <= n <= |x|
    ensures InWindow(z, n)
  {
    if n == 1 then Zigzag(Unknown, 0, 0, 0, [])
    else ScanStep(x, h, Scan(x, h, n - 1), n - 1)
  }

  /** An extremum at index 0..2 is the start of the window, not a turning point. */
  function SkipStart(e: seq<nat>): seq<nat> {
    if e != [] && e[0] <= 2 then e[1..] else e
  }

  function Capped(e: seq<nat>): seq<nat> {
    if |e| <= TP_MAX then e else e[..TP_MAX]
  }

  lemma Recorded(e: seq<nat>, v: nat)
    ensures var tp, tp' := Capped(SkipStart(e)), Capped(SkipStart(e + [v]));
            if e == [] && v <= 2 then tp' == tp
            else tp' == if |tp| < TP_MAX then tp + [v] else tp
    ensures (|SkipStart(e + [v])| > TP_MAX) == (e != [] && |Capped(SkipStart(e))| >= TP_MAX)
  {
  }

  /** The list the loop keeps of the extrema `e`, and whether it dropped any. */
  ghost predicate Records(e: seq<nat>, tp: seq<nat>, overflow: bool) {
    tp == Capped(SkipStart(e)) && overflow == (|SkipStart(e)| > TP_MAX)
  }

  /** One more turning point, or - with the list full - the overflow flag. */
  method Record(tp: seq<nat>, overflow: bool, v: nat, ghost e: seq<nat>) returns (tp': seq<nat>, overflow': bool)
    requires e != [] && Records(e, tp, overflow)
    ensures Records(e + [v], tp', overflow')
  {
    Recorded(e, v);
    tp', overflow' := tp, overflow;
    if |tp| < TP_MAX { tp' := tp + [v]; } else { overflow' := true; }
  }

  /** The first extremum counts as a turning point only past the first 3 samples. */
  method RecordFirst(tp: seq<nat>, v: nat, ghost e: seq<nat>) returns (tp': seq<nat>)
    requires e == [] && Records(e, tp, false)
    ensures Records(e + [v], tp', false)
  {
    Recorded(e, v);
    NothingRecorded();
    tp' := tp;
    if v > 2 && |tp| < TP_MAX { tp' := tp + [v]; }
  }

  lemma NothingRecorded()
    ensures Capped(SkipStart([])) == [] && |SkipStart([])| == 0
  {
  }

  lemma ScanNextStart(x: seq<int>, h: int, n: nat, z: Zigzag)
    requires 1 <= n < |x| && z == Scan(x, h, n) && z.dir == Unknown && z.hi < n && z.lo < n
    ensures var hi := if x[n] > x[z.hi] then n else z.hi; var lo := if x[n] < x[z.lo] then n else z.lo;
            Scan(x, h, n + 1) ==
              if x[n] + h < x[hi] then Zigzag(Down, hi, lo, n, z.extrema + [hi])
              else if x[n] > x[lo] + h then Zigzag(Up, hi, lo, n, z.extrema + [lo])
              else Zigzag(Unknown, hi, lo, z.ext, z.extrema)
  {
  }

  lemma ScanNextRun(x: seq<int>, h: int, n: nat, z: Zigzag)
    requires 1 <= n < |x| && z == Scan(x, h, n) && z.dir != Unknown && z.ext < n
    ensures var up := z.dir == Up; var back := if up then x[z.ext] - x[n] else x[n] - x[z.ext];
            Scan(x, h, n + 1) ==
              if back <= 0 then z.(ext := n)
              else if back > h then Zigzag(if up then Down else Up, z.hi, z.lo, n, z.extrema + [z.ext])
              else z
  {
  }

  method FindTurningPoints(x: seq<int>, h: int) returns (tp: seq<nat>, overflow: bool)
    requires x != []
    ensures var e := SkipStart(Scan(x, h, |x|).extrema);
            tp == Capped(e) && overflow == (|e| > TP_MAX)
  {
    var n := |x|;
    var direction := 0;
    var hiV, loV, extV := x[0], x[0], x[0];
    var hiI, loI, extI := 0, 0, 0;
    tp, overflow := [], false;
    NothingRecorded();
    assert Scan(x, h, 1) == Zigzag(Unknown, 0, 0, 0, []);
    hide Capped, SkipStart, Scan, ScanStep, InWindow, Records;
    ghost var z := Scan(x, h, 1);
    var i := 1;
    while i < n
      invariant 1 <= i <= n
      invariant -1 <= direction <= 1
      invariant z == Scan(x, h, i) && z.hi < i && z.lo < i && z.ext < i
      invariant && z.dir == (if direction == 0 then Unknown else if direction > 0 then Up else Down)
                && (direction == 0 ==> z.extrema == [] && !overflow && hiI == z.hi && loI == z.lo)
                && hiV == x[z.hi] && loV == x[z.lo]
                && extI == z.ext && extV == x[z.ext]
                && (direction != 0 ==> z.extrema != [])
                && Records(z.extrema, tp, overflow)
    {
      var v := x[i];
      ghost var z' := Scan(x, h, i + 1);
      if direction == 0 {
        ScanNextStart(x, h, i, z);
        if v > hiV { hiV, hiI := v, i; }
        if v < loV { loV, loI := v, i; }
        if v + h < hiV {
          tp := RecordFirst(tp, hiI, z.extrema);
          direction, extV, extI := -1, v, i;
        } else if v > loV + h {
          tp := RecordFirst(tp, loI, z.extrema);
          direction, extV, extI := 1, v, i;
        }
      } else if direction > 0 {
        ScanNextRun(x, h, i, z);
        if v >= extV {
          extV, extI := v, i;
        } else if extV - v > h {
          tp, overflow := Record(tp, overflow, extI, z.extrema);
          direction, extV, extI := -1, v, i;
        }
      } else {
        ScanNextRun(x, h, i, z);
        if v <= extV {
          extV, extI := v, i;
        } else if v - extV > h {
          tp, overflow := Record(tp, overflow, extI, z.extrema);
          direction, extV, extI := 1, v, i;
        }
      }
      i, z := i + 1, z';
    }
    RecordsMeans(z.extrema, tp, overflow);
  }

  lemma RecordsMeans(e: seq<nat>, tp: seq<nat>, overflow: bool)
    requires Records(e, tp, overflow)
    ensures tp == Capped(SkipStart(e)) && overflow == (|SkipStart(e)| > TP_MAX)
  {
  }

  // ------------------------------------------------------------------------
  // What a turning point is
  // ------------------------------------------------------------------------

  /** `x` goes from its lowest value at `a` to its highest at `b`, never falling by more than `h` on the way. */
  ghost predicate Rises(x: seq<int>, h: int, a: int, b: int)
    requires 0 <= a <= b < |x|
  {
    && (forall k :: a <= k <= b ==> x[a] <= x[k] <= x[b])
    && (forall k, l :: a <= k < l <= b ==> x[k] - x[l] <= h)
  }

  ghost predicate Falls(x: seq<int>, h: int, a: int, b: int)
    requires 0 <= a <= b < |x|
  {
    && (forall k :: a <= k <= b ==> x[b] <= x[k] <= x[a])
    && (forall k, l :: a <= k < l <= b ==> x[l] - x[k] <= h)
  }

  ghost predicate Run(x: seq<int>, h: int, a: int, b: int, up: bool)
    requires 0 <= a < |x| && 0 <= b < |x|
  {
    && a < b
    && (if up then x[b] - x[a] > h && Rises(x, h, a, b) else x[a] - x[b] > h && Falls(x, h, a, b))
  }

  /** No two of the samples `lo..hi-1` differ by more than `h`. */
  ghost predicate Quiet(x: seq<int>, h: int, lo: int, hi: int)
    requires 0 <= lo <= hi <= |x|
  {
    forall k, l :: lo <= k < hi && lo <= l < hi ==> x[k] - x[l] <= h
  }

  /** Does the run into the `j`-th extremum go up? After the last one, `lastUp` says. */
  ghost predicate InUp(x: seq<int>, e: seq<nat>, lastUp: bool, j: nat)
    requires 1 <= j <= |e| && forall i :: 0 <= i < |e| ==> e[i] < |x|
  {
    if j == |e| then lastUp else x[e[j - 1]] < x[e[j]]
  }

  /** One-way runs lead from each extremum to the next, alternately up and down. */
  ghost predicate Alternates(x: seq<int>, h: int, e: seq<nat>) {
    && (forall j :: 0 <= j < |e| ==> e[j] < |x|)
    && (forall j :: 1 <= j < |e| ==> Run(x, h, e[j - 1], e[j], x[e[j - 1]] < x[e[j]]))
    && (forall j :: 1 <= j < |e| - 1 ==> (x[e[j - 1]] < x[e[j]]) != (x[e[j]] < x[e[j + 1]]))
  }

  /** `e` are the extrema of `x[..n]`, and the run after the last one - going
      up iff `lastUp` - has its extreme at `ext`. */
  ghost predicate Zigzags(x: seq<int>, h: int, n: int, e: seq<nat>, lastUp: bool, ext: nat)
    requires 1 <= n <= |x|
  {
    && e != []
    && Alternates(x, h, e)
    && (|e| > 1 ==> InUp(x, e, lastUp, |e| - 1) != lastUp)
    && Opening(x, h, e[0], InUp(x, e, lastUp, 1))
    && e[|e| - 1] < ext < n
    && Run(x, h, e[|e| - 1], ext, lastUp)
    && Tail(x, h, n, e[|e| - 1], ext, lastUp)
  }

  /** Up to the first extremum nothing moves by more than `h`, and it is the
      lowest (if the first run rises) or the highest sample so far. */
  ghost predicate Opening(x: seq<int>, h: int, first: int, firstUp: bool)
    requires 0 <= first < |x|
  {
    && Quiet(x, h, 0, first + 1)
    && forall k :: 0 <= k <= first ==> if firstUp then x[first] <= x[k] else x[k] <= x[first]
  }

  /** After `last` the window keeps inside the run to `ext`, and does not come back by more than `h`. */
  ghost predicate Tail(x: seq<int>, h: int, n: int, last: int, ext: int, up: bool)
    requires 0 <= last < |x| && 0 <= ext < n <= |x|
  {
    forall k :: last <= k < n ==>
      if up then x[last] <= x[k] <= x[ext] && (ext <= k ==> x[ext] - x[k] <= h)
      else x[ext] <= x[k] <= x[last] && (ext <= k ==> x[k] - x[ext] <= h)
  }

  /** The loop invariant of the scan, as far as the samples `x[..n]` go. */
  ghost predicate ScanInv(x: seq<int>, h: int, n: int, z: Zigzag)
    requires 1 <= n <= |x| && InWindow(z, n)
  {
    if z.dir == Unknown then
      && z.extrema == []
      && Quiet(x, h, 0, n)
      && (forall k :: 0 <= k < n ==> x[z.lo] <= x[k] <= x[z.hi])
    else
      Zigzags(x, h, n, z.extrema, z.dir == Up, z.ext)
  }

  lemma RunGrows(x: seq<int>, h: int, n: nat, last: nat, ext: nat, up: bool)
    requires h >= 0 && n < |x| && last < n && ext < n
    requires Run(x, h, last, ext, up) && Tail(x, h, n, last, ext, up)
    requires if up then x[n] >= x[ext] else x[n] <= x[ext]
    ensures Run(x, h, last, n, up) && Tail(x, h, n + 1, last, n, up)
  {
  }

  lemma RunTurns(x: seq<int>, h: int, n: nat, last: nat, ext: nat, up: bool)
    requires h >= 0 && n < |x| && last < ext < n && Tail(x, h, n, last, ext, up)
    requires if up then x[ext] - x[n] > h else x[n] - x[ext] > h
    ensures Run(x, h, ext, n, !up) && Tail(x, h, n + 1, ext, n, !up)
  {
  }

  lemma RunStays(x: seq<int>, h: int, n: nat, last: nat, ext: nat, up: bool)
    requires h >= 0 && n < |x| && last < n && ext < n
    requires Run(x, h, last, ext, up) && Tail(x, h, n, last, ext, up)
    requires if up then 0 <= x[ext] - x[n] <= h else 0 <= x[n] - x[ext] <= h
    ensures Tail(x, h, n + 1, last, ext, up)
  {
  }

  lemma FirstRun(x: seq<int>, h: int, n: nat, first: nat, up: bool)
    requires h >= 0 && n < |x| && first < n && Quiet(x, h, 0, n)
    requires forall k :: 0 <= k < n ==> if up then x[first] <= x[k] else x[k] <= x[first]
    requires if up then x[n] - x[first] > h else x[first] - x[n] > h
    ensures Opening(x, h, first, up) && Run(x, h, first, n, up) && Tail(x, h, n + 1, first, n, up)
  {
  }

  lemma AlternatesAppend(x: seq<int>, h: int, e: seq<nat>, ext: nat)
    requires e != [] && Alternates(x, h, e) && ext < |x|
    requires Run(x, h, e[|e| - 1], ext, x[e[|e| - 1]] < x[ext])
    requires |e| > 1 ==> (x[e[|e| - 2]] < x[e[|e| - 1]]) != (x[e[|e| - 1]] < x[ext])
    ensures Alternates(x, h, e + [ext])
  {
    hide Run;
    var e' := e + [ext];
    assert forall j :: 0 <= j < |e| ==> e'[j] == e[j];
  }

  /** Appending the extreme of the finished run turns the zigzag around. */
  lemma Turns(x: seq<int>, h: int, n: nat, e: seq<nat>, up: bool, ext: nat)
    requires h >= 0 && 1 <= n < |x| && Zigzags(x, h, n, e, up, ext)
    requires if up then x[ext] - x[n] > h else x[n] - x[ext] > h
    ensures Zigzags(x, h, n + 1, e + [ext], !up, n)
  {
    RunTurns(x, h, n, e[|e| - 1], ext, up);
    AlternatesAppend(x, h, e, ext);
  }

  lemma Continues(x: seq<int>, h: int, n: nat, e: seq<nat>, up: bool, ext: nat)
    requires h >= 0 && 1 <= n < |x| && Zigzags(x, h, n, e, up, ext)
    ensures (if up then x[n] >= x[ext] else x[n] <= x[ext]) ==> Zigzags(x, h, n + 1, e, up, n)
    ensures (if up then 0 <= x[ext] - x[n] <= h else 0 <= x[n] - x[ext] <= h) ==>
              Zigzags(x, h, n + 1, e, up, ext)
  {
    if if up then x[n] >= x[ext] else x[n] <= x[ext] {
      RunGrows(x, h, n, e[|e| - 1], ext, up);
    } else if if up then 0 <= x[ext] - x[n] <= h else 0 <= x[n] - x[ext] <= h {
      RunStays(x, h, n, e[|e| - 1], ext, up);
    }
  }

  lemma StartKeeps(x: seq<int>, h: int, n: nat, z: Zigzag)
    requires h >= 0 && 1 <= n < |x| && InWindow(z, n) && z.dir == Unknown && ScanInv(x, h, n, z)
    ensures ScanInv(x, h, n + 1, ScanStep(x, h, z, n))
  {
    hide Run, Opening, Tail;
    if x[n] + h < x[z.hi] {
      FirstRun(x, h, n, z.hi, false);
    } else if x[n] > x[z.lo] + h {
      FirstRun(x, h, n, z.lo, true);
    }
  }

  lemma ScanStepKeeps(x: seq<int>, h: int, n: nat, z: Zigzag)
    requires h >= 0 && 1 <= n < |x| && InWindow(z, n) && ScanInv(x, h, n, z)
    ensures ScanInv(x, h, n + 1, ScanStep(x, h, z, n))
  {
    hide Zigzags;
    if z.dir == Unknown {
      StartKeeps(x, h, n, z);
    } else {
      var up := z.dir == Up;
      Continues(x, h, n, z.extrema, up, z.ext);
      if if up then x[z.ext] - x[n] > h else x[n] - x[z.ext] > h {
        Turns(x, h, n, z.extrema, up, z.ext);
      }
    }
  }

  lemma {:induction false} ScanKeeps(x: seq<int>, h: int, n: nat)
    requires h >= 0 && 1 <= n <= |x|
    ensures ScanInv(x, h, n, Scan(x, h, n))
  {
    hide Zigzags, ScanStep;
    if n > 1 {
      ScanKeeps(x, h, n - 1);
      ScanStepKeeps(x, h, n - 1, Scan(x, h, n - 1));
    }
  }

  lemma AlternatesSlice(x: seq<int>, h: int, e: seq<nat>, lo: nat, hi: nat)
    requires Alternates(x, h, e) && lo <= hi <= |e|
    ensures Alternates(x, h, e[lo..hi])
  {
    hide Run;
    var t := e[lo..hi];
    forall j | 1 <= j < |t| ensures Run(x, h, t[j - 1], t[j], x[t[j - 1]] < x[t[j]]) {
      assert Run(x, h, e[lo + j - 1], e[lo + j], x[e[lo + j - 1]] < x[e[lo + j]]);
    }
    forall j | 1 <= j < |t| - 1 ensures (x[t[j - 1]] < x[t[j]]) != (x[t[j]] < x[t[j + 1]]) {
      var i := lo + j;
      assert (x[e[i - 1]] < x[e[i]]) != (x[e[i]] < x[e[i + 1]]);
    }
  }

  /** The turning points of a window are alternately peaks and troughs, each
      reached from the one before by a run of more than `h` on which no
      reversal over `h` was missed. */
  lemma TurningPointsAlternate(x: seq<int>, h: int)
    requires x != [] && h >= 0
    ensures Alternates(x, h, Capped(SkipStart(Scan(x, h, |x|).extrema)))
  {
    hide Run, Opening, Tail, Scan, Alternates;
    ScanKeeps(x, h, |x|);
    var e := Scan(x, h, |x|).extrema;
    assert Alternates(x, h, e) by {
      if e == [] { AlternatesNothing(x, h); }
    }
    var t := SkipStart(e);
    assert t == e[|e| - |t|..|e|];
    AlternatesSlice(x, h, e, |e| - |t|, |e|);
    AlternatesSlice(x, h, t, 0, |Capped(t)|);
    assert Capped(t) == t[0..|Capped(t)|];
  }

  lemma AlternatesNothing(x: seq<int>, h: int)
    ensures Alternates(x, h, [])
  {
  }

  /** Turning points strictly increase, and each inner one is the extreme of
      everything between its two neighbours. */
  lemma AlternationMakesExtrema(x: seq<int>, h: int, tp: seq<nat>)
    requires h >= 0 && Alternates(x, h, tp)
    ensures forall j :: 1 <= j < |tp| ==>
              tp[j - 1] < tp[j] && (x[tp[j]] > x[tp[j - 1]] + h || x[tp[j]] + h < x[tp[j - 1]])
    ensures forall j, k :: 1 <= j < |tp| - 1 && tp[j - 1] <= k <= tp[j + 1] ==>
              if x[tp[j]] > x[tp[j - 1]] then x[k] <= x[tp[j]] else x[tp[j]] <= x[k]
  {
    forall j, k | 1 <= j < |tp| - 1 && tp[j - 1] <= k <= tp[j + 1]
      ensures if x[tp[j]] > x[tp[j - 1]] then x[k] <= x[tp[j]] else x[tp[j]] <= x[k]
    {
      assert Run(x, h, tp[j - 1], tp[j], x[tp[j - 1]] < x[tp[j]]);
      assert Run(x, h, tp[(j + 1) - 1], tp[j + 1], x[tp[(j + 1) - 1]] < x[tp[j + 1]]);
    }
  }

  // ------------------------------------------------------------------------
  // Upside down
  // ------------------------------------------------------------------------

  function Negated(x: seq<int>): (r: seq<int>)
    ensures |r| == |x| && forall i :: 0 <= i < |x| ==> r[i] == -x[i]
  {
    seq(|x|, i requires 0 <= i < |x| => -x[i])
  }

  /** The state of the scan of the negated window, as far as it matters from here on. */
  predicate Mirrors(z: Zigzag, z': Zigzag) {
    && z'.dir == (match z.dir case Up => Down case Down => Up case Unknown => Unknown)
    && z'.ext == z.ext && z'.extrema == z.extrema
    && (z.dir == Unknown ==> z'.hi == z.lo && z'.lo == z.hi)
  }

  lemma StepNegated(x: seq<int>, h: int, n: nat, z: Zigzag, z': Zigzag)
    requires h >= 0 && 1 <= n < |x| && InWindow(z, n) && InWindow(z', n) && Mirrors(z, z')
    requires z.dir == Unknown ==> x[z.hi] - x[z.lo] <= h
    ensures Mirrors(ScanStep(x, h, z, n), ScanStep(Negated(x), h, z', n))
  {
  }

  lemma {:induction false} ScanNegated(x: seq<int>, h: int, n: nat)
    requires h >= 0 && 1 <= n <= |x|
    ensures Mirrors(Scan(x, h, n), Scan(Negated(x), h, n))
  {
    if n > 1 {
      var z, z' := Scan(x, h, n - 1), Scan(Negated(x), h, n - 1);
      ScanNegated(x, h, n - 1);
      ScanKeeps(x, h, n - 1);
      StepNegated(x, h, n - 1, z, z');
    }
  }

  lemma HysteresisNegated(x: seq<int>)
    requires x != []
    ensures Hysteresis(Negated(x)) == Hysteresis(x) >= 8
  {
    var y := Negated(x);
    assert y[IndexOf(x, MinOf(x))] == -MinOf(x);
    assert y[IndexOf(x, MaxOf(x))] == -MaxOf(x);
    assert x[IndexOf(y, MinOf(y))] == -MinOf(y);
    assert x[IndexOf(y, MaxOf(y))] == -MaxOf(y);
  }

  ghost function IndexOf(x: seq<int>, v: int): (i: nat)
    requires v in x
    ensures i < |x| && x[i] == v
  {
    var i :| 0 <= i < |x| && x[i] == v; i
  }

  /** The window upside down has the same turning points. */
  lemma NegatedTurningPoints(x: seq<int>)
    requires x != []
    ensures var h := Hysteresis(x); var y := Negated(x);
            Hysteresis(y) == h && Scan(y, h, |y|).extrema == Scan(x, h, |x|).extrema
  {
    HysteresisNegated(x);
    ScanNegated(x, Hysteresis(x), |x|);
  }
}
