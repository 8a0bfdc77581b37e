/** The zigzag of a window that rises and falls between known corners: the
    scan's turning points are exactly the corners (tools/eval_chain.py). */
module TriangleCorners {
  import opened Common
  import opened TurningPoints
  import opened TriEval

  /** From a to b the window goes one way, first by a real step, and by more than h in all. */
  ghost predicate Slope(x: seq<int>, h: int, a: nat, b: nat, up: bool) {
    && a < b < |x|
    && (forall i :: a <= i < b ==> if up then x[i] <= x[i + 1] else x[i] >= x[i + 1])
    && x[a] != x[a + 1]
    && (if up then x[b] - x[a] else x[a] - x[b]) > h
  }

  /** The window's corners, its first and last sample included; `up` is the first slope's way. */
  ghost predicate HasCorners(x: seq<int>, h: int, c: seq<nat>, up: bool) {
    && |c| >= 2 && c[0] == 0 && c[|c| - 1] == |x| - 1 && h >= 0
    && forall k :: 0 <= k < |c| - 1 ==> Slope(x, h, c[k], c[k + 1], Goes(up, k))
  }

  predicate Goes(up: bool, k: nat) { up == (k % 2 == 0) }

  function Way(up: bool): Direction { if up then Up else Down }

  /** How far sample i is along a slope from a. */
  function Gone(x: seq<int>, a: nat, i: nat, up: bool): int
    requires a < |x| && i < |x|
  {
    if up then x[i] - x[a] else x[a] - x[i]
  }

  lemma {:induction false} OneWay(x: seq<int>, h: int, a: nat, b: nat, up: bool, i: nat)
    requires Slope(x, h, a, b, up) && a < i <= b
    ensures Gone(x, a, i, up) > 0
  {
    if i > a + 1 { OneWay(x, h, a, b, up, i - 1); }
  }

  /** The scan after sample i of a slope from a: it knows the slope once it has
      gone more than h. `before` are the corners before a. */
  ghost predicate Follows(x: seq<int>, h: int, a: nat, up: bool, before: seq<nat>, i: nat, z: Zigzag)
    requires a <= i < |x|
  {
    if Gone(x, a, i, up) > h then z.dir == Way(up) && z.ext == i && z.extrema == before + [a]
    else if a > 0 then z.dir == Way(!up) && z.ext == a && z.extrema == before
    else
      && z.dir == Unknown && z.extrema == before == [] && z.hi < |x| && z.lo < |x|
      && if up then z.lo == 0 && x[z.hi] == x[i] else z.hi == 0 && x[z.lo] == x[i]
  }

  lemma RunStep(x: seq<int>, h: int, n: nat, z: Zigzag)
    requires 1 <= n < |x| && z == Scan(x, h, n) && z.dir != Unknown && z.ext < n
    ensures var up := z.dir == Up; var gone := Gone(x, z.ext, n, up);
            Scan(x, h, n + 1) ==
              if gone >= 0 then z.(ext := n)
              else if -gone > h then Zigzag(Way(!up), z.hi, z.lo, n, z.extrema + [z.ext])
              else z
  {
    ScanNextRun(x, h, n, z);
    hide Scan;
  }

  /** One sample of a slope: not back, and further than its start. */
  lemma SlopeStep(x: seq<int>, h: int, a: nat, b: nat, up: bool, i: nat)
    requires Slope(x, h, a, b, up) && a <= i < b
    ensures Gone(x, a, i + 1, up) > 0 && Gone(x, a, i + 1, up) >= Gone(x, a, i, up) >= 0
  {
    OneWay(x, h, a, b, up, i + 1);
    if i > a { OneWay(x, h, a, b, up, i); }
  }

  lemma FollowsStart(x: seq<int>, h: int, b: nat, up: bool, i: nat)
    requires Slope(x, h, 0, b, up) && i < b && h >= 0
    requires Follows(x, h, 0, up, [], i, Scan(x, h, i + 1)) && Gone(x, 0, i, up) <= h
    ensures Follows(x, h, 0, up, [], i + 1, Scan(x, h, i + 2))
  {
    SlopeStep(x, h, 0, b, up, i);
    ScanNextStart(x, h, i + 1, Scan(x, h, i + 1));
    hide Scan, Slope;
  }

  lemma FollowsOn(x: seq<int>, h: int, a: nat, b: nat, up: bool, before: seq<nat>, i: nat)
    requires Slope(x, h, a, b, up) && a <= i < b && h >= 0
    requires Follows(x, h, a, up, before, i, Scan(x, h, i + 1)) && (a > 0 || Gone(x, a, i, up) > h)
    ensures Follows(x, h, a, up, before, i + 1, Scan(x, h, i + 2))
  {
    hide Scan;
    SlopeStep(x, h, a, b, up, i);
    assert i + 1 < |x|;
    hide Slope;
    var z := Scan(x, h, i + 1);
    var known := Gone(x, a, i, up) > h;
    assert z.ext == (if known then i else a) && (z.dir == Up <==> known == up);
    RunStep(x, h, i + 1, z);
    assert Gone(x, a, i + 1, !up) == -Gone(x, a, i + 1, up);
    assert known ==> Gone(x, i, i + 1, up) == Gone(x, a, i + 1, up) - Gone(x, a, i, up);
  }

  lemma {:induction false} FollowsSlope(x: seq<int>, h: int, a: nat, b: nat, up: bool, before: seq<nat>, i: nat)
    requires Slope(x, h, a, b, up) && a <= i <= b && h >= 0 && (a == 0 ==> before == [])
    requires Follows(x, h, a, up, before, a, Scan(x, h, a + 1))
    ensures Follows(x, h, a, up, before, i, Scan(x, h, i + 1))
    decreases i
  {
    hide Scan, Follows;
    assert Gone(x, a, a, up) == 0;
    if i > a {
      FollowsSlope(x, h, a, b, up, before, i - 1);
      if a == 0 && Gone(x, a, i - 1, up) <= h {
        FollowsStart(x, h, b, up, i - 1);
      } else {
        FollowsOn(x, h, a, b, up, before, i - 1);
      }
    }
  }

  lemma ScanBegins(x: seq<int>, h: int, up: bool)
    requires x != [] && h >= 0
    ensures Follows(x, h, 0, up, [], 0, Scan(x, h, 1))
  {
  }

  /** After slope k all corners but the one reached are recorded. */
  lemma {:induction false} ScanFollows(x: seq<int>, h: int, c: seq<nat>, up: bool, k: nat)
    requires HasCorners(x, h, c, up) && k < |c| - 1
    ensures c[k + 1] < |x|
    ensures var z := Scan(x, h, c[k + 1] + 1);
            z.dir == Way(Goes(up, k)) && z.ext == c[k + 1] && z.extrema == c[..k + 1]
  {
    hide Scan;
    assert Slope(x, h, c[k], c[k + 1], Goes(up, k));
    if k == 0 {
      ScanBegins(x, h, up);
      assert c[..1] == [] + [c[0]];
      FollowsSlope(x, h, 0, c[1], up, [], c[1]);
    } else {
      ScanFollows(x, h, c, up, k - 1);
      assert Slope(x, h, c[k - 1], c[k], Goes(up, k - 1));
      assert Goes(up, k - 1) == !Goes(up, k);
      assert c[..k + 1] == c[..k] + [c[k]];
      hide HasCorners;
      FollowsSlope(x, h, c[k], c[k + 1], Goes(up, k), c[..k], c[k + 1]);
    }
  }

  /** The turning points of such a window are its inner corners. */
  lemma CornersAreTurns(x: seq<int>, c: seq<nat>, up: bool)
    requires x != [] && HasCorners(x, Hysteresis(x), c, up) && |c| <= TP_MAX + 2 && (|c| > 2 ==> c[1] > 2)
    ensures TurningPointsOf(x) == c[1..|c| - 1] && !Overflows(x)
  {
    var h, n := Hysteresis(x), |c| - 2;
    ScanFollows(x, h, c, up, n);
    hide Scan, Hysteresis, HasCorners;
    var e := Scan(x, h, |x|).extrema;
    assert e == c[..n + 1] && e[0] == 0 && SkipStart(e) == e[1..] == c[1..n + 1];
  }
}
