/** The software trigger (tools/trigger.py): armed below the hysteresis, fires at
    the level. Samples are reals. */
module Trigger {
  import opened Common
  import opened Reals

  datatype Slope = Rising | Falling

  /** A crossing: the first sample past the level, and where between it and the
      one before the level lies. */
  datatype Hit = Hit(k: nat, frac: real)

  predicate Arms(v: real, level: real, hyst: real, slope: Slope) {
    if slope == Rising then v < level - hyst else v > level + hyst
  }

  predicate Past(v: real, level: real, slope: Slope) { if slope == Rising then v >= level else v <= level }

  /** Whether the trigger is armed before sample k. */
  predicate Armed(x: seq<real>, level: real, hyst: real, slope: Slope, k: nat)
    requires k <= |x|
  {
    k > 0
    && if Armed(x, level, hyst, slope, k - 1) then !Past(x[k - 1], level, slope)
       else Arms(x[k - 1], level, hyst, slope)
  }

  predicate Fires(x: seq<real>, level: real, hyst: real, slope: Slope, k: nat)
    requires k < |x|
  {
    Armed(x, level, hyst, slope, k) && Past(x[k], level, slope)
  }

  function Clamp(f: real): real {
    var low := if f > 0.0 then f else 0.0;
    if low < 1.0 then low else 1.0
  }

  function Fraction(prev: real, v: real, level: real): real {
    if v - prev != 0.0 then Quotient(level - prev, v - prev) else 1.0
  }

  /** All crossings up to sample `end` (not included), in order. */
  function Hits(x: seq<real>, level: real, hyst: real, slope: Slope, end: nat): seq<Hit>
    requires end <= |x|
  {
    if end == 0 then []
    else
      Hits(x, level, hyst, slope, end - 1)
      + if Fires(x, level, hyst, slope, end - 1) && end >= 2
        then [Hit(end - 1, Clamp(Fraction(x[end - 2], x[end - 1], level)))] else []
  }

  function SearchEnd(n: nat, searchEnd: Option<int>): nat {
    var last := if searchEnd.None? || searchEnd.value > n - 1 then n - 1 else searchEnd.value;
    if last < 0 then 0 else last + 1
  }

  method FindTriggers(x: seq<real>, level: real, hyst: real, slope: Slope, searchEnd: Option<int>)
      returns (hits: seq<Hit>)
    ensures hits == Hits(x, level, hyst, slope, SearchEnd(|x|, searchEnd))
  {
    hide Fraction, Clamp;
    var arm := if slope == Rising then level - hyst else level + hyst;
    var armed := false;
    hits := [];
    for k := 0 to SearchEnd(|x|, searchEnd)
      invariant armed == Armed(x, level, hyst, slope, k)
      invariant hits == Hits(x, level, hyst, slope, k)
    {
      var v := x[k];
      if !armed {
        armed := if slope == Rising then v < arm else v > arm;
      } else if (if slope == Rising then v >= level else v <= level) {
        hits := hits + [Hit(k, Clamp(Fraction(x[k - 1], v, level)))];
        armed := false;
      }
    }
  }

  function First(hits: seq<Hit>): Option<Hit> { if hits == [] then None else Some(hits[0]) }

  /** Where the window starts, the fraction, and whether a crossing was found. */
  method TriggerWindow(x: seq<real>, level: real, hyst: real, slope: Slope, length: Option<int>)
    returns (start: nat, frac: real, found: bool, width: nat)
    ensures var wanted := if length.None? then |x| / 2 else length.value;
            width == if wanted < 1 || |x| < 1 then 1 else if wanted < |x| then wanted else |x|
    ensures start + width <= |x| <==> |x| >= 1
    ensures found <==> First(Hits(x, level, hyst, slope, |x| - (if width <= |x| then width - 1 else |x|))).Some?
    ensures found ==> Some(Hit(start, frac)) == First(Hits(x, level, hyst, slope, |x| - width + 1))
    ensures !found ==> start == 0 && frac == 0.0
  {
    hide Hits, Fires;
    var n := |x|;
    var l := if length.None? then n / 2 else length.value;
    var m := if l < n then l else n;
    width := if m > 1 then m else 1;
    var hits := FindTriggers(x, level, hyst, slope, Some(n - width));
    HitsWithin(x, level, hyst, slope, SearchEnd(n, Some(n - width)));
    if hits == [] {
      start, frac, found := 0, 0.0, false;
    } else {
      start, frac, found := hits[0].k, hits[0].frac, true;
    }
  }

  lemma {:induction false} HitsWithin(x: seq<real>, level: real, hyst: real, slope: Slope, end: nat)
    requires end <= |x|
    ensures forall i :: 0 <= i < |Hits(x, level, hyst, slope, end)| ==>
              1 <= Hits(x, level, hyst, slope, end)[i].k < end
  {
    hide Fires, Fraction, Clamp;
    if end > 0 { HitsWithin(x, level, hyst, slope, end - 1); }
  }

  // ------------------------------------------------------------------------
  // What a crossing is
  // ------------------------------------------------------------------------

  /** Rising: sample j was below the hysteresis, and none since has reached the level. */
  predicate ArmedBy(x: seq<real>, level: real, hyst: real, j: nat, k: nat)
    requires j < k <= |x|
  {
    x[j] < level - hyst && forall i :: j < i < k ==> x[i] < level
  }

  ghost predicate ArmedSince(x: seq<real>, level: real, hyst: real, k: nat)
    requires k <= |x|
  {
    exists j: nat :: j < k && ArmedBy(x, level, hyst, j, k)
  }

  /** The state machine's arming is this condition on the samples alone. */
  lemma {:induction false} ArmedIff(x: seq<real>, level: real, hyst: real, k: nat)
    requires k <= |x| && hyst >= 0.0
    ensures Armed(x, level, hyst, Rising, k) <==> ArmedSince(x, level, hyst, k)
  {
    if k > 0 {
      ArmedIff(x, level, hyst, k - 1);
      if Armed(x, level, hyst, Rising, k - 1) {
        if x[k - 1] < level {
          var j: nat :| j < k - 1 && ArmedBy(x, level, hyst, j, k - 1);
          assert ArmedBy(x, level, hyst, j, k);
        }
      } else if x[k - 1] < level - hyst {
        assert ArmedBy(x, level, hyst, k - 1, k);
      }
      if ArmedSince(x, level, hyst, k) {
        var j: nat :| j < k && ArmedBy(x, level, hyst, j, k);
        if j < k - 1 { assert ArmedBy(x, level, hyst, j, k - 1) && x[k - 1] < level; }
      }
    }
  }

  /** Sample k is a crossing exactly if it is at the level, an earlier one is
      below the hysteresis, and none in between is at the level. */
  lemma FiresIff(x: seq<real>, level: real, hyst: real, k: nat)
    requires k < |x| && hyst >= 0.0
    ensures Fires(x, level, hyst, Rising, k) <==> x[k] >= level && ArmedSince(x, level, hyst, k)
  {
    ArmedIff(x, level, hyst, k);
  }

  predicate HasHit(hits: seq<Hit>, k: nat) { exists i :: 0 <= i < |hits| && hits[i].k == k }

  /** The reported crossings are those samples the trigger fires at. */
  lemma {:induction false} FiresIsHit(x: seq<real>, level: real, hyst: real, slope: Slope, k: nat, end: nat)
    requires k < end <= |x|
    ensures Fires(x, level, hyst, slope, k) <==> HasHit(Hits(x, level, hyst, slope, end), k)
    decreases end
  {
    hide Fraction, Clamp;
    var before, hits := Hits(x, level, hyst, slope, end - 1), Hits(x, level, hyst, slope, end);
    HitsWithin(x, level, hyst, slope, end - 1);
    assert Fires(x, level, hyst, slope, k) ==> k > 0;
    if k < end - 1 {
      FiresIsHit(x, level, hyst, slope, k, end - 1);
      assert before <= hits;
      assert forall i :: 0 <= i < |before| ==> hits[i] == before[i];
      if HasHit(before, k) {
        var i :| 0 <= i < |before| && before[i].k == k;
        assert hits[i].k == k;
      }
    } else if Fires(x, level, hyst, slope, k) {
      assert hits == before + [Hit(end - 1, Clamp(Fraction(x[end - 2], x[end - 1], level)))];
      assert hits[|before|].k == k;
    } else {
      assert hits == before;
    }
  }

  /** At the level, and an earlier sample is below the hysteresis. */
  ghost predicate Crosses(x: seq<real>, level: real, hyst: real, k: nat) {
    k < |x| && x[k] >= level && exists j :: 0 <= j < k && x[j] < level - hyst
  }

  /** The first crossing reported is the least such sample, and none is reported if there is none. */
  lemma FirstCrossing(x: seq<real>, level: real, hyst: real, end: nat)
    requires end <= |x| && hyst >= 0.0
    ensures var hits := Hits(x, level, hyst, Rising, end);
            && (hits == [] <==> forall k :: 0 <= k < end ==> !Crosses(x, level, hyst, k))
            && (hits != [] ==>
                  hits[0].k < end && Crosses(x, level, hyst, hits[0].k)
                  && forall k :: 0 <= k < hits[0].k ==> !Crosses(x, level, hyst, k))
  {
    var hits := Hits(x, level, hyst, Rising, end);
    if k :| 0 <= k < end && Crosses(x, level, hyst, k) {
      var least := LeastCrossing(x, level, hyst, k);
      LeastIsFirst(x, level, hyst, end, least);
    } else if hits != [] {
      HitsWithin(x, level, hyst, Rising, end);
      var k := hits[0].k;
      FiresIsHit(x, level, hyst, Rising, k, end);
      FiresIff(x, level, hyst, k);
      var j: nat :| j < k && ArmedBy(x, level, hyst, j, k);
      assert Crosses(x, level, hyst, k);
    }
  }

  lemma {:induction false} LeastCrossing(x: seq<real>, level: real, hyst: real, k: nat) returns (least: nat)
    requires Crosses(x, level, hyst, k)
    ensures least <= k && Crosses(x, level, hyst, least)
    ensures forall i :: 0 <= i < least ==> !Crosses(x, level, hyst, i)
  {
    hide Crosses;
    least := k;
    if i :| 0 <= i < k && Crosses(x, level, hyst, i) { least := LeastCrossing(x, level, hyst, i); }
  }

  lemma LeastIsFirst(x: seq<real>, level: real, hyst: real, end: nat, k: nat)
    requires k < end <= |x| && hyst >= 0.0 && Crosses(x, level, hyst, k)
    requires forall i :: 0 <= i < k ==> !Crosses(x, level, hyst, i)
    ensures Hits(x, level, hyst, Rising, end) != [] && Hits(x, level, hyst, Rising, end)[0].k == k
  {
    forall i, j | 0 <= j < i < k && x[i] >= level ensures x[j] >= level - hyst { assert !Crosses(x, level, hyst, i); }
    var j := LastBelow(x, level, hyst, k);
    assert ArmedBy(x, level, hyst, j, k);
    FiresIff(x, level, hyst, k);
    FirstHit(x, level, hyst, end, k);
  }

  lemma LastBelow(x: seq<real>, level: real, hyst: real, k: nat) returns (j: nat)
    requires k < |x| && hyst >= 0.0 && exists j :: 0 <= j < k && x[j] < level - hyst
    requires forall i :: 0 <= i < k && x[i] >= level ==> forall j :: 0 <= j < i ==> x[j] >= level - hyst
    ensures j < k && ArmedBy(x, level, hyst, j, k)
  {
    j :| 0 <= j < k && x[j] < level - hyst;
  }

  lemma {:induction false} FirstHit(x: seq<real>, level: real, hyst: real, end: nat, k: nat)
    requires k < end <= |x| && hyst >= 0.0 && Fires(x, level, hyst, Rising, k)
    requires forall i :: 0 <= i < k && x[i] >= level ==> forall j :: 0 <= j < i ==> x[j] >= level - hyst
    ensures Hits(x, level, hyst, Rising, end) != [] && Hits(x, level, hyst, Rising, end)[0].k == k
    decreases end
  {
    hide Fraction, Clamp;
    if k < end - 1 {
      FirstHit(x, level, hyst, end - 1, k);
    } else {
      NoHitBefore(x, level, hyst, k, k);
      assert k > 0;
    }
  }

  lemma {:induction false} NoHitBefore(x: seq<real>, level: real, hyst: real, end: nat, k: nat)
    requires end <= k < |x| && hyst >= 0.0
    requires forall i :: 0 <= i < k && x[i] >= level ==> forall j :: 0 <= j < i ==> x[j] >= level - hyst
    ensures Hits(x, level, hyst, Rising, end) == []
  {
    hide Fraction, Clamp;
    if end > 0 {
      NoHitBefore(x, level, hyst, end - 1, k);
      FiresIff(x, level, hyst, end - 1);
      hide Fires;
      assert !Fires(x, level, hyst, Rising, end - 1);
    }
  }

  /** Between two crossings there is a sample below the hysteresis. */
  lemma CrossingsSeparated(x: seq<real>, level: real, hyst: real, k: nat, m: nat)
    requires k < m < |x| && hyst >= 0.0 && Fires(x, level, hyst, Rising, k) && Fires(x, level, hyst, Rising, m)
    ensures exists j :: k < j < m && x[j] < level - hyst
  {
    FiresIff(x, level, hyst, k);
    FiresIff(x, level, hyst, m);
    var j: nat :| j < m && ArmedBy(x, level, hyst, j, m);
    assert j >= k;
    assert j != k;
  }

  /** Just before a crossing the signal is below the level, so the fraction needs no clamp and is not 0. */
  lemma FractionInRange(x: seq<real>, level: real, hyst: real, k: nat)
    requires k < |x| && hyst >= 0.0 && Fires(x, level, hyst, Rising, k)
    ensures k >= 1 && x[k - 1] < level <= x[k]
    ensures 0.0 < Fraction(x[k - 1], x[k], level) <= 1.0
    ensures Clamp(Fraction(x[k - 1], x[k], level)) == Fraction(x[k - 1], x[k], level)
  {
    FiresIff(x, level, hyst, k);
    var j: nat :| j < k && ArmedBy(x, level, hyst, j, k);
    assert x[k - 1] < level;
    RatioInRange(level - x[k - 1], x[k] - x[k - 1]);
  }

  lemma BackAtLevel(prev: real, v: real, level: real)
    requires prev < v
    ensures prev + Fraction(prev, v, level) * (v - prev) == level
  {
    RatioBack(level - prev, v - prev);
  }

  /** Between the two samples at a crossing the straight line is at the level where the fraction says. */
  lemma {:induction false} HitAtLevel(x: seq<real>, level: real, hyst: real, slope: Slope, end: nat, i: nat)
    requires end <= |x| && hyst >= 0.0 && i < |Hits(x, level, hyst, slope, end)|
    ensures var h := Hits(x, level, hyst, slope, end)[i];
            1 <= h.k < |x| && x[h.k - 1] + h.frac * (x[h.k] - x[h.k - 1]) == level
    decreases end, if slope == Falling then 1 else 0
  {
    if slope == Falling {
      hide Hits;
      FallingIsMirrored(x, level, hyst, end);
      HitAtLevel(Mirrored(x), -level, hyst, Rising, end, i);
    } else if i < |Hits(x, level, hyst, slope, end - 1)| {
      HitAtLevel(x, level, hyst, slope, end - 1, i);
    } else {
      hide Armed, Past;
      FractionInRange(x, level, hyst, end - 1);
      BackAtLevel(x[end - 2], x[end - 1], level);
      hide Fraction, Clamp;
    }
  }

  lemma RatioInRange(n: real, d: real)
    requires 0.0 < n <= d
    ensures 0.0 < Quotient(n, d) <= 1.0
  {
    RatioBack(n, d);
    hide Quotient;
    Between(Quotient(n, d), n, d);
  }

  lemma RatioBack(n: real, d: real)
    requires d != 0.0
    ensures Quotient(n, d) * d == n
  {
  }

  lemma Between(q: real, n: real, d: real)
    requires q * d == n && 0.0 < n <= d
    ensures 0.0 < q <= 1.0
  {
    if q <= 0.0 {
      NotAbove(q, 0.0, d);
    } else if q > 1.0 {
      Above(q, d);
    }
  }

  lemma NotAbove(p: real, q: real, d: real)
    requires p <= q && d > 0.0
    ensures p * d <= q * d
  {
  }

  lemma Above(p: real, d: real)
    requires p > 1.0 && d > 0.0
    ensures p * d > d
  {
    assert (p - 1.0) * d > 0.0;
  }

  // ------------------------------------------------------------------------
  // Falling edges, noise
  // ------------------------------------------------------------------------

  function Mirrored(x: seq<real>): (r: seq<real>)
    ensures |r| == |x| && forall i :: 0 <= i < |x| ==> r[i] == -x[i]
  {
    seq(|x|, i requires 0 <= i < |x| => -x[i])
  }

  lemma {:induction false} ArmedMirrored(x: seq<real>, level: real, hyst: real, k: nat)
    requires k <= |x|
    ensures Armed(x, level, hyst, Falling, k) == Armed(Mirrored(x), -level, hyst, Rising, k)
  {
    if k > 0 { ArmedMirrored(x, level, hyst, k - 1); }
  }

  lemma FractionMirrored(prev: real, v: real, level: real)
    ensures Fraction(-prev, -v, -level) == Fraction(prev, v, level)
  {
    if v - prev != 0.0 {
      var q := Quotient(level - prev, v - prev);
      assert q * (v - prev) == level - prev;
      assert q * ((-v) - (-prev)) == (-level) - (-prev);
    }
  }

  /** Falling crossings are the rising ones of the negated signal. */
  lemma {:induction false} FallingIsMirrored(x: seq<real>, level: real, hyst: real, end: nat)
    requires end <= |x|
    ensures Hits(x, level, hyst, Falling, end) == Hits(Mirrored(x), -level, hyst, Rising, end)
  {
    hide Fraction, Clamp;
    if end > 0 {
      FallingIsMirrored(x, level, hyst, end - 1);
      ArmedMirrored(x, level, hyst, end - 1);
      if end >= 2 { FractionMirrored(x[end - 2], x[end - 1], level); }
      hide Armed;
    }
  }

  /** A rising slope with noise of at most half the hysteresis fires at most once. */
  lemma NoisySlopeFiresOnce(slope: seq<real>, noise: seq<real>, x: seq<real>, level: real, hyst: real, k: nat, m: nat)
    requires |slope| == |noise| == |x| && hyst >= 0.0 && k < m < |x|
    requires forall i, j :: 0 <= i <= j < |slope| ==> slope[i] <= slope[j]
    requires forall i :: 0 <= i < |x| ==> x[i] == slope[i] + noise[i] && -hyst <= 2.0 * noise[i] <= hyst
    requires Fires(x, level, hyst, Rising, k)
    ensures !Fires(x, level, hyst, Rising, m)
  {
    if Fires(x, level, hyst, Rising, m) {
      CrossingsSeparated(x, level, hyst, k, m);
      assert false;
    }
  }
}
