/** Real arithmetic the models share: products and quotients as terms of their
    own, and order statistics (sorting, the middle element, the largest). */
module Reals {

  /** A product as one term, so that equal factors give equal products. */
  function Times(p: real, q: real): real { p * q }

  function Quotient(p: real, q: real): real
    requires q != 0.0
  {
    p / q
  }

  function Sq(u: real): (r: real)
    ensures r >= 0.0
  {
    Times(u, u)
  }

  function Lower(a: real, b: real): real { if b < a then b else a }

  function Higher(a: real, b: real): real { if b > a then b else a }

  function Abs(r: real): real { if r < 0.0 then -r else r }

  ghost predicate Ascending(s: seq<real>) {
    forall i, j :: 0 <= i < j < |s| ==> s[i] <= s[j]
  }

  function Insert(s: seq<real>, v: real): seq<real> {
    if s == [] || s[|s| - 1] <= v then s + [v]
    else Insert(s[..|s| - 1], v) + [s[|s| - 1]]
  }

  /** Python's `sorted`. */
  function Sorted(s: seq<real>): seq<real> {
    if s == [] then [] else Insert(Sorted(s[..|s| - 1]), s[|s| - 1])
  }

  lemma {:induction false} InsertKeeps(s: seq<real>, v: real)
    ensures multiset(Insert(s, v)) == multiset(s) + multiset{v} && |Insert(s, v)| == |s| + 1
  {
    if !(s == [] || s[|s| - 1] <= v) {
      assert s == s[..|s| - 1] + [s[|s| - 1]];
      InsertKeeps(s[..|s| - 1], v);
    }
  }

  lemma {:induction false} InsertSorts(s: seq<real>, v: real, top: real)
    requires Ascending(s) && v <= top && forall i :: 0 <= i < |s| ==> s[i] <= top
    ensures Ascending(Insert(s, v)) && forall i :: 0 <= i < |Insert(s, v)| ==> Insert(s, v)[i] <= top
  {
    if !(s == [] || s[|s| - 1] <= v) {
      InsertSorts(s[..|s| - 1], v, s[|s| - 1]);
    }
  }

  lemma {:induction false} SortedKeeps(s: seq<real>)
    ensures multiset(Sorted(s)) == multiset(s) && |Sorted(s)| == |s|
  {
    if s != [] {
      assert s == s[..|s| - 1] + [s[|s| - 1]];
      SortedKeeps(s[..|s| - 1]);
      InsertKeeps(Sorted(s[..|s| - 1]), s[|s| - 1]);
    }
  }

  lemma {:induction false} SortedSorts(s: seq<real>)
    ensures Ascending(Sorted(s))
  {
    if s != [] {
      var t, v := Sorted(s[..|s| - 1]), s[|s| - 1];
      SortedSorts(s[..|s| - 1]);
      InsertSorts(t, v, if t == [] || t[|t| - 1] <= v then v else t[|t| - 1]);
    }
  }

  function Median(s: seq<real>): real
    requires s != []
  {
    SortedKeeps(s);
    Sorted(s)[|s| / 2]
  }

  function MaxReal(s: seq<real>): (m: real)
    requires s != []
    ensures m in s && forall i :: 0 <= i < |s| ==> s[i] <= m
  {
    if |s| == 1 then s[0]
    else
      var m := MaxReal(s[..|s| - 1]);
      if m >= s[|s| - 1] then m else s[|s| - 1]
  }

  lemma {:induction false} CountBound(s: seq<real>, v: real)
    ensures multiset(s)[v] <= |s|
    ensures v !in s ==> multiset(s)[v] == 0
  {
    if s != [] {
      assert s == s[..|s| - 1] + [s[|s| - 1]];
      CountBound(s[..|s| - 1], v);
    }
  }

  lemma SplitCount(s: seq<real>, m: nat, v: real)
    requires m <= |s|
    ensures multiset(s)[v] == multiset(s[..m])[v] + multiset(s[m..])[v]
  {
    assert s == s[..m] + s[m..];
  }

  lemma FewBelow(r: seq<real>, m: nat, v: real)
    requires Ascending(r) && m < |r|
    ensures r[m] > v ==> multiset(r)[v] <= m
    ensures r[m] < v ==> multiset(r)[v] <= |r| - m - 1
  {
    if r[m] > v {
      SplitCount(r, m, v);
      CountBound(r[..m], v);
      CountBound(r[m..], v);
    } else if r[m] < v {
      SplitCount(r, m + 1, v);
      CountBound(r[..m + 1], v);
      CountBound(r[m + 1..], v);
    }
  }

  /** A value held by more than half of the entries is the median, wherever the others lie. */
  lemma MajorityIsMedian(s: seq<real>, v: real)
    requires s != [] && 2 * multiset(s)[v] > |s|
    ensures Median(s) == v
  {
    SortedKeeps(s);
    SortedSorts(s);
    FewBelow(Sorted(s), |s| / 2, v);
  }
}
