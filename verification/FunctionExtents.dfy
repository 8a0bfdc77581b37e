/** The functions of an ELF file (tools/fncmp.py): extents from the symbol
    table, one function per address, and the disassembly cut into bodies. */
module FunctionExtents {
  import opened Common
  import opened Text

  datatype Symbol = Symbol(addr: nat, size: nat, name: string, end: nat)

  /** One piece of an operand: text, or a token `#0x..` / `0x..`. */
  datatype Token = Plain(s: string) | Hex(imm: bool, digits: string)

  datatype Insn = Insn(addr: nat, mnem: string, ops: seq<Token>)

  /** The order of the symbol list: by address, the longest first. */
  predicate InOrder(funcs: seq<Symbol>) {
    forall i, j :: 0 <= i < j < |funcs| ==>
      funcs[i].addr < funcs[j].addr || (funcs[i].addr == funcs[j].addr && funcs[i].size >= funcs[j].size)
  }

  /** As read: a symbol ends after its size. */
  predicate AsRead(funcs: seq<Symbol>) {
    InOrder(funcs) && forall i :: 0 <= i < |funcs| ==> funcs[i].end == funcs[i].addr + funcs[i].size
  }

  // ------------------------------------------------------------------------
  // Zero-size functions run to the next one
  // ------------------------------------------------------------------------

  /** The address of the first symbol above `addr`, or `addr` itself. */
  function NextStart(rest: seq<Symbol>, addr: nat): nat {
    if rest == [] then addr
    else if rest[0].addr > addr then rest[0].addr
    else NextStart(rest[1..], addr)
  }

  function Extend(s: Symbol, rest: seq<Symbol>): Symbol {
    if s.size == 0 then s.(end := NextStart(rest, s.addr)) else s
  }

  function Extended(funcs: seq<Symbol>): (r: seq<Symbol>)
    ensures |r| == |funcs|
  {
    if funcs == [] then [] else [Extend(funcs[0], funcs[1..])] + Extended(funcs[1..])
  }

  lemma {:induction false} ExtendedAt(funcs: seq<Symbol>, i: nat)
    requires i < |funcs|
    ensures Extended(funcs)[i] == Extend(funcs[i], funcs[i + 1..])
  {
    hide Extend;
    if i > 0 {
      ExtendedAt(funcs[1..], i - 1);
      assert funcs[1..][i..] == funcs[i + 1..];
    }
  }

  method ExtendZeroSize(symbols: seq<Symbol>) returns (funcs: seq<Symbol>)
    ensures funcs == Extended(symbols)
  {
    hide Extend, Extended;
    funcs := symbols;
    for i := 0 to |funcs|
      invariant |funcs| == |symbols|
      invariant forall j :: 0 <= j < i ==> funcs[j] == Extend(symbols[j], symbols[j + 1..])
      invariant forall j :: i <= j < |funcs| ==> funcs[j] == symbols[j]
    {
      var s := funcs[i];
      if s.size == 0 {
        var nxt := FirstAbove(funcs, i + 1, s.addr);
        assert funcs[i + 1..] == symbols[i + 1..];
        funcs := funcs[i := s.(end := nxt)];
      }
      ExtendIs(symbols[i], symbols[i + 1..]);
    }
    forall j | 0 <= j < |funcs| ensures funcs[j] == Extended(symbols)[j] { ExtendedAt(symbols, j); }
    ExtendedLength(symbols);
  }

  lemma ExtendIs(s: Symbol, rest: seq<Symbol>)
    ensures Extend(s, rest) == if s.size == 0 then s.(end := NextStart(rest, s.addr)) else s
  {
  }

  lemma ExtendedLength(funcs: seq<Symbol>)
    ensures |Extended(funcs)| == |funcs|
  {
  }

  method FirstAbove(funcs: seq<Symbol>, start: nat, addr: nat) returns (nxt: nat)
    requires start <= |funcs|
    ensures nxt == NextStart(funcs[start..], addr)
  {
    var j := start;
    while j < |funcs|
      invariant start <= j <= |funcs|
      invariant NextStart(funcs[start..], addr) == NextStart(funcs[j..], addr)
    {
      assert funcs[j..][1..] == funcs[j + 1..];
      if funcs[j].addr > addr { return funcs[j].addr; }
      j := j + 1;
    }
    assert funcs[j..] == [];
    nxt := addr;
  }

  // ------------------------------------------------------------------------
  // One function per address
  // ------------------------------------------------------------------------

  function DropAt(funcs: seq<Symbol>, addr: nat): (r: seq<Symbol>)
    ensures |r| <= |funcs|
  {
    if funcs != [] && funcs[0].addr == addr then DropAt(funcs[1..], addr) else funcs
  }

  /** The first symbol of every address. */
  function Kept(funcs: seq<Symbol>): seq<Symbol>
    decreases |funcs|
  {
    if funcs == [] then [] else [funcs[0]] + Kept(DropAt(funcs[1..], funcs[0].addr))
  }

  predicate Increasing(kept: seq<Symbol>) { forall i, j :: 0 <= i < j < |kept| ==> kept[i].addr < kept[j].addr }

  lemma {:induction false} DropAtRest(funcs: seq<Symbol>, addr: nat)
    requires InOrder(funcs) && forall i :: 0 <= i < |funcs| ==> addr <= funcs[i].addr
    ensures InOrder(DropAt(funcs, addr))
        && forall i :: 0 <= i < |DropAt(funcs, addr)| ==> addr < DropAt(funcs, addr)[i].addr
  {
    if funcs != [] && funcs[0].addr == addr { DropAtRest(funcs[1..], addr); }
  }

  lemma {:induction false} KeptIncreasing(funcs: seq<Symbol>, above: int)
    requires InOrder(funcs) && forall i :: 0 <= i < |funcs| ==> above < funcs[i].addr
    ensures Increasing(Kept(funcs)) && forall i :: 0 <= i < |Kept(funcs)| ==> above < Kept(funcs)[i].addr
    decreases |funcs|
  {
    if funcs != [] {
      DropAtRest(funcs[1..], funcs[0].addr);
      KeptIncreasing(DropAt(funcs[1..], funcs[0].addr), funcs[0].addr);
    }
  }

  function Addresses(funcs: seq<Symbol>): set<nat> { set s | s in funcs :: s.addr }

  lemma SeenBefore(funcs: seq<Symbol>, i: nat)
    requires InOrder(funcs) && i < |funcs|
    ensures funcs[i].addr in Addresses(funcs[..i]) <==> i > 0 && funcs[i].addr == funcs[i - 1].addr
    ensures Addresses(funcs[..i + 1]) == Addresses(funcs[..i]) + {funcs[i].addr}
  {
    if i > 0 { assert funcs[..i][i - 1] in funcs[..i]; }
    assert funcs[..i + 1] == funcs[..i] + [funcs[i]];
    if funcs[i].addr in Addresses(funcs[..i]) {
      var s :| s in funcs[..i] && s.addr == funcs[i].addr;
      var j :| 0 <= j < i && funcs[..i][j] == s;
      assert funcs[j].addr == funcs[i].addr && (j < i - 1 ==> funcs[j].addr <= funcs[i - 1].addr <= funcs[i].addr);
    }
  }

  /** The kept symbols from position `i` on. */
  function KeptFrom(funcs: seq<Symbol>, i: nat): seq<Symbol>
    requires i <= |funcs|
  {
    Kept(if i == 0 then funcs else DropAt(funcs[i..], funcs[i - 1].addr))
  }

  lemma KeptStep(funcs: seq<Symbol>, i: nat)
    requires i < |funcs|
    ensures KeptFrom(funcs, i) ==
              (if i > 0 && funcs[i].addr == funcs[i - 1].addr then [] else [funcs[i]]) + KeptFrom(funcs, i + 1)
  {
    assert funcs[i..][1..] == funcs[i + 1..] && (i == 0 ==> funcs[i..] == funcs);
  }

  method DedupeAliases(funcs: seq<Symbol>) returns (out: seq<Symbol>)
    requires InOrder(funcs)
    ensures out == Kept(funcs)
  {
    hide InOrder, KeptFrom, Addresses;
    var seen := {};
    out := [];
    NoneKept(funcs);
    for i := 0 to |funcs|
      invariant seen == Addresses(funcs[..i])
      invariant Kept(funcs) == out + KeptFrom(funcs, i)
    {
      SeenBefore(funcs, i);
      KeptStep(funcs, i);
      if funcs[i].addr !in seen {
        seen := seen + {funcs[i].addr};
        out := out + [funcs[i]];
      }
    }
  }

  lemma NoneKept(funcs: seq<Symbol>)
    ensures Addresses([]) == {} && KeptFrom(funcs, 0) == Kept(funcs) && KeptFrom(funcs, |funcs|) == []
  {
  }

  // ------------------------------------------------------------------------
  // Extents
  // ------------------------------------------------------------------------

  lemma {:induction false} ExtendedKeepsOrder(funcs: seq<Symbol>)
    requires InOrder(funcs)
    ensures InOrder(Extended(funcs))
  {
    forall i | 0 <= i < |funcs|
      ensures Extended(funcs)[i].addr == funcs[i].addr && Extended(funcs)[i].size == funcs[i].size
    {
      ExtendedAt(funcs, i);
    }
  }

  lemma {:induction false} DropExtended(funcs: seq<Symbol>, addr: nat)
    ensures DropAt(Extended(funcs), addr) == Extended(DropAt(funcs, addr))
  {
    if funcs != [] && funcs[0].addr == addr { DropExtended(funcs[1..], addr); }
  }

  /** Among symbols from `addr` on, the next start is that of the first one that is not at `addr`. */
  lemma {:induction false} NextStartIsDropped(rest: seq<Symbol>, addr: nat)
    requires forall i :: 0 <= i < |rest| ==> addr <= rest[i].addr
    ensures NextStart(rest, addr) == if DropAt(rest, addr) == [] then addr else DropAt(rest, addr)[0].addr
  {
    if rest != [] && rest[0].addr == addr { NextStartIsDropped(rest[1..], addr); }
  }

  /** The end of each kept function: its size, or the start of the next one. */
  predicate EndsRight(kept: seq<Symbol>) { forall k :: 0 <= k < |kept| ==> EndRight(kept, k) }

  predicate EndRight(kept: seq<Symbol>, k: nat)
    requires k < |kept|
  {
    kept[k].end == if kept[k].size > 0 then kept[k].addr + kept[k].size
                   else if k + 1 < |kept| then kept[k + 1].addr
                   else kept[k].addr
  }

  /** The functions of a symbol table. */
  function Functions(symbols: seq<Symbol>): seq<Symbol> { Kept(Extended(symbols)) }

  lemma {:induction false} FunctionsEndRight(symbols: seq<Symbol>)
    requires AsRead(symbols)
    ensures EndsRight(Functions(symbols))
    ensures symbols != [] ==> Functions(symbols) != [] && Functions(symbols)[0].addr == symbols[0].addr
    decreases |symbols|
  {
    hide Extended, Kept, DropAt;
    NoFunctions();
    if symbols != [] {
      var s, rest := symbols[0], symbols[1..];
      var after := DropAt(rest, s.addr);
      DroppedIsSuffix(rest, s.addr);
      FunctionsEndRight(after);
      FirstFunction(symbols);
      NextStartIsDropped(rest, s.addr);
      var r, t := Functions(symbols), Functions(after);
      forall k | 0 <= k < |r| ensures EndRight(r, k) {
        if k > 0 {
          assert EndRight(t, k - 1);
          assert r[k] == t[k - 1] && (k + 1 < |r| ==> r[k + 1] == t[k]);
        }
      }
    }
  }

  lemma NoFunctions()
    ensures Functions([]) == []
  {
  }

  lemma FirstFunction(symbols: seq<Symbol>)
    requires symbols != []
    ensures Functions(symbols) ==
              [Extend(symbols[0], symbols[1..])] + Functions(DropAt(symbols[1..], symbols[0].addr))
  {
    hide DropAt;
    DropExtended(symbols[1..], symbols[0].addr);
    assert Extended(symbols)[1..] == Extended(symbols[1..]);
  }

  lemma {:induction false} DroppedIsSuffix(funcs: seq<Symbol>, addr: nat)
    requires AsRead(funcs)
    ensures AsRead(DropAt(funcs, addr))
  {
    if funcs != [] && funcs[0].addr == addr { DroppedIsSuffix(funcs[1..], addr); }
  }

  // ------------------------------------------------------------------------
  // Bodies
  // ------------------------------------------------------------------------

  /** How many of the starts are at or below `addr` (the starts increase). */
  function BisectRight(funcs: seq<Symbol>, addr: nat): (i: nat)
    ensures i <= |funcs|
  {
    if funcs == [] || funcs[|funcs| - 1].addr <= addr then |funcs| else BisectRight(funcs[..|funcs| - 1], addr)
  }

  lemma {:induction false} BisectSplits(funcs: seq<Symbol>, addr: nat)
    requires Increasing(funcs)
    ensures var i := BisectRight(funcs, addr);
            && (forall k :: 0 <= k < i ==> funcs[k].addr <= addr)
            && (forall k :: i <= k < |funcs| ==> addr < funcs[k].addr)
  {
    if funcs != [] && addr < funcs[|funcs| - 1].addr {
      BisectSplits(funcs[..|funcs| - 1], addr);
    }
  }

  /** The function an instruction goes to. */
  function Owner(funcs: seq<Symbol>, addr: nat): (k: Option<nat>)
    ensures k.Some? ==> k.value < |funcs|
  {
    var i := BisectRight(funcs, addr);
    if i == 0 || !(funcs[i - 1].addr <= addr < funcs[i - 1].end) then None else Some(i - 1)
  }

  function Named(funcs: seq<Symbol>, addr: nat): Option<string> {
    var k := Owner(funcs, addr);
    if k.None? then None else Some(funcs[k.value].name)
  }

  /** The instructions that go to functions of this name, in their order. */
  function Body(funcs: seq<Symbol>, insns: seq<Insn>, name: string): seq<Insn> {
    if insns == [] then []
    else
      Body(funcs, insns[..|insns| - 1], name)
      + if Named(funcs, insns[|insns| - 1].addr) == Some(name) then [insns[|insns| - 1]] else []
  }

  method Split(funcs: seq<Symbol>, insns: seq<Insn>) returns (body: map<string, seq<Insn>>)
    requires Increasing(funcs)
    ensures body.Keys == set f | f in funcs :: f.name
    ensures forall name :: name in body ==> body[name] == Body(funcs, insns, name)
  {
    hide Owner, Increasing;
    body := map f | f in funcs :: f.name := [];
    assert insns[..0] == [];
    for n := 0 to |insns|
      invariant body.Keys == set f | f in funcs :: f.name
      invariant forall name :: name in body ==> body[name] == Body(funcs, insns[..n], name)
    {
      assert insns[..n + 1][..n] == insns[..n];
      var k := Owner(funcs, insns[n].addr);
      if k.Some? {
        var name := funcs[k.value].name;
        assert name in body;
        body := body[name := body[name] + [insns[n]]];
      }
    }
    assert insns[..|insns|] == insns;
  }

  // ------------------------------------------------------------------------
  // The extents partition the code
  // ------------------------------------------------------------------------

  predicate Covers(f: Symbol, addr: nat) { f.addr <= addr < f.end }

  ghost predicate Covered(funcs: seq<Symbol>, addr: nat) { exists k :: 0 <= k < |funcs| && Covers(funcs[k], addr) }

  predicate SizedApart(funcs: seq<Symbol>) {
    forall i, j :: 0 <= i < j < |funcs| && funcs[i].size > 0 && funcs[j].size > 0 ==> funcs[i].end <= funcs[j].addr
  }

  /** The last function has no size and starts inside another one. */
  predicate TrailingInside(funcs: seq<Symbol>) {
    && funcs != [] && funcs[|funcs| - 1].size == 0
    && exists k :: 0 <= k < |funcs| - 1 && funcs[|funcs| - 1].addr < funcs[k].end
  }

  lemma OwnerCovers(funcs: seq<Symbol>, addr: nat)
    requires Increasing(funcs) && EndsRight(funcs) && SizedApart(funcs) && Covered(funcs, addr)
        && !TrailingInside(funcs)
    ensures Owner(funcs, addr).Some?
  {
    BisectSplits(funcs, addr);
    var i :| 0 <= i < |funcs| && Covers(funcs[i], addr);
    var k := BisectRight(funcs, addr) - 1;
    assert funcs[i].addr <= addr && i <= k;
    assert EndRight(funcs, i) && EndRight(funcs, k);
  }

  /** Every instruction inside a function reaches a body, except when the last
      function has no size and lies inside another: exactly then some are lost. */
  lemma CoveredCodeIsKept(symbols: seq<Symbol>)
    requires AsRead(symbols) && SizedApart(Functions(symbols))
    ensures (forall addr :: Covered(Functions(symbols), addr) ==> Owner(Functions(symbols), addr).Some?)
            <==> !TrailingInside(Functions(symbols))
  {
    var funcs := Functions(symbols);
    FunctionsEndRight(symbols);
    ExtendedKeepsOrder(symbols);
    KeptIncreasing(Extended(symbols), -1);
    hide AsRead, Functions;
    if TrailingInside(funcs) {
      var last := funcs[|funcs| - 1];
      var k :| 0 <= k < |funcs| - 1 && last.addr < funcs[k].end;
      assert Covers(funcs[k], last.addr);
      BisectSplits(funcs, last.addr);
      assert EndRight(funcs, |funcs| - 1);
      assert BisectRight(funcs, last.addr) == |funcs| && last.end == last.addr;
      assert Owner(funcs, last.addr).None?;
    } else {
      forall addr | Covered(funcs, addr) ensures Owner(funcs, addr).Some? {
        OwnerCovers(funcs, addr);
      }
    }
  }

  /** Two functions, the second without a size and inside the first: the rest of the first is lost. */
  lemma TrailingLosesCode()
    ensures var symbols := [Symbol(0x800000, 16, "f", 0x800010), Symbol(0x800008, 0, "g", 0x800008)];
            && AsRead(symbols) && SizedApart(Functions(symbols))
            && Covered(Functions(symbols), 0x80000A) && Owner(Functions(symbols), 0x80000A).None?
  {
    var f, g := Symbol(0x800000, 16, "f", 0x800010), Symbol(0x800008, 0, "g", 0x800008);
    assert [f, g][1..] == [g] && [g][1..] == [] && DropAt([g], f.addr) == [g];
    FirstFunction([f, g]);
    FirstFunction([g]);
    NoFunctions();
    assert DropAt([], g.addr) == [];
    assert Functions([f, g]) == [f, g];
    assert Covers([f, g][0], 0x80000A);
    assert BisectRight([f, g], 0x80000A) == 2;
  }

  predicate UniqueNames(funcs: seq<Symbol>) {
    forall i, j :: 0 <= i < j < |funcs| ==> funcs[i].name != funcs[j].name
  }

  /** The instructions inside functions. */
  ghost function CoveredCode(funcs: seq<Symbol>, insns: seq<Insn>): seq<Insn> {
    if insns == [] then []
    else CoveredCode(funcs, insns[..|insns| - 1])
         + if Covered(funcs, insns[|insns| - 1].addr) then [insns[|insns| - 1]] else []
  }

  ghost function AllBodies(funcs: seq<Symbol>, insns: seq<Insn>, k: nat): multiset<Insn>
    requires k <= |funcs|
  {
    if k == 0 then multiset{} else AllBodies(funcs, insns, k - 1) + multiset(Body(funcs, insns, funcs[k - 1].name))
  }

  lemma {:induction false} EmptyBodies(funcs: seq<Symbol>, k: nat)
    requires k <= |funcs|
    ensures AllBodies(funcs, [], k) == multiset{}
  {
    if k > 0 { EmptyBodies(funcs, k - 1); }
  }

  lemma {:induction false} OneMoreInsn(funcs: seq<Symbol>, insns: seq<Insn>, k: nat)
    requires k <= |funcs| && UniqueNames(funcs) && insns != []
    ensures var n := |insns| - 1; var o := Owner(funcs, insns[n].addr);
            AllBodies(funcs, insns, k) == AllBodies(funcs, insns[..n], k)
                                          + if o.Some? && o.value < k then multiset{insns[n]} else multiset{}
  {
    hide Owner, Body, UniqueNames;
    if k > 0 {
      OneMoreInsn(funcs, insns, k - 1);
      BodyStep(funcs, insns, k - 1);
    }
  }

  lemma BodyStep(funcs: seq<Symbol>, insns: seq<Insn>, k: nat)
    requires k < |funcs| && UniqueNames(funcs) && insns != []
    ensures var n := |insns| - 1;
            multiset(Body(funcs, insns, funcs[k].name)) == multiset(Body(funcs, insns[..n], funcs[k].name))
              + if Owner(funcs, insns[n].addr) == Some(k) then multiset{insns[n]} else multiset{}
  {
    hide Owner;
    var n := |insns| - 1;
    var o := Owner(funcs, insns[n].addr);
    assert o.Some? ==> (funcs[o.value].name == funcs[k].name <==> o.value == k);
  }

  /** With unique names, the bodies together hold every instruction that is
      inside a function, each once. */
  lemma {:induction false} BodiesPartition(funcs: seq<Symbol>, insns: seq<Insn>)
    requires Increasing(funcs) && EndsRight(funcs) && SizedApart(funcs) && UniqueNames(funcs) && !TrailingInside(funcs)
    ensures AllBodies(funcs, insns, |funcs|) == multiset(CoveredCode(funcs, insns))
  {
    if insns == [] {
      EmptyBodies(funcs, |funcs|);
    } else {
      var n := |insns| - 1;
      BodiesPartition(funcs, insns[..n]);
      OneMoreInsn(funcs, insns, |funcs|);
      OwnerIffCovered(funcs, insns[n].addr);
    }
  }

  lemma OwnerIffCovered(funcs: seq<Symbol>, addr: nat)
    requires Increasing(funcs) && EndsRight(funcs) && SizedApart(funcs) && !TrailingInside(funcs)
    ensures Owner(funcs, addr).Some? <==> Covered(funcs, addr)
  {
    if Covered(funcs, addr) { OwnerCovers(funcs, addr); }
    if Owner(funcs, addr).Some? { assert Covers(funcs[Owner(funcs, addr).value], addr); }
  }
}
