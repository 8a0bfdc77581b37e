/** Comparing two ELF files function by function (tools/fncmp.py): addresses
    are replaced by names and offsets, so that only real changes differ. */
module FnCmp {
  import opened Common
  import opened Text
  import opened FunctionExtents

  const RAM_LO := 0x4000
  const RAM_HI := 0x14000
  const PROG_LO := 0x800000

  /** One ELF. `symbols` are all function symbols, in order and extended;
      `exact` gives the first of the names at an address, `labels` the literal
      label of an address whose bytes are loaded, `lc` the `.LC` addresses. */
  datatype Image = Image(
    symbols: seq<Symbol>, objects: seq<Symbol>, exact: map<nat, string>, lc: set<nat>,
    labels: map<nat, string>, insns: seq<Insn>)
  {
    function Funcs(): seq<Symbol> { Kept(symbols) }
  }

  function FuncAt(symbols: seq<Symbol>, addr: nat): Option<Symbol> {
    if symbols == [] then None
    else if symbols[0].addr <= addr < symbols[0].end then Some(symbols[0])
    else FuncAt(symbols[1..], addr)
  }

  /** An object covers at least its first address. */
  function ObjectEnd(s: Symbol): nat { if s.end > s.addr then s.end else s.addr + 1 }

  function ObjectAt(objects: seq<Symbol>, addr: nat): Option<Symbol> {
    if objects == [] then None
    else if objects[0].addr <= addr < ObjectEnd(objects[0]) then Some(objects[0])
    else ObjectAt(objects[1..], addr)
  }

  function OffsetText(off: nat): string { "+0x" + HexNumeral(off) }

  function NameText(name: string, off: nat): string {
    "<" + name + (if off == 0 then "" else OffsetText(off)) + ">"
  }

  predicate InRam(v: nat) { RAM_LO <= v < RAM_HI }

  predicate LoadsAddress(mnem: string) { mnem == "mov.sl" || mnem == "mov.l" }

  /** The text for one hex operand, or None to keep it. */
  function Resolve(img: Image, v: nat, imm: bool, cur: Symbol, mnem: string): Option<string> {
    if v < RAM_LO then None
    else if imm && InRam(v) && !LoadsAddress(mnem) then None
    else if InRam(v) || v >= PROG_LO then
      if cur.addr <= v < cur.end then Some(OffsetText(v - cur.addr))
      else
        var f := FuncAt(img.symbols, v);
        if f.Some? && f.value.addr <= v then Some(NameText(f.value.name, v - f.value.addr))
        else
          var o := ObjectAt(img.objects, v);
          if o.Some? && o.value.addr <= v then Some(NameText(o.value.name, v - o.value.addr))
          else if v in img.exact then Some("<" + img.exact[v] + ">")
          else if (v >= PROG_LO || v in img.lc) && v in img.labels then Some(img.labels[v])
          else None
    else None
  }

  function TokenText(imm: bool, text: string): string { (if imm then "#" else "") + text }

  function Replaced(img: Image, cur: Symbol, mnem: string, t: Token): string {
    match t
    case Plain(s) => s
    case Hex(imm, digits) =>
      var r := Resolve(img, HexValue(digits), imm, cur, mnem);
      TokenText(imm, if r.Some? then r.value else "0x" + digits)
  }

  function ReplacedAll(img: Image, cur: Symbol, mnem: string, ops: seq<Token>): string {
    if ops == [] then "" else Replaced(img, cur, mnem, ops[0]) + ReplacedAll(img, cur, mnem, ops[1..])
  }

  function Line(img: Image, cur: Symbol, insn: Insn): string {
    StripRight(insn.mnem + " " + ReplacedAll(img, cur, insn.mnem, insn.ops))
  }

  /** The last function of a name, as the name table has it. */
  function ByName(funcs: seq<Symbol>, name: string): Option<Symbol> {
    if funcs == [] then None
    else if funcs[|funcs| - 1].name == name then Some(funcs[|funcs| - 1])
    else ByName(funcs[..|funcs| - 1], name)
  }

  function Lines(img: Image, cur: Symbol, body: seq<Insn>): (r: seq<string>)
    ensures |r| == |body|
  {
    seq(|body|, i requires 0 <= i < |body| => Line(img, cur, body[i]))
  }

  function Names(img: Image): set<string> { set f | f in img.Funcs() :: f.name }

  function Normalised(img: Image, name: string): seq<string> {
    var cur := ByName(img.Funcs(), name);
    if cur.None? then [] else Lines(img, cur.value, Body(img.Funcs(), img.insns, name))
  }

  /** What a comparison is for: the same functions, each with the same normal form. */
  ghost predicate SameCode(a: Image, b: Image) {
    Names(a) == Names(b) && forall n :: n in Names(a) ==> Normalised(a, n) == Normalised(b, n)
  }

  method Compare(a: Image, b: Image) returns (exit: nat, differ: set<string>)
    ensures exit == if SameCode(a, b) then 0 else 1
    ensures forall n :: n in differ <==> n in Names(a) && n in Names(b) && Normalised(a, n) != Normalised(b, n)
  {
    hide Normalised, Names;
    var onlyA, onlyB := Names(a) - Names(b), Names(b) - Names(a);
    var todo := Names(a) * Names(b);
    differ := {};
    while todo != {}
      invariant todo <= Names(a) * Names(b)
      invariant forall n :: n in differ <==>
        n in Names(a) && n in Names(b) && n !in todo && Normalised(a, n) != Normalised(b, n)
      decreases todo
    {
      var n :| n in todo;
      todo := todo - {n};
      if Normalised(a, n) != Normalised(b, n) { differ := differ + {n}; }
    }
    if differ == {} && onlyA == {} && onlyB == {} {
      assert Names(a) == Names(b) by {
        forall n ensures n in Names(a) <==> n in Names(b) { assert n !in onlyA && n !in onlyB; }
      }
      exit := 0;
    } else {
      exit := 1;
    }
  }

  // ------------------------------------------------------------------------
  // Different addresses look different
  // ------------------------------------------------------------------------

  /** The offset text holds no '+' after its first character. */
  lemma OffsetDigits(off: nat)
    ensures forall i :: 0 < i < |OffsetText(off)| ==> OffsetText(off)[i] != '+'
  {
    HexBack(off);
    var h := HexNumeral(off);
    forall i | 0 < i < |OffsetText(off)| ensures OffsetText(off)[i] != '+' {
      if i >= 3 { assert OffsetText(off)[i] == h[i - 3] && IsHex(h[i - 3]); }
    }
  }

  lemma OffsetInjective(a: nat, b: nat)
    requires OffsetText(a) == OffsetText(b)
    ensures a == b
  {
    assert OffsetText(a)[3..] == HexNumeral(a) && OffsetText(b)[3..] == HexNumeral(b);
    HexBack(a);
    HexBack(b);
  }

  lemma NoPlusAfter(p: string, off: nat, k: int)
    requires |p| < k < |p + OffsetText(off)|
    ensures (p + OffsetText(off))[k] != '+'
  {
    OffsetDigits(off);
  }

  /** The place of the last '+' is where the offset starts. */
  lemma SameSplit(p: string, a: nat, q: string, b: nat)
    requires p + OffsetText(a) == q + OffsetText(b)
    ensures p == q && a == b
  {
    hide OffsetText;
    var s := p + OffsetText(a);
    OffsetDigits(a);
    OffsetDigits(b);
    OffsetStarts(a);
    OffsetStarts(b);
    assert s[|p|] == '+' && s[|q|] == '+';
    if |p| < |q| { NoPlusAfter(p, a, |q|); }
    if |q| < |p| { NoPlusAfter(q, b, |p|); }
    assert p == s[..|p|] && q == s[..|q|] && OffsetText(a) == s[|p|..] && OffsetText(b) == s[|q|..];
    OffsetInjective(a, b);
  }

  lemma OffsetStarts(off: nat)
    ensures OffsetText(off) != [] && OffsetText(off)[0] == '+'
  {
  }

  function Inner(name: string, off: nat): string { name + if off == 0 then "" else OffsetText(off) }

  lemma NameTextIsInner(name: string, off: nat)
    ensures NameText(name, off) == "<" + Inner(name, off) + ">"
  {
  }

  lemma InnerInjective(a: string, b: string)
    requires "<" + a + ">" == "<" + b + ">"
    ensures a == b
  {
    var s, t := "<" + a + ">", "<" + b + ">";
    assert s[1..|s| - 1] == a && t[1..|t| - 1] == b;
  }

  /** The names and offsets are the same, or one name looks like the other one with an offset. */
  predicate LooksSame(m: string, i: nat, n: string, j: nat) {
    || (m == n && i == j)
    || (i == 0 && j > 0 && m == n + OffsetText(j))
    || (j == 0 && i > 0 && n == m + OffsetText(i))
  }

  /** When two names and offsets print the same. */
  lemma SameTextIff(m: string, i: nat, n: string, j: nat)
    ensures NameText(m, i) == NameText(n, j) <==> LooksSame(m, i, n, j)
  {
    NameTextIsInner(m, i);
    NameTextIsInner(n, j);
    hide NameText;
    if NameText(m, i) == NameText(n, j) { InnerInjective(Inner(m, i), Inner(n, j)); }
    assert NameText(m, i) == NameText(n, j) <==> Inner(m, i) == Inner(n, j);
    hide OffsetText;
    if i > 0 && j > 0 {
      if Inner(m, i) == Inner(n, j) { SameSplit(m, i, n, j); }
    } else if i == 0 && j == 0 {
      assert Inner(m, i) == m && Inner(n, j) == n;
    } else if i == 0 {
      OffsetStarts(j);
      assert Inner(m, i) == m && Inner(n, j) == n + OffsetText(j);
      assert m == n ==> |m + OffsetText(j)| > |n|;
    } else {
      OffsetStarts(i);
      assert Inner(n, j) == n && Inner(m, i) == m + OffsetText(i);
    }
  }

  /** A function or object a token can be named after. */
  predicate IsSymbol(img: Image, s: Symbol) { s in img.symbols || s in img.objects }

  predicate SymbolCovered(img: Image, v: nat) { FuncAt(img.symbols, v).Some? || ObjectAt(img.objects, v).Some? }

  lemma {:induction false} FuncAtIn(symbols: seq<Symbol>, v: nat)
    ensures var f := FuncAt(symbols, v); f.Some? ==> f.value in symbols && f.value.addr <= v < f.value.end
  {
    if symbols != [] { FuncAtIn(symbols[1..], v); }
  }

  lemma {:induction false} ObjectAtIn(objects: seq<Symbol>, v: nat)
    ensures var o := ObjectAt(objects, v); o.Some? ==> o.value in objects && o.value.addr <= v < ObjectEnd(o.value)
  {
    if objects != [] { ObjectAtIn(objects[1..], v); }
  }

  /** The symbol a covered address outside the current function is named after. */
  function NamedAfter(img: Image, v: nat): Symbol
    requires SymbolCovered(img, v)
  {
    if FuncAt(img.symbols, v).Some? then FuncAt(img.symbols, v).value else ObjectAt(img.objects, v).value
  }

  lemma ResolvedCovered(img: Image, v: nat, imm: bool, cur: Symbol, mnem: string)
    requires SymbolCovered(img, v) && Resolve(img, v, imm, cur, mnem).Some?
    ensures var s := NamedAfter(img, v);
            && IsSymbol(img, s) && s.addr <= v
            && Resolve(img, v, imm, cur, mnem).value ==
                 if cur.addr <= v < cur.end then OffsetText(v - cur.addr) else NameText(s.name, v - s.addr)
  {
    hide OffsetText, NameText;
    FuncAtIn(img.symbols, v);
    ObjectAtIn(img.objects, v);
  }

  predicate Inside(cur: Symbol, v: nat) { cur.addr <= v < cur.end }

  /** An address that a symbol covers is replaced exactly if it is in program
      memory, or in RAM and no immediate of a mnemonic that loads no address. */
  lemma ReplacedIffAddress(img: Image, v: nat, imm: bool, cur: Symbol, mnem: string)
    requires Inside(cur, v) || SymbolCovered(img, v)
    ensures Resolve(img, v, imm, cur, mnem).Some? <==>
              v >= 0x800000 || (0x4000 <= v < 0x14000 && (imm ==> mnem == "mov.sl" || mnem == "mov.l"))
  {
    hide OffsetText, NameText;
    FuncAtIn(img.symbols, v);
    ObjectAtIn(img.objects, v);
  }

  /** The texts two resolved addresses get, in one function. */
  lemma ResolvedSameIff(img: Image, cur: Symbol, v: nat, immV: bool, mnemV: string, w: nat, immW: bool, mnemW: string)
    requires SymbolCovered(img, v) && SymbolCovered(img, w)
    requires Resolve(img, v, immV, cur, mnemV).Some? && Resolve(img, w, immW, cur, mnemW).Some?
    ensures var s, t := NamedAfter(img, v), NamedAfter(img, w);
            && s.addr <= v && t.addr <= w
            && (Resolve(img, v, immV, cur, mnemV) == Resolve(img, w, immW, cur, mnemW) <==>
                  if Inside(cur, v) || Inside(cur, w) then v == w
                  else LooksSame(s.name, v - s.addr, t.name, w - t.addr))
  {
    hide Resolve, IsSymbol, SymbolCovered, NameText, OffsetText, LooksSame;
    ResolvedCovered(img, v, immV, cur, mnemV);
    ResolvedCovered(img, w, immW, cur, mnemW);
    var s, t := NamedAfter(img, v), NamedAfter(img, w);
    hide NamedAfter;
    if Inside(cur, v) && Inside(cur, w) {
      if OffsetText(v - cur.addr) == OffsetText(w - cur.addr) { OffsetInjective(v - cur.addr, w - cur.addr); }
    } else if Inside(cur, v) {
      OffsetIsNoName(v - cur.addr, t.name, w - t.addr);
    } else if Inside(cur, w) {
      OffsetIsNoName(w - cur.addr, s.name, v - s.addr);
    } else {
      SameTextIff(s.name, v - s.addr, t.name, w - t.addr);
    }
  }

  /** '#' marks the immediate ones. */
  lemma TokenTextSameIff(immV: bool, x: string, immW: bool, y: string)
    requires x != [] && y != [] && x[0] != '#' && y[0] != '#'
    ensures TokenText(immV, x) == TokenText(immW, y) <==> immV == immW && x == y
  {
    var a, b := TokenText(immV, x), TokenText(immW, y);
    assert immV ==> a[1..] == x && a[0] == '#';
    assert immW ==> b[1..] == y && b[0] == '#';
    assert !immV ==> a == x;
    assert !immW ==> b == y;
  }

  /** A resolved text starts with '<' or '+', a kept one with '0'. */
  lemma ResolvedStarts(img: Image, v: nat, imm: bool, cur: Symbol, mnem: string)
    requires SymbolCovered(img, v) && Resolve(img, v, imm, cur, mnem).Some?
    ensures var x := Resolve(img, v, imm, cur, mnem).value; x != [] && x[0] != '0' && x[0] != '#'
  {
    ResolvedCovered(img, v, imm, cur, mnem);
    hide Resolve, SymbolCovered, NamedAfter;
  }

  /** In one function two hex operands whose addresses symbols cover, replaced
      or kept, become the same text exactly if both are immediate or neither,
      and both are kept with the same digits, or both are replaced and are one
      address of this function, or two whose names and offsets look the same. */
  lemma ReplacedSameIff(img: Image, cur: Symbol, immV: bool, dV: string, mnemV: string,
                        immW: bool, dW: string, mnemW: string)
    requires SymbolCovered(img, HexValue(dV)) && SymbolCovered(img, HexValue(dW))
    ensures var v, w := HexValue(dV), HexValue(dW);
            var x, y := Resolve(img, v, immV, cur, mnemV), Resolve(img, w, immW, cur, mnemW);
            var s, t := NamedAfter(img, v), NamedAfter(img, w);
            && (x.Some? && y.Some? ==> s.addr <= v && t.addr <= w)
            && (Replaced(img, cur, mnemV, Hex(immV, dV)) == Replaced(img, cur, mnemW, Hex(immW, dW)) <==>
                  immV == immW
                  && if x.None? || y.None? then x == y && dV == dW
                     else if Inside(cur, v) || Inside(cur, w) then v == w
                     else LooksSame(s.name, v - s.addr, t.name, w - t.addr))
  {
    hide Resolve, SymbolCovered, NamedAfter, LooksSame, HexValue, TokenText;
    var v, w := HexValue(dV), HexValue(dW);
    var x, y := Resolve(img, v, immV, cur, mnemV), Resolve(img, w, immW, cur, mnemW);
    if x.Some? { ResolvedStarts(img, v, immV, cur, mnemV); }
    if y.Some? { ResolvedStarts(img, w, immW, cur, mnemW); }
    if x.Some? && y.Some? { ResolvedSameIff(img, cur, v, immV, mnemV, w, immW, mnemW); }
    assert ("0x" + dV)[2..] == dV && ("0x" + dW)[2..] == dW;
    TokenTextSameIff(immV, if x.Some? then x.value else "0x" + dV, immW, if y.Some? then y.value else "0x" + dW);
  }

  /** Two symbols with different names, neither of which looks like the other with an offset. */
  ghost predicate ClearPair(s: Symbol, t: Symbol) {
    && (s.name == t.name ==> s.addr == t.addr)
    && forall off: nat :: off > 0 ==> t.name != s.name + OffsetText(off) && s.name != t.name + OffsetText(off)
  }

  /** Inside one function two different covered addresses never become the same
      text, replaced or kept, if the names of their two symbols are clear. */
  lemma TargetsDistinguished(img: Image, cur: Symbol, immV: bool, dV: string, mnemV: string,
                             immW: bool, dW: string, mnemW: string)
    requires SymbolCovered(img, HexValue(dV)) && SymbolCovered(img, HexValue(dW))
    requires ClearPair(NamedAfter(img, HexValue(dV)), NamedAfter(img, HexValue(dW)))
    requires Replaced(img, cur, mnemV, Hex(immV, dV)) == Replaced(img, cur, mnemW, Hex(immW, dW))
    ensures HexValue(dV) == HexValue(dW)
  {
    ReplacedSameIff(img, cur, immV, dV, mnemV, immW, dW, mnemW);
    hide Replaced, Resolve, SymbolCovered, NamedAfter, HexValue, OffsetText;
  }

  lemma OffsetIsNoName(off: nat, name: string, i: nat)
    ensures OffsetText(off) != NameText(name, i)
  {
    assert OffsetText(off)[0] == '+' && NameText(name, i)[0] == '<';
  }

  /** With a name like "f+0x4" beside "f", two addresses do become the same text. */
  lemma PlusInNameConfuses()
    ensures var f, g := Symbol(0x800000, 8, "f", 0x800008), Symbol(0x800010, 8, "f+0x4", 0x800018);
            var cur := Symbol(0x800020, 8, "h", 0x800028);
            var img := Image([f, g, cur], [], map[], {}, map[], []);
            && Resolve(img, 0x800004, false, cur, "call") == Resolve(img, 0x800010, false, cur, "call")
            && Resolve(img, 0x800004, false, cur, "call").Some?
  {
    var f, g := Symbol(0x800000, 8, "f", 0x800008), Symbol(0x800010, 8, "f+0x4", 0x800018);
    var cur := Symbol(0x800020, 8, "h", 0x800028);
    assert FuncAt([f, g, cur], 0x800004) == Some(f);
    assert [f, g, cur][1..] == [g, cur];
    assert FuncAt([g, cur], 0x800010) == Some(g);
    assert HexNumeral(4) == "4";
    assert NameText("f", 4) == "<" + "f" + "+0x4" + ">" == "<" + "f+0x4" + ">" == NameText("f+0x4", 0);
  }
}
