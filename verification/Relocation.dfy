/** One program linked in two places (tools/fncmp.py): its functions, objects
    and literals may go anywhere in their regions. The normal form depends on
    the program alone, so two placements of it always compare equal. */
module Relocation {
  import opened Common
  import opened Text
  import opened FunctionExtents
  import opened FnCmp

  // ------------------------------------------------------------------------
  // A program without addresses
  // ------------------------------------------------------------------------

  datatype Target = Func(i: nat) | Object(i: nat) | Exact(i: nat) | Literal(i: nat)

  datatype Operand = Text(s: string) | Const(imm: bool, digits: string) | Ref(imm: bool, target: Target, off: nat)

  datatype Code = Code(off: nat, mnem: string, ops: seq<Operand>)

  datatype Function = Function(name: string, extent: nat, code: seq<Code>)

  /** An object, a symbol that is only named on an exact hit, or a literal with its label. */
  datatype Item = Item(name: string, extent: nat, inRam: bool)

  datatype Program = Program(funcs: seq<Function>, objects: seq<Item>, exact: seq<Item>, literals: seq<Item>)

  /** Where the linker put everything; the slots are the places in the image's symbol lists. */
  datatype Layout = Layout(
    funcs: seq<nat>, funcSlots: seq<nat>, objects: seq<nat>, objectSlots: seq<nat>, exact: seq<nat>, literals: seq<nat>)

  function Count(p: Program, t: Target): nat {
    match t
    case Func(_) => |p.funcs|
    case Object(_) => |p.objects|
    case Exact(_) => |p.exact|
    case Literal(_) => |p.literals|
  }

  predicate Known(p: Program, t: Target) { t.i < Count(p, t) }

  /** The addresses named after a target: an object covers at least one. */
  function Extent(p: Program, t: Target): nat
    requires Known(p, t)
  {
    match t
    case Func(i) => p.funcs[i].extent
    case Object(i) => if p.objects[i].extent > 0 then p.objects[i].extent else 1
    case Exact(_) => 1
    case Literal(_) => 1
  }

  predicate TargetInRam(p: Program, t: Target)
    requires Known(p, t)
  {
    match t
    case Func(_) => false
    case Object(i) => p.objects[i].inRam
    case Exact(i) => p.exact[i].inRam
    case Literal(i) => p.literals[i].inRam
  }

  /** The compiler loads a RAM address only with the two address mnemonics. */
  predicate GoodOperand(p: Program, mnem: string, op: Operand) {
    op.Ref? ==> Known(p, op.target) && op.off < Extent(p, op.target)
                && (op.imm && TargetInRam(p, op.target) ==> mnem == "mov.sl" || mnem == "mov.l")
  }

  predicate GoodCode(p: Program, c: Code) { forall j :: 0 <= j < |c.ops| ==> GoodOperand(p, c.mnem, c.ops[j]) }

  predicate GoodFunction(p: Program, f: Function) { forall n :: 0 <= n < |f.code| ==> GoodCode(p, f.code[n]) }

  predicate GoodProgram(p: Program) {
    && (forall i, j :: 0 <= i < j < |p.funcs| ==> p.funcs[i].name != p.funcs[j].name)
    && (forall i :: 0 <= i < |p.funcs| ==> GoodFunction(p, p.funcs[i]))
  }

  // ------------------------------------------------------------------------
  // Its normal form
  // ------------------------------------------------------------------------

  function RefText(p: Program, cur: nat, t: Target, off: nat): string
    requires Known(p, t)
  {
    match t
    case Func(i) => if i == cur then OffsetText(off) else NameText(p.funcs[i].name, off)
    case Object(i) => NameText(p.objects[i].name, off)
    case Exact(i) => "<" + p.exact[i].name + ">"
    case Literal(i) => p.literals[i].name
  }

  function OperandText(p: Program, cur: nat, op: Operand): string {
    match op
    case Text(s) => s
    case Const(imm, digits) => TokenText(imm, "0x" + digits)
    case Ref(imm, t, off) => if Known(p, t) then TokenText(imm, RefText(p, cur, t, off)) else ""
  }

  function OperandTexts(p: Program, cur: nat, ops: seq<Operand>): string {
    if ops == [] then "" else OperandText(p, cur, ops[0]) + OperandTexts(p, cur, ops[1..])
  }

  function CodeLine(p: Program, cur: nat, c: Code): string { StripRight(c.mnem + " " + OperandTexts(p, cur, c.ops)) }

  function NormalForm(p: Program, cur: nat): (r: seq<string>)
    requires cur < |p.funcs|
    ensures |r| == |p.funcs[cur].code|
  {
    seq(|p.funcs[cur].code|, n requires 0 <= n < |p.funcs[cur].code| => CodeLine(p, cur, p.funcs[cur].code[n]))
  }

  // ------------------------------------------------------------------------
  // Placing it
  // ------------------------------------------------------------------------

  predicate Fits(p: Program, l: Layout) {
    && |l.funcs| == |l.funcSlots| == |p.funcs| && |l.objects| == |l.objectSlots| == |p.objects|
    && |l.exact| == |p.exact| && |l.literals| == |p.literals|
  }

  function Address(p: Program, l: Layout, t: Target): nat
    requires Fits(p, l) && Known(p, t)
  {
    match t
    case Func(i) => l.funcs[i]
    case Object(i) => l.objects[i]
    case Exact(i) => l.exact[i]
    case Literal(i) => l.literals[i]
  }

  function PlacedOperand(p: Program, l: Layout, op: Operand): Token
    requires Fits(p, l)
  {
    match op
    case Text(s) => Token.Plain(s)
    case Const(imm, digits) => Hex(imm, digits)
    case Ref(imm, t, off) => if Known(p, t) then Hex(imm, HexNumeral(Address(p, l, t) + off)) else Token.Plain("")
  }

  function PlacedOperands(p: Program, l: Layout, ops: seq<Operand>): seq<Token>
    requires Fits(p, l)
  {
    if ops == [] then [] else [PlacedOperand(p, l, ops[0])] + PlacedOperands(p, l, ops[1..])
  }

  function PlacedCode(p: Program, l: Layout, base: nat, c: Code): Insn
    requires Fits(p, l)
  {
    Insn(base + c.off, c.mnem, PlacedOperands(p, l, c.ops))
  }

  function PlacedBody(p: Program, l: Layout, cur: nat): (b: seq<Insn>)
    requires Fits(p, l) && cur < |p.funcs|
    ensures |b| == |p.funcs[cur].code|
  {
    seq(|p.funcs[cur].code|,
        n requires 0 <= n < |p.funcs[cur].code| => PlacedCode(p, l, l.funcs[cur], p.funcs[cur].code[n]))
  }

  /** Symbols of different addresses do not overlap. */
  predicate Apart(symbols: seq<Symbol>) {
    InOrder(symbols)
    && forall i, j :: 0 <= i < j < |symbols| && symbols[i].addr < symbols[j].addr ==> symbols[i].end <= symbols[j].addr
  }

  predicate ObjectsApart(objects: seq<Symbol>) {
    InOrder(objects)
    && forall i, j :: 0 <= i < j < |objects| && objects[i].addr < objects[j].addr ==>
         ObjectEnd(objects[i]) <= objects[j].addr
  }

  predicate FuncPlaced(p: Program, l: Layout, img: Image, i: nat)
    requires Fits(p, l) && i < |p.funcs|
  {
    var k := l.funcSlots[i];
    && l.funcs[i] >= PROG_LO
    && k < |img.Funcs()|
    && img.Funcs()[k].name == p.funcs[i].name && img.Funcs()[k].addr == l.funcs[i]
    && img.Funcs()[k].end == l.funcs[i] + p.funcs[i].extent
    && Body(img.Funcs(), img.insns, p.funcs[i].name) == PlacedBody(p, l, i)
  }

  predicate InRegion(t: Item, addr: nat, extent: nat) {
    if t.inRam then RAM_LO <= addr && addr + extent <= RAM_HI else addr >= PROG_LO
  }

  predicate NoFunctionAt(img: Image, addr: nat) { FuncAt(img.symbols, addr).None? }

  predicate NothingAt(img: Image, addr: nat) { NoFunctionAt(img, addr) && ObjectAt(img.objects, addr).None? }

  ghost predicate ObjectPlaced(p: Program, l: Layout, img: Image, i: nat)
    requires Fits(p, l) && i < |p.objects|
  {
    var k, addr, extent := l.objectSlots[i], l.objects[i], Extent(p, Object(i));
    && InRegion(p.objects[i], addr, extent)
    && k < |img.objects|
    && img.objects[k].name == p.objects[i].name && img.objects[k].addr == addr
        && ObjectEnd(img.objects[k]) == addr + extent
    && (forall j :: 0 <= j < k ==> img.objects[j].addr != addr)
    && (forall v :: addr <= v < addr + extent ==> NoFunctionAt(img, v))
  }

  predicate ExactPlaced(p: Program, l: Layout, img: Image, i: nat)
    requires Fits(p, l) && i < |p.exact|
  {
    var addr := l.exact[i];
    InRegion(p.exact[i], addr, 1) && NothingAt(img, addr) && addr in img.exact && img.exact[addr] == p.exact[i].name
  }

  predicate LiteralPlaced(p: Program, l: Layout, img: Image, i: nat)
    requires Fits(p, l) && i < |p.literals|
  {
    var addr := l.literals[i];
    && InRegion(p.literals[i], addr, 1) && NothingAt(img, addr) && addr !in img.exact
    && (addr >= PROG_LO || addr in img.lc) && addr in img.labels && img.labels[addr] == p.literals[i].name
  }

  /** A constant is kept: it is no address of a program or data region, or an
      immediate no address is loaded with, or nothing is there. */
  predicate ConstantKept(img: Image, mnem: string, imm: bool, v: nat) {
    || v < RAM_LO || (RAM_HI <= v < PROG_LO) || (imm && InRam(v) && !LoadsAddress(mnem))
    || (NothingAt(img, v) && v !in img.exact && !((v >= PROG_LO || v in img.lc) && v in img.labels))
  }

  predicate ConstantsKept(p: Program, img: Image) {
    forall i, n, j :: 0 <= i < |p.funcs| && 0 <= n < |p.funcs[i].code| && 0 <= j < |p.funcs[i].code[n].ops| ==>
      KeptIfConstant(img, p.funcs[i].code[n].mnem, p.funcs[i].code[n].ops[j])
  }

  predicate KeptIfConstant(img: Image, mnem: string, op: Operand) {
    op.Const? ==> ConstantKept(img, mnem, op.imm, HexValue(op.digits))
  }

  /** The image is the program at this layout. */
  ghost predicate Placed(p: Program, l: Layout, img: Image) {
    && Fits(p, l) && Apart(img.symbols) && ObjectsApart(img.objects)
    && (forall i :: 0 <= i < |p.funcs| ==> FuncPlaced(p, l, img, i))
    && (forall k :: 0 <= k < |img.Funcs()| ==> k in l.funcSlots)
    && (forall i :: 0 <= i < |p.objects| ==> ObjectPlaced(p, l, img, i))
    && (forall i :: 0 <= i < |p.exact| ==> ExactPlaced(p, l, img, i))
    && (forall i :: 0 <= i < |p.literals| ==> LiteralPlaced(p, l, img, i))
    && ConstantsKept(p, img)
  }

  // ------------------------------------------------------------------------
  // What a look-up finds
  // ------------------------------------------------------------------------

  lemma {:induction false} DropSkips(symbols: seq<Symbol>, addr: nat, v: nat)
    requires forall i :: 0 <= i < |symbols| && symbols[i].addr == addr ==> symbols[i].end <= v
    ensures FuncAt(symbols, v) == FuncAt(DropAt(symbols, addr), v)
  {
    if symbols != [] && symbols[0].addr == addr { DropSkips(symbols[1..], addr, v); }
  }

  lemma {:induction false} DropApart(symbols: seq<Symbol>, addr: nat)
    requires Apart(symbols)
    ensures Apart(DropAt(symbols, addr))
  {
    if symbols != [] && symbols[0].addr == addr { DropApart(symbols[1..], addr); }
  }

  lemma {:induction false} KeptIn(symbols: seq<Symbol>, s: Symbol)
    requires s in Kept(symbols)
    ensures s in symbols
    decreases |symbols|
  {
    if symbols != [] && s != symbols[0] {
      KeptIn(DropAt(symbols[1..], symbols[0].addr), s);
      DropIn(symbols[1..], symbols[0].addr, s);
    }
  }

  lemma {:induction false} DropIn(symbols: seq<Symbol>, addr: nat, s: Symbol)
    requires s in DropAt(symbols, addr)
    ensures s in symbols
  {
    if symbols != [] && symbols[0].addr == addr { DropIn(symbols[1..], addr, s); }
  }

  /** An address inside a kept function is found to be that function's. */
  lemma {:induction false} FunctionFound(symbols: seq<Symbol>, k: nat, v: nat)
    requires Apart(symbols) && k < |Kept(symbols)| && Covers(Kept(symbols)[k], v)
    ensures FuncAt(symbols, v) == Some(Kept(symbols)[k])
    decreases |symbols|
  {
    var s := Kept(symbols)[k];
    if k > 0 {
      var rest := symbols[1..];
      var after := DropAt(rest, symbols[0].addr);
      assert s == Kept(after)[k - 1];
      DropApart(rest, symbols[0].addr);
      FunctionFound(after, k - 1, v);
      KeptIn(after, s);
      KeptAbove(symbols, s);
      EndBefore(symbols, s, v);
      DropSkips(rest, symbols[0].addr, v);
    }
  }

  lemma KeptAbove(symbols: seq<Symbol>, s: Symbol)
    requires InOrder(symbols) && symbols != [] && s in DropAt(symbols[1..], symbols[0].addr)
    ensures symbols[0].addr < s.addr
  {
    DropAtRest(symbols[1..], symbols[0].addr);
  }

  /** Whatever shares the first address ends before a symbol of a higher one. */
  lemma EndBefore(symbols: seq<Symbol>, s: Symbol, v: nat)
    requires Apart(symbols) && symbols != [] && s in DropAt(symbols[1..], symbols[0].addr)
    requires symbols[0].addr < s.addr <= v
    ensures forall i :: 0 <= i < |symbols| && symbols[i].addr == symbols[0].addr ==> symbols[i].end <= v
  {
    DropIn(symbols[1..], symbols[0].addr, s);
    var j :| 0 <= j < |symbols[1..]| && symbols[1..][j] == s;
    assert symbols[j + 1] == s;
  }

  lemma {:induction false} ObjectFound(objects: seq<Symbol>, k: nat, v: nat)
    requires ObjectsApart(objects) && k < |objects| && objects[k].addr <= v < ObjectEnd(objects[k])
    requires forall j :: 0 <= j < k ==> objects[j].addr != objects[k].addr
    ensures ObjectAt(objects, v) == Some(objects[k])
  {
    if k > 0 {
      assert ObjectEnd(objects[0]) <= objects[k].addr;
      ObjectFound(objects[1..], k - 1, v);
    }
  }

  // ------------------------------------------------------------------------
  // References become text that does not depend on the layout
  // ------------------------------------------------------------------------

  /** The current function of a placed image. */
  function Current(p: Program, l: Layout, img: Image, cur: nat): Symbol
    requires Fits(p, l) && cur < |p.funcs| && FuncPlaced(p, l, img, cur)
  {
    img.Funcs()[l.funcSlots[cur]]
  }

  lemma NotInCurrent(p: Program, l: Layout, img: Image, cur: nat, v: nat)
    requires Placed(p, l, img) && cur < |p.funcs| && NoFunctionAt(img, v)
    ensures FuncPlaced(p, l, img, cur) && !Covers(Current(p, l, img, cur), v)
  {
    hide Apart, ObjectsApart, ObjectPlaced, ExactPlaced, LiteralPlaced, ConstantsKept;
    assert FuncPlaced(p, l, img, cur);
    if Covers(Current(p, l, img, cur), v) { FunctionFound(img.symbols, l.funcSlots[cur], v); }
  }

  lemma FuncResolves(p: Program, l: Layout, img: Image, cur: nat, mnem: string, imm: bool, i: nat, off: nat)
    requires GoodProgram(p) && Placed(p, l, img) && cur < |p.funcs| && i < |p.funcs| && off < p.funcs[i].extent
    ensures FuncPlaced(p, l, img, cur)
    ensures Resolve(img, l.funcs[i] + off, imm, Current(p, l, img, cur), mnem) == Some(RefText(p, cur, Func(i), off))
  {
    hide Apart, ObjectsApart, ObjectPlaced, ExactPlaced, LiteralPlaced, ConstantsKept, NameText, OffsetText, FuncAt,
        ObjectAt;
    assert FuncPlaced(p, l, img, cur) && FuncPlaced(p, l, img, i);
    var v, c := l.funcs[i] + off, Current(p, l, img, cur);
    FunctionFound(img.symbols, l.funcSlots[i], v);
    if Covers(c, v) { FunctionFound(img.symbols, l.funcSlots[cur], v); }
  }

  lemma ObjectResolves(p: Program, l: Layout, img: Image, cur: nat, mnem: string, imm: bool, i: nat, off: nat)
    requires Placed(p, l, img) && cur < |p.funcs| && i < |p.objects| && off < Extent(p, Object(i))
    requires imm && p.objects[i].inRam ==> LoadsAddress(mnem)
    ensures FuncPlaced(p, l, img, cur)
    ensures Resolve(img, l.objects[i] + off, imm, Current(p, l, img, cur), mnem)
        == Some(RefText(p, cur, Object(i), off))
  {
    hide Apart, ObjectsApart, ExactPlaced, LiteralPlaced, ConstantsKept, NameText, OffsetText, FuncAt, ObjectAt,
        LoadsAddress;
    hide FuncPlaced, Current, Covers;
    assert ObjectPlaced(p, l, img, i);
    var v := l.objects[i] + off;
    NotInCurrent(p, l, img, cur, v);
    ObjectFound(img.objects, l.objectSlots[i], v);
    OutsideCurrent(img, v, imm, Current(p, l, img, cur), mnem);
  }

  /** Resolving where no function is. */
  lemma OutsideCurrent(img: Image, v: nat, imm: bool, cur: Symbol, mnem: string)
    requires !Covers(cur, v) && NoFunctionAt(img, v)
    requires RAM_LO <= v && !(imm && InRam(v) && !LoadsAddress(mnem)) && (InRam(v) || v >= PROG_LO)
    ensures Resolve(img, v, imm, cur, mnem) ==
              var o := ObjectAt(img.objects, v);
              if o.Some? && o.value.addr <= v then Some(NameText(o.value.name, v - o.value.addr))
              else if v in img.exact then Some("<" + img.exact[v] + ">")
              else if (v >= PROG_LO || v in img.lc) && v in img.labels then Some(img.labels[v])
              else None
  {
  }

  lemma NamedResolves(p: Program, l: Layout, img: Image, cur: nat, mnem: string, imm: bool, t: Target)
    requires Placed(p, l, img) && cur < |p.funcs| && (t.Exact? || t.Literal?) && Known(p, t)
    requires imm && TargetInRam(p, t) ==> LoadsAddress(mnem)
    ensures FuncPlaced(p, l, img, cur)
    ensures Resolve(img, Address(p, l, t), imm, Current(p, l, img, cur), mnem) == Some(RefText(p, cur, t, 0))
  {
    hide Apart, ObjectsApart, ObjectPlaced, ConstantsKept, NameText, OffsetText, FuncAt, ObjectAt, LoadsAddress;
    hide FuncPlaced, Current, Covers;
    if t.Exact? { assert ExactPlaced(p, l, img, t.i); } else { assert LiteralPlaced(p, l, img, t.i); }
    var v := Address(p, l, t);
    NotInCurrent(p, l, img, cur, v);
    OutsideCurrent(img, v, imm, Current(p, l, img, cur), mnem);
  }

  lemma ConstantResolves(p: Program, l: Layout, img: Image, cur: nat, mnem: string, imm: bool, v: nat)
    requires Placed(p, l, img) && cur < |p.funcs| && ConstantKept(img, mnem, imm, v)
    ensures FuncPlaced(p, l, img, cur)
    ensures Resolve(img, v, imm, Current(p, l, img, cur), mnem) == None
  {
    hide Apart, ObjectsApart, ObjectPlaced, ConstantsKept, ExactPlaced, LiteralPlaced, FuncAt, ObjectAt, LoadsAddress;
    hide FuncPlaced, Current, Covers;
    if !(v < RAM_LO || (RAM_HI <= v < PROG_LO) || (imm && InRam(v) && !LoadsAddress(mnem))) {
      NotInCurrent(p, l, img, cur, v);
      OutsideCurrent(img, v, imm, Current(p, l, img, cur), mnem);
    }
  }

  lemma RefResolves(p: Program, l: Layout, img: Image, cur: nat, mnem: string, imm: bool, t: Target, off: nat)
    requires GoodProgram(p) && Placed(p, l, img) && cur < |p.funcs|
    requires GoodOperand(p, mnem, Ref(imm, t, off))
    ensures FuncPlaced(p, l, img, cur)
    ensures Resolve(img, Address(p, l, t) + off, imm, Current(p, l, img, cur), mnem) == Some(RefText(p, cur, t, off))
  {
    hide Placed, Resolve, GoodProgram, FuncPlaced, Current;
    match t
    case Func(i) => FuncResolves(p, l, img, cur, mnem, imm, i, off);
    case Object(i) => ObjectResolves(p, l, img, cur, mnem, imm, i, off);
    case Exact(_) => NamedResolves(p, l, img, cur, mnem, imm, t);
    case Literal(_) => NamedResolves(p, l, img, cur, mnem, imm, t);
  }

  lemma OperandNormal(p: Program, l: Layout, img: Image, cur: nat, mnem: string, op: Operand)
    requires GoodProgram(p) && Placed(p, l, img) && cur < |p.funcs| && GoodOperand(p, mnem, op)
    requires KeptIfConstant(img, mnem, op)
    ensures FuncPlaced(p, l, img, cur)
    ensures Replaced(img, Current(p, l, img, cur), mnem, PlacedOperand(p, l, op)) == OperandText(p, cur, op)
  {
    hide Resolve, GoodProgram, FuncPlaced, Current, RefText;
    match op
    case Text(_) => NotInCurrentPlaced(p, l, img, cur);
    case Const(imm, digits) => ConstantResolves(p, l, img, cur, mnem, imm, HexValue(digits));
    case Ref(imm, t, off) =>
      RefResolves(p, l, img, cur, mnem, imm, t, off);
      HexBack(Address(p, l, t) + off);
  }

  lemma NotInCurrentPlaced(p: Program, l: Layout, img: Image, cur: nat)
    requires Placed(p, l, img) && cur < |p.funcs|
    ensures FuncPlaced(p, l, img, cur)
  {
  }

  lemma {:induction false} OperandsNormal(p: Program, l: Layout, img: Image, cur: nat, mnem: string, ops: seq<Operand>)
    requires GoodProgram(p) && Placed(p, l, img) && cur < |p.funcs|
    requires forall j :: 0 <= j < |ops| ==> GoodOperand(p, mnem, ops[j]) && KeptIfConstant(img, mnem, ops[j])
    ensures FuncPlaced(p, l, img, cur)
    ensures ReplacedAll(img, Current(p, l, img, cur), mnem, PlacedOperands(p, l, ops)) == OperandTexts(p, cur, ops)
  {
    hide Replaced, GoodProgram, Placed, FuncPlaced, Current, OperandText, PlacedOperand, GoodOperand, KeptIfConstant;
    if ops == [] {
      NotInCurrentPlaced(p, l, img, cur);
    } else {
      OperandNormal(p, l, img, cur, mnem, ops[0]);
      OperandsNormal(p, l, img, cur, mnem, ops[1..]);
    }
  }

  lemma LineNormal(p: Program, l: Layout, img: Image, cur: nat, n: nat)
    requires GoodProgram(p) && Placed(p, l, img) && cur < |p.funcs| && n < |p.funcs[cur].code|
    ensures FuncPlaced(p, l, img, cur)
    ensures Line(img, Current(p, l, img, cur), PlacedCode(p, l, l.funcs[cur], p.funcs[cur].code[n]))
            == CodeLine(p, cur, p.funcs[cur].code[n])
  {
    hide FuncPlaced, Current, Apart, ObjectsApart, ObjectPlaced, ExactPlaced, LiteralPlaced, StripRight;
    hide ReplacedAll, OperandTexts, PlacedOperands, GoodOperand, KeptIfConstant;
    var c := p.funcs[cur].code[n];
    assert GoodFunction(p, p.funcs[cur]) && GoodCode(p, c);
    OperandsNormal(p, l, img, cur, c.mnem, c.ops);
  }

  /** The names of a placed program's functions. */
  lemma NamesPlaced(p: Program, l: Layout, img: Image)
    requires Placed(p, l, img)
    ensures forall n :: n in Names(img) <==> exists i :: 0 <= i < |p.funcs| && p.funcs[i].name == n
  {
    hide Apart, ObjectsApart, ObjectPlaced, ExactPlaced, LiteralPlaced, ConstantsKept;
    forall n | n in Names(img) ensures exists i :: 0 <= i < |p.funcs| && p.funcs[i].name == n {
      var f :| f in img.Funcs() && f.name == n;
      var k :| 0 <= k < |img.Funcs()| && img.Funcs()[k] == f;
      assert k in l.funcSlots;
      var i :| 0 <= i < |l.funcSlots| && l.funcSlots[i] == k;
      assert FuncPlaced(p, l, img, i) && p.funcs[i].name == n;
    }
    forall i | 0 <= i < |p.funcs| ensures p.funcs[i].name in Names(img) {
      assert FuncPlaced(p, l, img, i);
      assert img.Funcs()[l.funcSlots[i]] in img.Funcs();
    }
  }

  lemma {:induction false} ByNameIs(funcs: seq<Symbol>, k: nat)
    requires k < |funcs| && forall j :: 0 <= j < |funcs| && funcs[j].name == funcs[k].name ==> j == k
    ensures ByName(funcs, funcs[k].name) == Some(funcs[k])
  {
    if k < |funcs| - 1 {
      assert funcs[|funcs| - 1].name != funcs[k].name;
      ByNameIs(funcs[..|funcs| - 1], k);
    }
  }

  lemma CurrentByName(p: Program, l: Layout, img: Image, i: nat)
    requires GoodProgram(p) && Placed(p, l, img) && i < |p.funcs|
    ensures FuncPlaced(p, l, img, i) && ByName(img.Funcs(), p.funcs[i].name) == Some(Current(p, l, img, i))
  {
    hide Apart, ObjectsApart, ObjectPlaced, ExactPlaced, LiteralPlaced, ConstantsKept, GoodFunction;
    var k := l.funcSlots[i];
    assert FuncPlaced(p, l, img, i);
    forall j | 0 <= j < |img.Funcs()| && img.Funcs()[j].name == img.Funcs()[k].name ensures j == k {
      assert j in l.funcSlots;
      var m :| 0 <= m < |l.funcSlots| && l.funcSlots[m] == j;
      assert FuncPlaced(p, l, img, m);
    }
    ByNameIs(img.Funcs(), k);
  }

  /** The normal form of every function depends on the program alone. */
  lemma NormalFormOfPlaced(p: Program, l: Layout, img: Image, i: nat)
    requires GoodProgram(p) && Placed(p, l, img) && i < |p.funcs|
    ensures Normalised(img, p.funcs[i].name) == NormalForm(p, i)
  {
    CurrentByName(p, l, img, i);
    var cur := Current(p, l, img, i);
    var body := PlacedBody(p, l, i);
    assert Body(img.Funcs(), img.insns, p.funcs[i].name) == body;
    hide GoodProgram, Placed, FuncPlaced, Current, Line, CodeLine, PlacedCode, Body;
    forall n | 0 <= n < |body| ensures Lines(img, cur, body)[n] == NormalForm(p, i)[n] {
      LineNormal(p, l, img, i, n);
    }
    assert Lines(img, cur, body) == NormalForm(p, i);
  }

  /** Two placements of one program compare equal. */
  lemma RelocationInvariance(p: Program, l: Layout, a: Image, m: Layout, b: Image)
    requires GoodProgram(p) && Placed(p, l, a) && Placed(p, m, b)
    ensures SameCode(a, b)
  {
    hide GoodProgram, Placed, Normalised, Names;
    NamesPlaced(p, l, a);
    NamesPlaced(p, m, b);
    forall n | n in Names(a) ensures Normalised(a, n) == Normalised(b, n) {
      var i :| 0 <= i < |p.funcs| && p.funcs[i].name == n;
      NormalFormOfPlaced(p, l, a, i);
      NormalFormOfPlaced(p, m, b, i);
    }
    forall n ensures n in Names(a) <==> n in Names(b) { }
  }

  // ------------------------------------------------------------------------
  // An example: a call, with the two functions in either order
  // ------------------------------------------------------------------------

  const CALL := Code(0, "call", [Ref(false, Func(1), 0)])
  const PAIR := Program([Function("f", 8, [CALL]), Function("g", 8, [])], [], [], [])

  function Sym(name: string, addr: nat): Symbol { Symbol(addr, 8, name, addr + 8) }

  function PairLayout(f: nat, g: nat): Layout {
    Layout([f, g], if f < g then [0, 1] else [1, 0], [], [], [], [])
  }

  function PairImage(f: nat, g: nat): Image {
    Image(if f < g then [Sym("f", f), Sym("g", g)] else [Sym("g", g), Sym("f", f)], [], map[], {}, map[],
          [Insn(f, "call", [Hex(false, HexNumeral(g))])])
  }

  lemma KeptTwo(a: Symbol, b: Symbol)
    requires a.addr < b.addr
    ensures Kept([a, b]) == [a, b]
  {
    assert [a, b][1..] == [b] && [b][1..] == [];
    assert DropAt([b], a.addr) == [b] && DropAt([], b.addr) == [];
    assert Kept([b]) == [b] + Kept([]);
  }

  lemma OneInsnBody(funcs: seq<Symbol>, i: Insn, name: string)
    ensures Body(funcs, [i], name) == if Named(funcs, i.addr) == Some(name) then [i] else []
  {
    assert [i][..0] == [];
    hide Named;
  }

  lemma OwnerOfTwo(a: Symbol, b: Symbol, first: bool)
    requires a.addr < b.addr && a.addr < a.end && b.addr < b.end
    ensures Owner([a, b], if first then a.addr else b.addr) == Some(if first then 0 else 1)
  {
    assert [a, b][..1] == [a];
    assert BisectRight([a], a.addr) == 1;
    assert BisectRight([a, b], if first then a.addr else b.addr) == if first then 1 else 2;
  }

  predicate PairFits(f: nat, g: nat) { f >= PROG_LO && g >= PROG_LO && (f + 8 <= g || g + 8 <= f) }

  lemma PairFuncs(f: nat, g: nat)
    requires PairFits(f, g)
    ensures PairImage(f, g).Funcs() == PairImage(f, g).symbols
    ensures Named(PairImage(f, g).symbols, f) == Some("f")
  {
    if f < g {
      KeptTwo(Sym("f", f), Sym("g", g));
      OwnerOfTwo(Sym("f", f), Sym("g", g), true);
    } else {
      KeptTwo(Sym("g", g), Sym("f", f));
      OwnerOfTwo(Sym("g", g), Sym("f", f), false);
    }
    hide Kept, Owner;
  }

  lemma PairCall(f: nat, g: nat)
    requires PairFits(f, g)
    ensures Fits(PAIR, PairLayout(f, g))
    ensures PlacedCode(PAIR, PairLayout(f, g), f, CALL) == PairImage(f, g).insns[0]
  {
    var l := PairLayout(f, g);
    hide HexNumeral, Kept, Owner, Named, Body;
    assert CALL.ops[1..] == [] && g + 0 == g;
    assert PlacedOperands(PAIR, l, CALL.ops) == [PlacedOperand(PAIR, l, CALL.ops[0])] + PlacedOperands(PAIR, l, []);
  }

  lemma PairPlacedBodies(f: nat, g: nat)
    requires PairFits(f, g)
    ensures Fits(PAIR, PairLayout(f, g))
    ensures PlacedBody(PAIR, PairLayout(f, g), 0) == PairImage(f, g).insns
    ensures PlacedBody(PAIR, PairLayout(f, g), 1) == []
  {
    PairCall(f, g);
    hide PlacedCode, HexNumeral;
    assert PlacedBody(PAIR, PairLayout(f, g), 0)[0] == PairImage(f, g).insns[0];
  }

  lemma PairBodies(f: nat, g: nat)
    requires PairFits(f, g)
    ensures Fits(PAIR, PairLayout(f, g))
    ensures var funcs, insns := PairImage(f, g).Funcs(), PairImage(f, g).insns;
            Body(funcs, insns, "f") == insns == PlacedBody(PAIR, PairLayout(f, g), 0)
            && Body(funcs, insns, "g") == [] == PlacedBody(PAIR, PairLayout(f, g), 1)
  {
    var img := PairImage(f, g);
    PairPlacedBodies(f, g);
    PairFuncs(f, g);
    hide Kept, Owner, Named, HexNumeral, PlacedBody;
    OneInsnBody(img.Funcs(), img.insns[0], "f");
    OneInsnBody(img.Funcs(), img.insns[0], "g");
    hide Body;
    assert "f"[0] != "g"[0];
  }

  lemma PairGood()
    ensures GoodProgram(PAIR)
  {
    assert GoodOperand(PAIR, "call", CALL.ops[0]);
    assert GoodCode(PAIR, CALL);
    assert GoodFunction(PAIR, PAIR.funcs[0]) && GoodFunction(PAIR, PAIR.funcs[1]);
    assert "f"[0] != "g"[0];
  }

  /** Both orders are placements of the one program, so they compare equal. */
  lemma PairFuncsPlaced(f: nat, g: nat)
    requires PairFits(f, g)
    ensures Fits(PAIR, PairLayout(f, g))
    ensures FuncPlaced(PAIR, PairLayout(f, g), PairImage(f, g), 0)
    ensures FuncPlaced(PAIR, PairLayout(f, g), PairImage(f, g), 1)
  {
    PairFuncs(f, g);
    PairBodies(f, g);
    hide Kept, Owner, Body, PlacedBody, PlacedCode, PlacedOperands, HexNumeral, Named;
  }

  /** Both orders are placements of the one program, so they compare equal. */
  lemma PairPlaced(f: nat, g: nat)
    requires PairFits(f, g)
    ensures GoodProgram(PAIR) && Placed(PAIR, PairLayout(f, g), PairImage(f, g))
  {
    var l, img := PairLayout(f, g), PairImage(f, g);
    PairGood();
    PairFuncs(f, g);
    PairFuncsPlaced(f, g);
    hide GoodProgram, Kept, Owner, Body, FuncPlaced, HexNumeral, Named;
    assert 0 in l.funcSlots && 1 in l.funcSlots;
    assert ConstantsKept(PAIR, img);
  }

  lemma PairComparesEqual(f: nat, g: nat, f': nat, g': nat)
    requires PairFits(f, g) && PairFits(f', g')
    ensures SameCode(PairImage(f, g), PairImage(f', g'))
  {
    hide GoodProgram, Placed, SameCode, PairImage, PairLayout;
    PairPlaced(f, g);
    PairPlaced(f', g');
    RelocationInvariance(PAIR, PairLayout(f, g), PairImage(f, g), PairLayout(f', g'), PairImage(f', g'));
  }
}
