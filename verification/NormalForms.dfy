/** What a normal form tells (tools/fncmp.py): two programs compare equal exactly
    if their functions have the same names and, instruction by instruction, the
    same mnemonics, texts, constants, and targets with the same offsets. */
module NormalForms {
  import opened Common
  import opened Text
  import opened FunctionExtents
  import opened FnCmp
  import opened Relocation

  // ------------------------------------------------------------------------
  // Pieces of an operand text, and how a line of them is read back
  // ------------------------------------------------------------------------

  /** Other text, a constant, an offset in the current function, or a name. */
  datatype Piece =
    | Words(s: string)
    | Digits(imm: bool, d: string)
    | Here(imm: bool, off: nat)
    | Named(imm: bool, name: string)

  /** What follows the '#' of an immediate. */
  function Bare(x: Piece): string {
    match x
    case Words(s) => s
    case Digits(_, d) => "0x" + d
    case Here(_, off) => "+0x" + HexNumeral(off)
    case Named(_, name) => "<" + name + ">"
  }

  predicate Immediate(x: Piece) { !x.Words? && x.imm }

  function Shown(x: Piece): string { (if Immediate(x) then "#" else "") + Bare(x) }

  function ShownAll(xs: seq<Piece>): string { if xs == [] then "" else Shown(xs[0]) + ShownAll(xs[1..]) }

  /** Text between hex tokens: no annotation, no hex token, and no sign that would belong to the next token. */
  predicate Clean(s: string) {
    && s != "" && '<' !in s && s[|s| - 1] != '#' && s[|s| - 1] != '+'
    && forall k :: 0 <= k < |s| - 1 ==> !(s[k] == '0' && s[k + 1] == 'x')
  }

  predicate Proper(x: Piece) {
    match x
    case Words(s) => Clean(s)
    case Digits(_, d) => d != "" && AllHex(d)
    case Here(_, _) => true
    case Named(_, name) => '>' !in name
  }

  /** What may come after a piece: a hex token takes all the digits there are. */
  predicate MayFollow(x: Piece, y: Piece) {
    if x.Words? then !y.Words? else if y.Words? then y.s != "" && !IsHex(y.s[0]) else y.imm
  }

  predicate Lexed(xs: seq<Piece>) {
    xs == [] || (Proper(xs[0]) && (|xs| > 1 ==> MayFollow(xs[0], xs[1])) && Lexed(xs[1..]))
  }

  /** The start of a hex token's text. */
  predicate Marked(s: string) {
    "<" <= s || "0x" <= s || "+0x" <= s || "#<" <= s || "#0x" <= s || "#+0x" <= s
  }

  predicate Opens(c: char) { c == '#' || c == '0' || c == '+' || c == '<' }

  lemma BareMarked(x: Piece, rest: string)
    requires !x.Words?
    ensures var b := Bare(x) + rest;
            ("0x" <= b && x.Digits?) || ("+0x" <= b && x.Here?) || ("<" <= b && x.Named?)
  {
  }

  lemma HashMarked(b: string)
    requires "0x" <= b || "+0x" <= b || "<" <= b
    ensures Marked(b) && Marked("#" + b)
  {
    assert "#0x" == "#" + "0x" && "#+0x" == "#" + "+0x" && "#<" == "#" + "<";
  }

  lemma HexMarked(x: Piece, rest: string)
    requires !x.Words?
    ensures Marked(Shown(x) + rest) && Opens(Shown(x)[0]) && (!x.imm ==> Shown(x)[0] != '#')
  {
    BareMarked(x, rest);
    HashMarked(Bare(x) + rest);
    assert Shown(x) + rest == if x.imm then "#" + (Bare(x) + rest) else Bare(x) + rest;
    assert Bare(x) != "" && Opens(Bare(x)[0]) && Bare(x)[0] != '#';
    hide Bare, Marked;
  }

  /** The rest of clean text, from any place in it, does not start a hex token. */
  lemma NotMarked(w: string, rest: string)
    requires Clean(w) && (rest == "" || Marked(rest))
    ensures !Marked(w + rest)
  {
    var s := w + rest;
    assert s[0] == w[0] != '<';
    if |w| > 1 { assert s[1] == w[1]; }
    if |w| > 2 { assert s[2] == w[2]; }
    if |w| > 3 { assert s[3] == w[3]; }
    if |w| < |s| { assert s[|w|] == rest[0] && Opens(rest[0]); }
  }

  lemma CleanTail(s: string, k: nat)
    requires Clean(s) && k < |s|
    ensures Clean(s[k..])
  {
    var w := s[k..];
    assert forall i :: 0 <= i < |w| ==> w[i] == s[k + i];
  }

  lemma RestAfter(xs: seq<Piece>)
    requires Lexed(xs) && xs != []
    ensures var rest := ShownAll(xs[1..]);
            rest == "" || if xs[0].Words? then Marked(rest) else !IsHex(rest[0])
  {
    if |xs| > 1 {
      var y, more := xs[1], ShownAll(xs[2..]);
      assert xs[1..][1..] == xs[2..] && ShownAll(xs[1..]) == Shown(y) + more;
      assert Lexed(xs[1..]) && Proper(y);
      if y.Words? {
        assert (Shown(y) + more)[0] == y.s[0];
      } else {
        HexMarked(y, more);
        assert (Shown(y) + more)[0] == Shown(y)[0];
      }
    }
  }

  lemma SameWords(s: string, x: string, t: string, y: string)
    requires Clean(s) && Clean(t) && s + x == t + y
    requires x == "" || Marked(x)
    requires y == "" || Marked(y)
    ensures s == t
  {
    if |s| < |t| {
      CleanTail(t, |s|);
      assert x == t[|s|..] + y by { assert (s + x)[|s|..] == x && (t + y)[|s|..] == t[|s|..] + y; }
      NotMarked(t[|s|..], y);
    } else if |t| < |s| {
      CleanTail(s, |t|);
      assert y == s[|t|..] + x by { assert (t + y)[|t|..] == y && (s + x)[|t|..] == s[|t|..] + x; }
      NotMarked(s[|t|..], x);
    } else {
      assert (s + x)[..|s|] == s && (t + y)[..|s|] == t;
    }
  }

  lemma SameDigits(d: string, x: string, e: string, y: string)
    requires AllHex(d) && AllHex(e) && d + x == e + y
    requires x == "" || !IsHex(x[0])
    requires y == "" || !IsHex(y[0])
    ensures d == e
  {
    var s, r := d + x, e + y;
    assert |d| < |s| ==> s[|d|] == x[0];
    assert |e| < |r| ==> r[|e|] == y[0];
    assert forall k :: 0 <= k < |d| ==> s[k] == d[k];
    assert forall k :: 0 <= k < |e| ==> r[k] == e[k];
    assert s[..|d|] == d && r[..|e|] == e;
  }

  lemma SameName(m: string, x: string, n: string, y: string)
    requires '>' !in m && '>' !in n && (m + ">") + x == (n + ">") + y
    ensures m == n
  {
    var s, t := (m + ">") + x, (n + ">") + y;
    assert s[|m|] == '>' && t[|n|] == '>';
    assert forall k :: 0 <= k < |m| ==> s[k] == m[k];
    assert forall k :: 0 <= k < |n| ==> t[k] == n[k];
    assert s[..|m|] == m && t[..|n|] == n;
  }

  /** The first character of a token tells an immediate, the next one the kind. */
  function FirstChar(x: Piece): char
    requires !x.Words?
  {
    match x
    case Digits(_, _) => '0'
    case Here(_, _) => '+'
    case Named(_, _) => '<'
  }

  lemma Starts(x: Piece, rest: string)
    requires !x.Words?
    ensures var s := Shown(x) + rest;
            s != "" && (x.imm <==> s[0] == '#') && s[if x.imm then 1 else 0..] == Bare(x) + rest
    ensures (Bare(x) + rest) != "" && (Bare(x) + rest)[0] == FirstChar(x)
  {
    var s := Shown(x) + rest;
    if x.imm { assert s[1..] == Bare(x) + rest; } else { assert s[0..] == Bare(x) + rest; }
  }

  /** Hex tokens of one text. */
  lemma SameToken(x: Piece, u: string, y: Piece, v: string)
    requires Proper(x) && Proper(y) && !x.Words? && !y.Words? && Shown(x) + u == Shown(y) + v
    requires u == "" || !IsHex(u[0])
    requires v == "" || !IsHex(v[0])
    ensures x == y
  {
    Starts(x, u);
    Starts(y, v);
    hide Shown, Bare, Proper, IsHex;
    assert x.imm == y.imm && Bare(x) + u == Bare(y) + v;
    match x
    case Digits(_, _) => ConstantSame(x, u, y, v);
    case Here(_, _) => OffsetSame(x, u, y, v);
    case Named(_, _) => NamedSame(x, u, y, v);
  }

  lemma AfterPrefix(prefix: string, d: string, u: string, e: string, v: string)
    requires (prefix + d) + u == (prefix + e) + v
    ensures d + u == e + v
  {
    assert ((prefix + d) + u)[|prefix|..] == d + u && ((prefix + e) + v)[|prefix|..] == e + v;
  }

  lemma ConstantSame(x: Piece, u: string, y: Piece, v: string)
    requires x.Digits? && y.Digits? && Proper(x) && Proper(y) && Bare(x) + u == Bare(y) + v
    requires u == "" || !IsHex(u[0])
    requires v == "" || !IsHex(v[0])
    ensures x.d == y.d
  {
    hide AllHex, IsHex;
    AfterPrefix("0x", x.d, u, y.d, v);
    SameDigits(x.d, u, y.d, v);
  }

  lemma OffsetSame(x: Piece, u: string, y: Piece, v: string)
    requires x.Here? && y.Here? && Bare(x) + u == Bare(y) + v
    requires u == "" || !IsHex(u[0])
    requires v == "" || !IsHex(v[0])
    ensures x.off == y.off
  {
    hide HexNumeral, HexValue, AllHex, IsHex;
    AfterPrefix("+0x", HexNumeral(x.off), u, HexNumeral(y.off), v);
    HexBack(x.off);
    HexBack(y.off);
    SameDigits(HexNumeral(x.off), u, HexNumeral(y.off), v);
  }

  lemma NamedBare(x: Piece)
    requires x.Named?
    ensures Bare(x) == "<" + (x.name + ">")
  {
  }

  lemma NamedSame(x: Piece, u: string, y: Piece, v: string)
    requires x.Named? && y.Named? && Proper(x) && Proper(y) && Bare(x) + u == Bare(y) + v
    ensures x.name == y.name
  {
    NamedBare(x);
    NamedBare(y);
    AfterPrefix("<", x.name + ">", u, y.name + ">", v);
    SameName(x.name, u, y.name, v);
  }

  lemma FirstSame(xs: seq<Piece>, ys: seq<Piece>)
    requires Lexed(xs) && Lexed(ys) && xs != [] && ys != [] && ShownAll(xs) == ShownAll(ys)
    ensures xs[0] == ys[0]
  {
    RestAfter(xs);
    RestAfter(ys);
    var x, y, u, v := xs[0], ys[0], ShownAll(xs[1..]), ShownAll(ys[1..]);
    hide ShownAll, Lexed, Marked, IsHex, Clean;
    if x.Words? && y.Words? {
      assert Shown(x) == x.s && Shown(y) == y.s;
      SameWords(x.s, u, y.s, v);
    } else if x.Words? {
      assert Shown(x) == x.s;
      HexMarked(y, v);
      NotMarked(x.s, u);
    } else if y.Words? {
      assert Shown(y) == y.s;
      HexMarked(x, u);
      NotMarked(y.s, v);
    } else {
      SameToken(x, u, y, v);
    }
  }

  lemma ShownSome(x: Piece)
    requires Proper(x)
    ensures Shown(x) != ""
  {
  }

  lemma RestSame(xs: seq<Piece>, ys: seq<Piece>)
    requires xs != [] && ys != [] && xs[0] == ys[0] && ShownAll(xs) == ShownAll(ys)
    ensures ShownAll(xs[1..]) == ShownAll(ys[1..])
  {
    hide Shown;
    var n := |Shown(xs[0])|;
    assert ShownAll(xs)[n..] == ShownAll(xs[1..]) && ShownAll(ys)[n..] == ShownAll(ys[1..]);
  }

  lemma NotEmpty(xs: seq<Piece>)
    requires Lexed(xs)
    ensures ShownAll(xs) == "" <==> xs == []
    ensures xs != [] ==> Lexed(xs[1..])
  {
    if xs != [] { ShownSome(xs[0]); }
  }

  /** A text of lexed pieces is that of no others. */
  lemma {:induction false} ReadBackPieces(xs: seq<Piece>, ys: seq<Piece>)
    requires Lexed(xs) && Lexed(ys) && ShownAll(xs) == ShownAll(ys)
    ensures xs == ys
  {
    NotEmpty(xs);
    NotEmpty(ys);
    if xs != [] {
      hide Lexed, ShownAll;
      FirstSame(xs, ys);
      RestSame(xs, ys);
      ReadBackPieces(xs[1..], ys[1..]);
      assert xs == [xs[0]] + xs[1..] && ys == [ys[0]] + ys[1..];
    }
  }

  // ------------------------------------------------------------------------
  // A whole line
  // ------------------------------------------------------------------------

  predicate NoSpaces(s: string) { s != "" && forall i :: 0 <= i < |s| ==> !IsSpace(s[i]) }

  predicate EndsInText(s: string) { s == "" || !IsSpace(s[|s| - 1]) }

  lemma StripKeeps(s: string)
    requires s != "" && !IsSpace(s[|s| - 1])
    ensures StripRight(s) == s && StripRight(s + " ") == s
  {
    assert (s + " ")[..|s + " "| - 1] == s;
  }

  lemma LineIs(mnem: string, text: string)
    requires NoSpaces(mnem) && EndsInText(text)
    ensures StripRight(mnem + " " + text) == if text == "" then mnem else mnem + " " + text
  {
    if text == "" {
      assert mnem + " " + text == mnem + " ";
      StripKeeps(mnem);
    } else {
      StripKeeps(mnem + " " + text);
    }
  }

  lemma SameLine(m: string, s: string, n: string, t: string)
    requires NoSpaces(m) && NoSpaces(n) && EndsInText(s) && EndsInText(t)
    requires StripRight(m + " " + s) == StripRight(n + " " + t)
    ensures m == n && s == t
  {
    LineIs(m, s);
    LineIs(n, t);
    var u := if s == "" then m else m + " " + s;
    var v := if t == "" then n else n + " " + t;
    hide StripRight;
    assert u == v;
    assert s != "" ==> u[|m|] == ' ';
    assert t != "" ==> v[|n|] == ' ';
    assert forall k :: 0 <= k < |m| ==> u[k] == m[k];
    assert forall k :: 0 <= k < |n| ==> v[k] == n[k];
    assert u[..|m|] == m && v[..|n|] == n;
    if s != "" { assert u[|m| + 1..] == s && v[|m| + 1..] == t; }
  }

  // ------------------------------------------------------------------------
  // Operands
  // ------------------------------------------------------------------------

  /** A target's name; a literal's is its label without the angle brackets. */
  function TargetName(p: Program, t: Target): string
    requires Known(p, t)
  {
    match t
    case Func(i) => p.funcs[i].name
    case Object(i) => p.objects[i].name
    case Exact(i) => p.exact[i].name
    case Literal(i) => var shown := p.literals[i].name; if |shown| < 2 then "" else shown[1..|shown| - 1]
  }

  /** A name that cannot be taken for another one with an offset, and ends where its bracket closes. */
  ghost predicate ClearName(n: string) {
    '>' !in n && forall m: string, off: nat :: off > 0 ==> n != m + OffsetText(off)
  }

  ghost predicate ClearTarget(p: Program, t: Target)
    requires Known(p, t)
  {
    && ClearName(TargetName(p, t))
    && (t.Literal? ==>
          var shown := p.literals[t.i].name; |shown| >= 2 && shown[0] == '<' && shown[|shown| - 1] == '>')
  }

  ghost predicate ClearOperand(p: Program, op: Operand) {
    op.Ref? ==> Known(p, op.target) && ClearTarget(p, op.target)
  }

  /** What an operand says, in function cur. */
  function PieceOf(p: Program, cur: nat, op: Operand): Piece {
    match op
    case Text(s) => Words(s)
    case Const(imm, digits) => Digits(imm, digits)
    case Ref(imm, t, off) =>
      if t == Func(cur) then Here(imm, off)
      else if Known(p, t) then Named(imm, Inner(TargetName(p, t), off))
      else Words("")
  }

  function Pieces(p: Program, cur: nat, ops: seq<Operand>): (xs: seq<Piece>)
    ensures |xs| == |ops|
  {
    seq(|ops|, k requires 0 <= k < |ops| => PieceOf(p, cur, ops[k]))
  }

  /** Operands as the lexer cuts them, of clear targets, after a mnemonic. */
  ghost predicate ReadableCode(p: Program, cur: nat, c: Code) {
    && NoSpaces(c.mnem) && Lexed(Pieces(p, cur, c.ops))
    && (c.ops != [] && c.ops[|c.ops| - 1].Text? ==> EndsInText(c.ops[|c.ops| - 1].s))
    && forall k :: 0 <= k < |c.ops| ==> ClearOperand(p, c.ops[k])
  }

  ghost predicate Readable(p: Program) {
    forall i, n :: 0 <= i < |p.funcs| && 0 <= n < |p.funcs[i].code| ==> ReadableCode(p, i, p.funcs[i].code[n])
  }

  /** The same text, the same constant, or the same target with the same offset:
      the function itself, or one of the same name. */
  predicate SameOperand(p: Program, i: nat, x: Operand, q: Program, j: nat, y: Operand) {
    match x
    case Text(s) => y.Text? && y.s == s
    case Const(imm, digits) => y.Const? && y.imm == imm && y.digits == digits
    case Ref(imm, t, off) =>
      && y.Ref? && y.imm == imm && y.off == off && (t == Func(i) <==> y.target == Func(j))
      && (t != Func(i) ==>
            Known(p, t) && Known(q, y.target) && TargetName(p, t) == TargetName(q, y.target))
  }

  predicate SameInstruction(p: Program, i: nat, c: Code, q: Program, j: nat, d: Code) {
    && c.mnem == d.mnem && |c.ops| == |d.ops|
    && forall k :: 0 <= k < |c.ops| ==> SameOperand(p, i, c.ops[k], q, j, d.ops[k])
  }

  predicate SameFunction(p: Program, i: nat, q: Program, j: nat)
    requires i < |p.funcs| && j < |q.funcs|
  {
    var c, d := p.funcs[i].code, q.funcs[j].code;
    && p.funcs[i].name == q.funcs[j].name && |c| == |d|
    && forall n :: 0 <= n < |c| ==> SameInstruction(p, i, c[n], q, j, d[n])
  }

  predicate IsIn(p: Program, i: nat, q: Program)
    requires i < |p.funcs|
  {
    exists j: nat :: j < |q.funcs| && SameFunction(p, i, q, j)
  }

  predicate Holds(p: Program, q: Program, j: nat)
    requires j < |q.funcs|
  {
    exists i: nat :: i < |p.funcs| && SameFunction(p, i, q, j)
  }

  /** The same functions by name, each with the same instructions. */
  predicate SameProgram(p: Program, q: Program) {
    (forall i :: 0 <= i < |p.funcs| ==> IsIn(p, i, q)) && (forall j :: 0 <= j < |q.funcs| ==> Holds(p, q, j))
  }

  lemma LabelShown(s: string)
    requires |s| >= 2 && s[0] == '<' && s[|s| - 1] == '>'
    ensures s == "<" + s[1..|s| - 1] + ">"
  {
  }

  lemma NoOffset(name: string)
    ensures Inner(name, 0) == name
  {
  }

  /** A reference outside the current function shows its target's name and the offset. */
  lemma RefShown(p: Program, cur: nat, t: Target, off: nat)
    requires Known(p, t) && ClearTarget(p, t) && off < Extent(p, t) && t != Func(cur)
    ensures RefText(p, cur, t, off) == "<" + Inner(TargetName(p, t), off) + ">"
  {
    hide OffsetText, Inner, ClearName, NameText;
    match t
    case Func(i) => NameTextIsInner(p.funcs[i].name, off);
    case Object(i) => NameTextIsInner(p.objects[i].name, off);
    case Exact(i) => NoOffset(p.exact[i].name);
    case Literal(i) =>
      LabelShown(p.literals[i].name);
      NoOffset(TargetName(p, t));
  }

  lemma OperandShown(p: Program, cur: nat, mnem: string, op: Operand)
    requires GoodOperand(p, mnem, op) && ClearOperand(p, op)
    ensures OperandText(p, cur, op) == Shown(PieceOf(p, cur, op))
  {
    hide ClearTarget, TargetName, HexNumeral, Extent;
    if op.Ref? && op.target != Func(cur) {
      RefShown(p, cur, op.target, op.off);
      hide RefText, Inner;
    }
  }

  lemma FirstPiece(p: Program, cur: nat, ops: seq<Operand>)
    requires ops != []
    ensures Pieces(p, cur, ops)[0] == PieceOf(p, cur, ops[0])
    ensures Pieces(p, cur, ops)[1..] == Pieces(p, cur, ops[1..])
  {
  }

  lemma {:induction false} OperandsShown(p: Program, cur: nat, mnem: string, ops: seq<Operand>)
    requires forall k :: 0 <= k < |ops| ==> GoodOperand(p, mnem, ops[k]) && ClearOperand(p, ops[k])
    ensures OperandTexts(p, cur, ops) == ShownAll(Pieces(p, cur, ops))
  {
    hide GoodOperand, ClearOperand, PieceOf, OperandText, Shown;
    if ops != [] {
      OperandShown(p, cur, mnem, ops[0]);
      OperandsShown(p, cur, mnem, ops[1..]);
      FirstPiece(p, cur, ops);
      hide Pieces;
    }
  }

  lemma SameInner(m: string, i: nat, n: string, j: nat)
    requires ClearName(m) && ClearName(n) && Inner(m, i) == Inner(n, j)
    ensures m == n && i == j
  {
    NameTextIsInner(m, i);
    NameTextIsInner(n, j);
    SameTextIff(m, i, n, j);
    hide OffsetText, NameText, Inner;
  }

  /** Two operands say the same exactly if they are the same. */
  lemma PieceSameIff(p: Program, i: nat, x: Operand, q: Program, j: nat, y: Operand)
    requires ClearOperand(p, x) && ClearOperand(q, y)
    ensures PieceOf(p, i, x) == PieceOf(q, j, y) <==> SameOperand(p, i, x, q, j, y)
  {
    hide Inner, TargetName, ClearName;
    if x.Ref? && y.Ref? && x.target != Func(i) && y.target != Func(j) && PieceOf(p, i, x) == PieceOf(q, j, y) {
      SameInner(TargetName(p, x.target), x.off, TargetName(q, y.target), y.off);
    }
  }

  lemma PiecesSameIff(p: Program, i: nat, c: Code, q: Program, j: nat, d: Code)
    requires ReadableCode(p, i, c) && ReadableCode(q, j, d)
    ensures Pieces(p, i, c.ops) == Pieces(q, j, d.ops) <==>
            |c.ops| == |d.ops| && forall k :: 0 <= k < |c.ops| ==> SameOperand(p, i, c.ops[k], q, j, d.ops[k])
  {
    var xs, ys := Pieces(p, i, c.ops), Pieces(q, j, d.ops);
    hide Lexed, ClearOperand, SameOperand, PieceOf, NoSpaces;
    if |c.ops| == |d.ops| {
      forall k | 0 <= k < |c.ops| ensures xs[k] == ys[k] <==> SameOperand(p, i, c.ops[k], q, j, d.ops[k]) {
        PieceSameIff(p, i, c.ops[k], q, j, d.ops[k]);
      }
    }
  }

  lemma EndOf(s: string, t: string)
    ensures EndsInText(s + t) == if t == "" then EndsInText(s) else EndsInText(t)
  {
    if t == "" { assert s + t == s; } else { assert (s + t)[|s + t| - 1] == t[|t| - 1]; }
  }

  lemma ShownFirst(xs: seq<Piece>)
    requires Lexed(xs) && xs != []
    ensures Proper(xs[0]) && Lexed(xs[1..]) && ShownAll(xs) == Shown(xs[0]) + ShownAll(xs[1..])
  {
  }

  /** A line ends with its last operand, and only some text of it could end in a space. */
  lemma {:induction false} TextEnds(xs: seq<Piece>)
    requires Lexed(xs) && (xs != [] && xs[|xs| - 1].Words? ==> EndsInText(xs[|xs| - 1].s))
    ensures EndsInText(ShownAll(xs))
  {
    NotEmpty(xs);
    if xs != [] {
      ShownFirst(xs);
      NotEmpty(xs[1..]);
      hide ShownAll, Lexed, Shown, Proper, EndsInText;
      EndOf(Shown(xs[0]), ShownAll(xs[1..]));
      if |xs| == 1 { OneEnds(xs[0]); } else { TextEnds(xs[1..]); }
    } else {
      assert EndsInText("");
    }
  }

  lemma OneEnds(x: Piece)
    requires Proper(x) && (x.Words? ==> EndsInText(x.s))
    ensures EndsInText(Shown(x))
  {
    match x
    case Words(s) =>
    case Digits(_, d) => assert Shown(x)[|Shown(x)| - 1] == d[|d| - 1] && IsHex(d[|d| - 1]);
    case Here(_, off) =>
      HexBack(off);
      var h := HexNumeral(off);
      assert Shown(x)[|Shown(x)| - 1] == h[|h| - 1] && IsHex(h[|h| - 1]);
    case Named(_, _) => assert Shown(x)[|Shown(x)| - 1] == '>';
  }

  lemma WordsAreText(p: Program, cur: nat, op: Operand)
    requires ClearOperand(p, op) && PieceOf(p, cur, op).Words?
    ensures op.Text? && op.s == PieceOf(p, cur, op).s
  {
  }

  lemma LineShown(p: Program, i: nat, c: Code)
    requires GoodCode(p, c) && ReadableCode(p, i, c)
    ensures var xs := Pieces(p, i, c.ops);
            && CodeLine(p, i, c) == StripRight(c.mnem + " " + ShownAll(xs))
            && Lexed(xs) && NoSpaces(c.mnem) && EndsInText(ShownAll(xs))
  {
    var xs := Pieces(p, i, c.ops);
    if xs != [] && xs[|xs| - 1].Words? { WordsAreText(p, i, c.ops[|c.ops| - 1]); }
    hide GoodOperand, ClearOperand, NoSpaces, OperandTexts, Lexed, ShownAll, StripRight, EndsInText, PieceOf;
    OperandsShown(p, i, c.mnem, c.ops);
    TextEnds(xs);
  }

  /** Two lines are equal exactly if the instructions are the same. */
  lemma LineSameIff(p: Program, i: nat, c: Code, q: Program, j: nat, d: Code)
    requires GoodCode(p, c) && GoodCode(q, d) && ReadableCode(p, i, c) && ReadableCode(q, j, d)
    ensures CodeLine(p, i, c) == CodeLine(q, j, d) <==> SameInstruction(p, i, c, q, j, d)
  {
    var xs, ys := Pieces(p, i, c.ops), Pieces(q, j, d.ops);
    PiecesSameIff(p, i, c, q, j, d);
    LineShown(p, i, c);
    LineShown(q, j, d);
    hide GoodCode, ReadableCode, SameOperand, NoSpaces, EndsInText, Lexed, ShownAll, Pieces, CodeLine, StripRight;
    if CodeLine(p, i, c) == CodeLine(q, j, d) {
      SameLine(c.mnem, ShownAll(xs), d.mnem, ShownAll(ys));
      ReadBackPieces(xs, ys);
    }
  }

  // ------------------------------------------------------------------------
  // Programs
  // ------------------------------------------------------------------------

  lemma FormSameIff(p: Program, i: nat, q: Program, j: nat)
    requires GoodProgram(p) && GoodProgram(q) && Readable(p) && Readable(q) && i < |p.funcs| && j < |q.funcs|
    requires p.funcs[i].name == q.funcs[j].name
    ensures NormalForm(p, i) == NormalForm(q, j) <==> SameFunction(p, i, q, j)
  {
    var c, d := p.funcs[i].code, q.funcs[j].code;
    assert GoodFunction(p, p.funcs[i]) && GoodFunction(q, q.funcs[j]);
    hide GoodCode, ReadableCode, CodeLine, SameInstruction;
    if |c| == |d| {
      forall n | 0 <= n < |c|
        ensures NormalForm(p, i)[n] == NormalForm(q, j)[n] <==> SameInstruction(p, i, c[n], q, j, d[n])
      {
        LineSameIff(p, i, c[n], q, j, d[n]);
      }
    }
  }

  /** Two readable programs, linked anywhere, compare equal exactly if they have
      the same functions with the same instructions. */
  lemma SameCodeIff(p: Program, l: Layout, a: Image, q: Program, m: Layout, b: Image)
    requires GoodProgram(p) && GoodProgram(q) && Readable(p) && Readable(q) && Placed(p, l, a) && Placed(q, m, b)
    ensures SameCode(a, b) <==> SameProgram(p, q)
  {
    NamesPlaced(p, l, a);
    NamesPlaced(q, m, b);
    if SameCode(a, b) { EqualMeansSame(p, l, a, q, m, b); }
    if SameProgram(p, q) { SameMeansEqual(p, l, a, q, m, b); }
  }

  lemma FormsOf(p: Program, l: Layout, a: Image, i: nat, q: Program, m: Layout, b: Image, j: nat)
    requires GoodProgram(p) && GoodProgram(q) && Readable(p) && Readable(q) && Placed(p, l, a) && Placed(q, m, b)
    requires i < |p.funcs| && j < |q.funcs| && p.funcs[i].name == q.funcs[j].name
    ensures Normalised(a, p.funcs[i].name) == Normalised(b, p.funcs[i].name) <==> SameFunction(p, i, q, j)
  {
    hide GoodProgram, Readable, Placed, Normalised, NormalForm, SameFunction;
    NormalFormOfPlaced(p, l, a, i);
    NormalFormOfPlaced(q, m, b, j);
    FormSameIff(p, i, q, j);
  }

  lemma EqualMeansSame(p: Program, l: Layout, a: Image, q: Program, m: Layout, b: Image)
    requires GoodProgram(p) && GoodProgram(q) && Readable(p) && Readable(q) && Placed(p, l, a) && Placed(q, m, b)
    requires SameCode(a, b)
    ensures SameProgram(p, q)
  {
    NamesPlaced(p, l, a);
    NamesPlaced(q, m, b);
    hide GoodProgram, Readable, Placed, Normalised, SameFunction, Names;
    forall i | 0 <= i < |p.funcs| ensures IsIn(p, i, q) {
      assert p.funcs[i].name in Names(a);
      var j: nat :| j < |q.funcs| && q.funcs[j].name == p.funcs[i].name;
      FormsOf(p, l, a, i, q, m, b, j);
    }
    forall j | 0 <= j < |q.funcs| ensures Holds(p, q, j) {
      assert q.funcs[j].name in Names(b);
      var i: nat :| i < |p.funcs| && p.funcs[i].name == q.funcs[j].name;
      FormsOf(p, l, a, i, q, m, b, j);
    }
  }

  lemma NameSame(p: Program, i: nat, q: Program, j: nat)
    requires i < |p.funcs| && j < |q.funcs| && SameFunction(p, i, q, j)
    ensures p.funcs[i].name == q.funcs[j].name
  {
  }

  lemma SameMeansEqual(p: Program, l: Layout, a: Image, q: Program, m: Layout, b: Image)
    requires GoodProgram(p) && GoodProgram(q) && Readable(p) && Readable(q) && Placed(p, l, a) && Placed(q, m, b)
    requires SameProgram(p, q)
    ensures SameCode(a, b)
  {
    NamesPlaced(p, l, a);
    NamesPlaced(q, m, b);
    hide GoodProgram, Readable, Placed, Normalised, SameFunction, Names;
    forall n | n in Names(a) ensures n in Names(b) && Normalised(a, n) == Normalised(b, n) {
      var i: nat :| i < |p.funcs| && p.funcs[i].name == n;
      assert IsIn(p, i, q);
      var j: nat :| j < |q.funcs| && SameFunction(p, i, q, j);
      NameSame(p, i, q, j);
      FormsOf(p, l, a, i, q, m, b, j);
    }
    forall n | n in Names(b) ensures n in Names(a) {
      var j: nat :| j < |q.funcs| && q.funcs[j].name == n;
      assert Holds(p, q, j);
      var i: nat :| i < |p.funcs| && SameFunction(p, i, q, j);
      NameSame(p, i, q, j);
    }
  }
}
