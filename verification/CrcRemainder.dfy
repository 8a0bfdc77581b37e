/** The CRC as a remainder: polynomials over GF(2) as bits, the highest power
    first, divided by x^16+x^12+x^5+1 (tools/protocol.py, CRC-16/CCITT-FALSE). */
module CrcRemainder {
  import opened Crc

  // ------------------------------------------------------------------------
  // Polynomials over GF(2)
  // ------------------------------------------------------------------------

  function Zeros(n: nat): (z: seq<bool>)
    ensures |z| == n
  {
    seq(n, i => false)
  }

  function Ones(n: nat): (z: seq<bool>)
    ensures |z| == n
  {
    seq(n, i => true)
  }

  /** The sum of two polynomials given with as many coefficients. */
  function Sum(p: seq<bool>, q: seq<bool>): (r: seq<bool>)
    requires |p| == |q|
    ensures |r| == |p|
  {
    seq(|p|, i requires 0 <= i < |p| => p[i] != q[i])
  }

  /** x^16 + x^12 + x^5 + 1. */
  const GENERATOR: seq<bool> :=
    [true, false, false, false, true, false, false, false, false, false, false, true, false, false, false, false, true]

  /** The generator times x^n. */
  function Raised(n: nat): (m: seq<bool>)
    ensures |m| == n + 17
  {
    GENERATOR + Zeros(n)
  }

  /** q times the generator: 16 coefficients more than q. */
  function Multiple(q: seq<bool>): (m: seq<bool>)
    ensures |m| == |q| + 16
  {
    if q == [] then Zeros(16)
    else
      var later := [false] + Multiple(q[1..]);
      if q[0] then Sum(Raised(|q| - 1), later) else later
  }

  /** r, of degree below 16, with the coefficients of a longer polynomial. */
  function Padded(r: seq<bool>, n: nat): (p: seq<bool>)
    ensures |p| == n + |r|
  {
    Zeros(n) + r
  }

  /** m = q * generator + r. */
  predicate Divides(m: seq<bool>, q: seq<bool>, r: seq<bool>) {
    |r| == 16 && |m| == |q| + 16 && m == Sum(Multiple(q), Padded(r, |q|))
  }

  /** data * x^16 + 0xFFFF * x^(8 n), for the n bytes of the data. */
  function Dividend(bits: seq<bool>): (m: seq<bool>)
    ensures |m| == |bits| + 16
  {
    Sum(bits + Zeros(16), Ones(16) + Zeros(|bits|))
  }

  /** The bit of a word that stands for x^(15-i). */
  function Mask(i: nat): bv16 { if i == 0 then 0x8000 else Mask(i - 1) >> 1 }

  predicate Has(w: bv16, mask: bv16) { w & mask != 0 }

  /** The 16 bits of a word, the highest first. */
  function WordBits(w: bv16): (bits: seq<bool>)
    ensures |bits| == 16
  {
    seq(16, i requires 0 <= i < 16 => Has(w, Mask(i)))
  }

  // ------------------------------------------------------------------------
  // A remainder is unique
  // ------------------------------------------------------------------------

  /** What a leading coefficient adds below itself. */
  function Below(lead: bool, n: nat): (m: seq<bool>)
    requires n > 0
    ensures |m| == n + 15
  {
    if lead then GENERATOR[1..] + Zeros(n - 1) else Zeros(n + 15)
  }

  lemma SumFirst(p: seq<bool>, q: seq<bool>)
    requires |p| == |q| > 0
    ensures Sum(p, q)[0] == (p[0] != q[0]) && Sum(p, q)[1..] == Sum(p[1..], q[1..])
  {
  }

  lemma SumAssoc(a: seq<bool>, b: seq<bool>, c: seq<bool>)
    requires |a| == |b| == |c|
    ensures Sum(Sum(a, b), c) == Sum(a, Sum(b, c)) && Sum(a, Sum(a, b)) == b
  {
  }

  lemma SumZeros(p: seq<bool>)
    ensures Sum(Zeros(|p|), p) == p
  {
  }

  lemma GeneratorFirst(n: nat)
    requires n > 0
    ensures Raised(n - 1)[0] && Raised(n - 1)[1..] == Below(true, n)
  {
  }

  lemma MultipleIs(q: seq<bool>)
    requires q != []
    ensures var later := [false] + Multiple(q[1..]);
            Multiple(q) == if q[0] then Sum(Raised(|q| - 1), later) else later
  {
    hide Sum, Zeros, Raised;
  }

  lemma MultipleLeads(q: seq<bool>)
    requires q != [] && q[0]
    ensures Multiple(q)[0] && Multiple(q)[1..] == Sum(Below(true, |q|), Multiple(q[1..]))
  {
    hide Multiple, Sum, Zeros, Below, Raised;
    var later := [false] + Multiple(q[1..]);
    MultipleIs(q);
    assert later[1..] == Multiple(q[1..]);
    GeneratorFirst(|q|);
    SumFirst(Raised(|q| - 1), later);
  }

  lemma MultipleStays(q: seq<bool>)
    requires q != [] && !q[0]
    ensures !Multiple(q)[0] && Multiple(q)[1..] == Sum(Below(false, |q|), Multiple(q[1..]))
  {
    var m := Multiple(q[1..]);
    MultipleIs(q);
    hide Multiple, Sum, Zeros, Raised;
    assert ([false] + m)[1..] == m;
    SumZeros(m);
  }

  lemma MultipleFirst(q: seq<bool>)
    requires q != []
    ensures Multiple(q)[0] == q[0] && Multiple(q)[1..] == Sum(Below(q[0], |q|), Multiple(q[1..]))
  {
    hide Multiple, Sum, Below;
    if q[0] { MultipleLeads(q); } else { MultipleStays(q); }
  }

  lemma PaddedFirst(r: seq<bool>, n: nat)
    requires n > 0
    ensures !Padded(r, n)[0] && Padded(r, n)[1..] == Padded(r, n - 1)
  {
  }

  lemma FirstCoefficient(m: seq<bool>, q: seq<bool>, r: seq<bool>)
    requires Divides(m, q, r) && q != []
    ensures m[0] == q[0]
    ensures m[1..] == Sum(Below(q[0], |q|), Sum(Multiple(q[1..]), Padded(r, |q| - 1)))
  {
    MultipleFirst(q);
    PaddedFirst(r, |q|);
    hide Multiple, Sum, Below, Padded, Zeros;
    SumFirst(Multiple(q), Padded(r, |q|));
    SumAssoc(Below(q[0], |q|), Multiple(q[1..]), Padded(r, |q| - 1));
  }

  lemma SumCancels(a: seq<bool>, p: seq<bool>, q: seq<bool>)
    requires |a| == |p| == |q| && Sum(a, p) == Sum(a, q)
    ensures p == q
  {
    forall i | 0 <= i < |p| ensures p[i] == q[i] { assert Sum(a, p)[i] == Sum(a, q)[i]; }
  }

  /** Quotient and remainder are determined by the dividend. */
  lemma {:induction false} RemainderUnique(m: seq<bool>, q: seq<bool>, r: seq<bool>, q': seq<bool>, r': seq<bool>)
    requires Divides(m, q, r) && Divides(m, q', r')
    ensures q == q' && r == r'
    decreases |q|
  {
    if q == [] {
      assert q' == [];
      SumCancels(Zeros(16), Padded(r, 0), Padded(r', 0));
      assert Padded(r, 0) == r && Padded(r', 0) == r';
    } else {
      FirstCoefficient(m, q, r);
      FirstCoefficient(m, q', r');
      hide Multiple;
      var s, s' := Sum(Multiple(q[1..]), Padded(r, |q| - 1)), Sum(Multiple(q'[1..]), Padded(r', |q| - 1));
      SumCancels(Below(q[0], |q|), s, s');
      RemainderUnique(s, q[1..], r, q'[1..], r');
      assert q == [q[0]] + q[1..] && q' == [q'[0]] + q'[1..];
    }
  }

  // ------------------------------------------------------------------------
  // The register holds the remainder
  // ------------------------------------------------------------------------

  /** A register's content in front of the message bits still to come. */
  function Ahead(w: bv16, bits: seq<bool>): (m: seq<bool>)
    ensures |m| == |bits| + 16
  {
    Sum(WordBits(w) + Zeros(|bits|), bits + Zeros(16))
  }

  lemma Masks(i: nat)
    requires i < 16
    ensures Mask(i) == [0x8000 as bv16, 0x4000, 0x2000, 0x1000, 0x0800, 0x0400, 0x0200, 0x0100,
                        0x0080, 0x0040, 0x0020, 0x0010, 0x0008, 0x0004, 0x0002, 0x0001][i]
  {
    assert Mask(0) == 0x8000 && Mask(1) == 0x4000 && Mask(2) == 0x2000 && Mask(3) == 0x1000;
    assert Mask(4) == 0x0800 && Mask(5) == 0x0400 && Mask(6) == 0x0200 && Mask(7) == 0x0100;
    assert Mask(8) == 0x0080 && Mask(9) == 0x0040 && Mask(10) == 0x0020 && Mask(11) == 0x0010;
    assert Mask(12) == 0x0008 && Mask(13) == 0x0004 && Mask(14) == 0x0002 && Mask(15) == 0x0001;
  }

  lemma UpMask(w: bv16, m: bv16)
    requires m & 1 == 0
    ensures Has(Up(w), m) == Has(w, m >> 1)
  {
  }

  lemma XorMask(w: bv16, m: bv16)
    requires m & 0x1021 == 0
    ensures Has(Xor(w, 0x1021), m) == Has(w, m)
  {
  }

  lemma XorOnes(w: bv16)
    ensures Has(Xor(w, 0x1021), 0x1000) == !Has(w, 0x1000)
    ensures Has(Xor(w, 0x1021), 0x0020) == !Has(w, 0x0020)
    ensures Has(Xor(w, 0x1021), 0x0001) == !Has(w, 0x0001)
  {
  }

  lemma EvenMask(i: nat)
    requires i < 15
    ensures Mask(i) & 1 == 0
  {
    Masks(i);
  }

  lemma UpEven(w: bv16)
    ensures !Has(Up(w), 0x0001)
  {
  }

  lemma UpBit(w: bv16, i: nat)
    requires i < 15
    ensures Has(Up(w), Mask(i)) == Has(w, Mask(i + 1))
  {
    EvenMask(i);
    UpMask(w, Mask(i));
    hide Has, Up;
  }

  lemma UpBits(w: bv16)
    ensures var b, n := WordBits(w), WordBits(Up(w));
            (forall i :: 0 <= i < 15 ==> n[i] == b[i + 1]) && !n[15]
  {
    hide Has, Up, Mask;
    forall i | 0 <= i < 15 ensures WordBits(Up(w))[i] == WordBits(w)[i + 1] { UpBit(w, i); }
    Masks(15);
    UpEven(w);
  }

  lemma GeneratorMask(i: nat)
    requires i < 16
    ensures if GENERATOR[i + 1] then Mask(i) in {0x1000, 0x0020, 0x0001} else Mask(i) & 0x1021 == 0
  {
    Masks(i);
  }

  lemma GeneratorBits(w: bv16)
    ensures var b, n := WordBits(w), WordBits(Xor(w, 0x1021));
            forall i :: 0 <= i < 16 ==> n[i] == (b[i] != GENERATOR[i + 1])
  {
    hide Has, Xor, Mask;
    forall i | 0 <= i < 16
      ensures WordBits(Xor(w, 0x1021))[i] == (WordBits(w)[i] != GENERATOR[i + 1])
    {
      GeneratorMask(i);
      XorOnes(w);
      if !GENERATOR[i + 1] { XorMask(w, Mask(i)); }
    }
  }

  lemma LeadBit(w: bv16, bit: bool)
    ensures IsTop(Xor(w, Top(bit))) == (Has(w, 0x8000) != bit) && Up(Xor(w, Top(bit))) == Up(w)
  {
  }

  lemma StepWord(w: bv16, bit: bool)
    ensures AbsorbBit(w, bit) == if WordBits(w)[0] != bit then Xor(Up(w), 0x1021) else Up(w)
  {
    LeadBit(w, bit);
    Masks(0);
    hide Has, Xor, Up, IsTop, Top;
  }

  /** One step of the register is one step of the division. */
  lemma StepBits(w: bv16, bit: bool)
    ensures var lead := WordBits(w)[0] != bit; var next := WordBits(AbsorbBit(w, bit));
            && (forall i :: 0 <= i < 15 ==> next[i] == (WordBits(w)[i + 1] != (lead && GENERATOR[i + 1])))
            && next[15] == lead
  {
    StepWord(w, bit);
    UpBits(w);
    GeneratorBits(Up(w));
    hide WordBits, AbsorbBit, Up, Xor;
    assert GENERATOR[16];
  }

  lemma AheadStep(w: bv16, bits: seq<bool>)
    requires bits != []
    ensures var m, lead := Ahead(w, bits), WordBits(w)[0] != bits[0];
            && m[0] == lead
            && Ahead(AbsorbBit(w, bits[0]), bits[1..])
               == Sum(Below(lead, |bits|), m[1..])
  {
    StepBits(w, bits[0]);
    hide AbsorbBit, WordBits;
    var m, lead, next := Ahead(w, bits), WordBits(w)[0] != bits[0], AbsorbBit(w, bits[0]);
    var g := Below(lead, |bits|);
    var n := Ahead(next, bits[1..]);
    forall i | 0 <= i < |n| ensures n[i] == Sum(g, m[1..])[i] {
      var rest, all := bits[1..] + Zeros(16), bits + Zeros(16);
      assert rest[i] == all[i + 1];
      if i < 15 {
        assert (WordBits(w) + Zeros(|bits|))[i + 1] == WordBits(w)[i + 1];
        assert (WordBits(next) + Zeros(|bits| - 1))[i] == WordBits(next)[i];
        assert g[i] == (lead && GENERATOR[i + 1]);
      } else if i == 15 {
        assert GENERATOR[16] && g[15] == lead && (WordBits(next) + Zeros(|bits| - 1))[15] == WordBits(next)[15];
        assert !(WordBits(w) + Zeros(|bits|))[16];
      } else {
        assert !(WordBits(w) + Zeros(|bits|))[i + 1] && !(WordBits(next) + Zeros(|bits| - 1))[i];
      }
    }
  }

  lemma AbsorbFirst(w: bv16, bits: seq<bool>)
    requires bits != []
    ensures AbsorbBits(w, bits) == AbsorbBits(AbsorbBit(w, bits[0]), bits[1..])
  {
    hide AbsorbBit;
    assert bits == [bits[0]] + bits[1..] && [bits[0]][..0] == [];
    AbsorbBitsConcat(w, [bits[0]], bits[1..]);
    assert AbsorbBits(w, [bits[0]]) == AbsorbBit(w, bits[0]);
  }

  lemma NothingAhead(w: bv16)
    ensures Divides(Ahead(w, []), [], WordBits(w))
  {
    hide Has, Mask;
    var b := WordBits(w);
    assert Ahead(w, []) == b && Padded(b, 0) == b && Sum(Zeros(16), b) == b;
  }

  /** Dividing what is ahead leaves the register after all the bits. */
  lemma {:induction false} RegisterDivides(w: bv16, bits: seq<bool>) returns (q: seq<bool>)
    ensures Divides(Ahead(w, bits), q, WordBits(AbsorbBits(w, bits)))
    decreases |bits|
  {
    if bits == [] {
      NothingAhead(w);
      q := [];
    } else {
      hide AbsorbBit, WordBits, Divides, Ahead, Below, Sum;
      var lead, next := WordBits(w)[0] != bits[0], AbsorbBit(w, bits[0]);
      var more := RegisterDivides(next, bits[1..]);
      AheadStep(w, bits);
      AbsorbFirst(w, bits);
      q := [lead] + more;
      assert q[1..] == more;
      hide AbsorbBits;
      OneMoreBit(Ahead(w, bits), Ahead(next, bits[1..]), bits, q, WordBits(AbsorbBits(w, bits)));
    }
  }

  lemma OneMoreBit(m: seq<bool>, n: seq<bool>, bits: seq<bool>, q: seq<bool>, r: seq<bool>)
    requires q != [] && bits != [] && |m| == |bits| + 16 && |n| == |m| - 1
    requires m[0] == q[0] && Divides(n, q[1..], r) && n == Sum(Below(q[0], |bits|), m[1..])
    ensures Divides(m, q, r)
  {
    assert |bits| == |q|;
    MultipleFirst(q);
    PaddedFirst(r, |q|);
    hide Multiple, Sum, Below, Padded, Zeros;
    var g, back := Below(q[0], |q|), Sum(Multiple(q), Padded(r, |q|));
    SumFirst(Multiple(q), Padded(r, |q|));
    SumAssoc(g, Multiple(q[1..]), Padded(r, |q| - 1));
    SumAssoc(g, m[1..], m[1..]);
    assert m == [m[0]] + m[1..] && back == [back[0]] + back[1..];
  }

  lemma StartIsOnes(bits: seq<bool>)
    ensures Ahead(0xFFFF, bits) == Dividend(bits)
  {
    assert WordBits(0xFFFF) == Ones(16);
  }

  /** The CRC of n bytes of data is the remainder of data * x^16 + 0xFFFF * x^(8 n)
      by x^16 + x^12 + x^5 + 1: of all polynomials of degree below 16 only its
      bits differ from the dividend by a multiple of the generator. */
  lemma CrcIsRemainder(data: seq<byte>, r: seq<bool>)
    ensures (exists q :: Divides(Dividend(BitsOf(data)), q, r)) <==> r == WordBits(CrcOf(data))
  {
    var bits := BitsOf(data);
    CrcIsBits(0xFFFF, data);
    StartIsOnes(bits);
    hide BitsOf, AbsorbBits, WordBits, Divides, CrcFrom;
    var q := RegisterDivides(0xFFFF, bits);
    if q' :| Divides(Dividend(bits), q', r) {
      RemainderUnique(Dividend(bits), q, WordBits(CrcOf(data)), q', r);
    }
  }

  // ------------------------------------------------------------------------
  // The check value
  // ------------------------------------------------------------------------

  lemma Eight(crc: bv16)
    ensures Shifts(crc, 8) == Shift(Shift(Shift(Shift(Shift(Shift(Shift(Shift(crc))))))))
  {
    hide Shift;
    assert Shifts(crc, 1) == Shift(crc) && Shifts(crc, 2) == Shift(Shift(crc));
    assert Shifts(crc, 3) == Shift(Shift(Shift(crc))) && Shifts(crc, 4) == Shift(Shift(Shift(Shift(crc))));
    assert Shifts(crc, 5) == Shift(Shift(Shift(Shift(Shift(crc)))));
    assert Shifts(crc, 6) == Shift(Shift(Shift(Shift(Shift(Shift(crc))))));
    assert Shifts(crc, 7) == Shift(Shift(Shift(Shift(Shift(Shift(Shift(crc)))))));
  }

  lemma Next(data: seq<byte>, b: byte)
    ensures CrcOf(data + [b]) == Shifts(Xor(CrcOf(data), High(b)), 8)
  {
    hide Shifts, Xor, High;
    assert (data + [b])[..|data|] == data;
  }

  lemma Empty()
    ensures CrcOf([]) == 0xFFFF
  {
  }

  lemma NextByte(data: seq<byte>, b: byte, more: seq<byte>, before: bv16, after: bv16)
    requires CrcOf(data) == before && more == data + [b]
    requires Shift(Shift(Shift(Shift(Shift(Shift(Shift(Shift(Xor(before, High(b)))))))))) == after
    ensures CrcOf(more) == after
  {
    hide CrcOf, Shift, Xor, High;
    Next(data, b);
    Eight(Xor(before, High(b)));
  }

  /** The check value of CRC-16/CCITT-FALSE: the digits 1 to 9 in ASCII. */
  lemma CheckValue()
    ensures CrcOf([0x31, 0x32, 0x33, 0x34, 0x35, 0x36, 0x37, 0x38, 0x39]) == 0x29B1
  {
    hide CrcOf;
    Empty();
    NextByte([], 0x31, [0x31], 0xFFFF, 0xC782);
    NextByte([0x31], 0x32, [0x31, 0x32], 0xC782, 0x3DBA);
    NextByte([0x31, 0x32], 0x33, [0x31, 0x32, 0x33], 0x3DBA, 0x5BCE);
    NextByte([0x31, 0x32, 0x33], 0x34, [0x31, 0x32, 0x33, 0x34], 0x5BCE, 0x5349);
    NextByte([0x31, 0x32, 0x33, 0x34], 0x35, [0x31, 0x32, 0x33, 0x34, 0x35], 0x5349, 0x4560);
    NextByte([0x31, 0x32, 0x33, 0x34, 0x35], 0x36, [0x31, 0x32, 0x33, 0x34, 0x35, 0x36], 0x4560, 0x2EF4);
    NextByte([0x31, 0x32, 0x33, 0x34, 0x35, 0x36], 0x37, [0x31, 0x32, 0x33, 0x34, 0x35, 0x36, 0x37], 0x2EF4, 0x7718);
    NextByte([0x31, 0x32, 0x33, 0x34, 0x35, 0x36, 0x37], 0x38,
             [0x31, 0x32, 0x33, 0x34, 0x35, 0x36, 0x37, 0x38], 0x7718, 0xA12B);
    NextByte([0x31, 0x32, 0x33, 0x34, 0x35, 0x36, 0x37, 0x38], 0x39,
             [0x31, 0x32, 0x33, 0x34, 0x35, 0x36, 0x37, 0x38, 0x39], 0xA12B, 0x29B1);
  }

  lemma OneZero()
    ensures CrcOf([0x00]) == 0xE1F0
  {
    Empty();
    NextByte([], 0x00, [0x00], 0xFFFF, 0xE1F0);
  }
}
