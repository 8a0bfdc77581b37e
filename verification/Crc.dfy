/** CRC-16/CCITT-FALSE (tools/protocol.py): generator x^16+x^12+x^5+1, start
    value 0xFFFF, no reflection - and the guarantee that it detects every
    error burst of up to 16 bits. */
module Crc {

  type byte = bv8

  function Xor(a: bv16, b: bv16): bv16 { a ^ b }

  function IsTop(y: bv16): bool { y & 0x8000 != 0 }

  /** bv16 cuts to 16 bits, as `& 0xFFFF` does in the source. */
  function Up(y: bv16): bv16 { y << 1 }

  /** One shift of the register. */
  function Shift(crc: bv16): bv16 {
    if IsTop(crc) then Xor(Up(crc), 0x1021) else Up(crc)
  }

  function Shifts(crc: bv16, k: nat): bv16 {
    if k == 0 then crc else Shift(Shifts(crc, k - 1))
  }

  function High(b: byte): bv16 { (b as bv16) << 8 }

  function Absorb(crc: bv16, b: byte): bv16 { Shifts(Xor(crc, High(b)), 8) }

  function CrcFrom(crc: bv16, data: seq<byte>): bv16 {
    if data == [] then crc else Absorb(CrcFrom(crc, data[..|data| - 1]), data[|data| - 1])
  }

  function CrcOf(data: seq<byte>): bv16 { CrcFrom(0xFFFF, data) }

  method Crc16CcittFalse(data: seq<byte>) returns (crc: bv16)
    ensures crc == CrcOf(data)
  {
    hide Shift, Xor, High;
    crc := 0xFFFF;
    for n := 0 to |data|
      invariant crc == CrcFrom(0xFFFF, data[..n])
    {
      assert data[..n + 1][..n] == data[..n];
      crc := Xor(crc, High(data[n]));
      ghost var start := crc;
      for k := 0 to 8
        invariant crc == Shifts(start, k)
      {
        crc := Shift(crc);
      }
    }
    assert data[..|data|] == data;
  }

  // ------------------------------------------------------------------------
  // The CRC bit by bit
  // ------------------------------------------------------------------------

  /** A message bit enters at the top of the register. */
  function Top(bit: bool): bv16 { if bit then 0x8000 else 0 }

  /** The register after one message bit, most significant bits first. */
  function AbsorbBit(crc: bv16, bit: bool): bv16 { Shift(Xor(crc, Top(bit))) }

  function AbsorbBits(crc: bv16, bits: seq<bool>): bv16 {
    if bits == [] then crc else AbsorbBit(AbsorbBits(crc, bits[..|bits| - 1]), bits[|bits| - 1])
  }

  function BitsOfByte(b: byte): (bits: seq<bool>)
    ensures |bits| == 8
  {
    [b & 0x80 != 0, b & 0x40 != 0, b & 0x20 != 0, b & 0x10 != 0,
     b & 0x08 != 0, b & 0x04 != 0, b & 0x02 != 0, b & 0x01 != 0]
  }

  function BitsOf(data: seq<byte>): (bits: seq<bool>)
    ensures |bits| == 8 * |data|
  {
    if data == [] then [] else BitsOf(data[..|data| - 1]) + BitsOfByte(data[|data| - 1])
  }

  lemma XorAssoc(a: bv16, b: bv16, c: bv16)
    ensures Xor(Xor(a, b), c) == Xor(a, Xor(b, c))
  {
  }

  lemma XorComm(a: bv16, b: bv16)
    ensures Xor(a, b) == Xor(b, a)
  {
  }

  lemma XorZero(a: bv16)
    ensures Xor(a, 0) == a && Xor(0, a) == a
  {
  }

  lemma XorEqual(a: bv16, b: bv16)
    ensures Xor(a, b) == 0 <==> a == b
  {
  }

  lemma XorUndo(a: bv16, b: bv16)
    ensures Xor(a, Xor(a, b)) == b
  {
  }

  lemma XorExchange(a: bv16, b: bv16, c: bv16, d: bv16)
    ensures Xor(Xor(a, b), Xor(c, d)) == Xor(Xor(a, c), Xor(b, d))
  {
    hide Xor;
    XorAssoc(a, b, Xor(c, d));
    XorAssoc(b, c, d);
    XorComm(b, c);
    XorAssoc(c, b, d);
    XorAssoc(a, c, Xor(b, d));
  }

  function Feedback(top: bool): bv16 { if top then 0x1021 else 0 }

  lemma ShiftIsFeedback(y: bv16)
    ensures Shift(y) == Xor(Up(y), Feedback(IsTop(y)))
  {
    hide Xor, Up, IsTop;
    XorZero(Up(y));
  }

  lemma UpLinear(a: bv16, b: bv16)
    ensures Up(Xor(a, b)) == Xor(Up(a), Up(b))
  {
  }

  lemma IsTopLinear(a: bv16, b: bv16)
    ensures IsTop(Xor(a, b)) == (IsTop(a) != IsTop(b))
  {
  }

  lemma FeedbackLinear(p: bool, q: bool)
    ensures Feedback(p != q) == Xor(Feedback(p), Feedback(q))
  {
  }

  /** Shifting the register is linear over GF(2). */
  lemma ShiftLinear(a: bv16, b: bv16)
    ensures Shift(Xor(a, b)) == Xor(Shift(a), Shift(b))
  {
    hide Shift, Xor, Up, IsTop, Feedback;
    ShiftIsFeedback(a);
    ShiftIsFeedback(b);
    ShiftIsFeedback(Xor(a, b));
    UpLinear(a, b);
    IsTopLinear(a, b);
    FeedbackLinear(IsTop(a), IsTop(b));
    XorExchange(Up(a), Up(b), Feedback(IsTop(a)), Feedback(IsTop(b)));
  }

  lemma TopXors(p: bool, q: bool)
    ensures Top(q) == Xor(Top(p), Top(p != q))
  {
  }

  lemma AbsorbBitLinear(crc: bv16, d: bv16, p: bool, q: bool)
    ensures AbsorbBit(Xor(crc, d), q) == Xor(AbsorbBit(crc, p), AbsorbBit(d, p != q))
  {
    hide Shift, Xor, Top;
    TopXors(p, q);
    ShiftLinear(Xor(crc, Top(p)), Xor(d, Top(p != q)));
    XorExchange(crc, d, Top(p), Top(p != q));
  }

  function Differences(p: seq<bool>, q: seq<bool>): (d: seq<bool>)
    requires |p| == |q|
    ensures |d| == |p| && forall i :: 0 <= i < |d| ==> d[i] == (p[i] != q[i])
  {
    seq(|p|, i requires 0 <= i < |p| => p[i] != q[i])
  }

  /** The difference between the registers of two messages runs like a
      register fed with the differing bits. */
  lemma {:induction false} DifferenceRuns(crc: bv16, p: seq<bool>, q: seq<bool>)
    requires |p| == |q|
    ensures AbsorbBits(crc, q) == Xor(AbsorbBits(crc, p), AbsorbBits(0, Differences(p, q)))
  {
    hide AbsorbBit, Xor;
    var n := |p|;
    if n == 0 {
      XorZero(crc);
    } else {
      var p', q' := p[..n - 1], q[..n - 1];
      DifferenceRuns(crc, p', q');
      assert Differences(p, q)[..n - 1] == Differences(p', q');
      AbsorbBitLinear(AbsorbBits(crc, p'), AbsorbBits(0, Differences(p', q')), p[n - 1], q[n - 1]);
    }
  }

  lemma SilentStep(d: bv16)
    ensures AbsorbBit(d, false) == 0 <==> d == 0
  {
  }

  /** Without message bits a register that is not zero stays so, and a zero one stays zero. */
  lemma {:induction false} SilenceKeeps(diff: seq<bool>, lo: nat, hi: nat)
    requires lo <= hi <= |diff| && forall i :: lo <= i < hi ==> !diff[i]
    ensures AbsorbBits(0, diff[..hi]) == 0 <==> AbsorbBits(0, diff[..lo]) == 0
  {
    hide AbsorbBit;
    if lo < hi {
      SilenceKeeps(diff, lo, hi - 1);
      assert diff[..hi][..hi - 1] == diff[..hi - 1];
      SilentStep(AbsorbBits(0, diff[..hi - 1]));
    }
  }

  /** The low bits that are clear if `r` more message bits bring the register to zero. */
  function LowMask(r: nat): bv16 { if r == 0 then 0xFFFF else LowMask(r - 1) >> 1 }

  lemma LowBitSet(r: nat)
    requires r <= 15
    ensures LowMask(r) & 1 == 1
  {
    assert LowMask(0) == 0xFFFF && LowMask(1) == 0x7FFF && LowMask(2) == 0x3FFF && LowMask(3) == 0x1FFF;
    assert LowMask(4) == 0x0FFF && LowMask(5) == 0x07FF && LowMask(6) == 0x03FF && LowMask(7) == 0x01FF;
    assert LowMask(8) == 0x00FF && LowMask(9) == 0x007F && LowMask(10) == 0x003F && LowMask(11) == 0x001F;
    assert LowMask(12) == 0x000F && LowMask(13) == 0x0007 && LowMask(14) == 0x0003 && LowMask(15) == 0x0001;
  }

  predicate LowClear(d: bv16, mask: bv16) { d & mask == 0 }

  lemma BackStep(d: bv16, bit: bool, mask: bv16)
    requires mask & 1 == 1 && LowClear(AbsorbBit(d, bit), mask)
    ensures LowClear(d, mask >> 1)
  {
  }

  /** If `hi - k` more bits end in a zero register, the low bits of the register are clear. */
  lemma {:induction false} BackToZero(diff: seq<bool>, k: nat, hi: nat)
    requires k <= hi <= |diff| && hi - k <= 16 && AbsorbBits(0, diff[..hi]) == 0
    ensures LowClear(AbsorbBits(0, diff[..k]), LowMask(hi - k))
    decreases hi - k
  {
    hide AbsorbBit;
    if k < hi {
      BackToZero(diff, k + 1, hi);
      assert diff[..k + 1][..k] == diff[..k];
      LowBitSet(hi - k - 1);
      BackStep(AbsorbBits(0, diff[..k]), diff[k], LowMask(hi - k - 1));
    }
  }

  lemma PolyLowBit(mask: bv16)
    requires mask & 1 == 1
    ensures AbsorbBit(0, true) != 0 && !LowClear(AbsorbBit(0, true), mask)
  {
  }

  /** Differences confined to 16 bits leave a register that is not zero. */
  lemma BurstLeavesTrace(diff: seq<bool>, lo: nat, hi: nat)
    requires lo < hi <= |diff| && hi - lo <= 16 && diff[lo]
    requires forall i :: 0 <= i < |diff| && !(lo <= i < hi) ==> !diff[i]
    ensures AbsorbBits(0, diff) != 0
  {
    hide AbsorbBit, LowClear, LowMask;
    assert diff[..0] == [] && diff[..|diff|] == diff;
    SilenceKeeps(diff, 0, lo);
    SilenceKeeps(diff, hi, |diff|);
    assert diff[..lo + 1][..lo] == diff[..lo];
    if AbsorbBits(0, diff[..hi]) == 0 {
      BackToZero(diff, lo + 1, hi);
      LowBitSet(hi - lo - 1);
      PolyLowBit(LowMask(hi - lo - 1));
      assert false;
    }
  }

  lemma SameEverywhere(p: seq<bool>, q: seq<bool>, lo: nat, hi: nat)
    requires |p| == |q| && hi <= lo && forall i :: 0 <= i < |p| && !(lo <= i < hi) ==> p[i] == q[i]
    ensures p == q
  {
  }

  /** Two messages that differ in a burst of at most 16 bits never have the same register. */
  lemma {:induction false} BurstChangesRegister(crc: bv16, p: seq<bool>, q: seq<bool>, lo: nat, hi: nat)
    requires |p| == |q| && hi <= |p| && hi <= lo + 16
    requires p != q && forall i :: 0 <= i < |p| && !(lo <= i < hi) ==> p[i] == q[i]
    ensures AbsorbBits(crc, p) != AbsorbBits(crc, q)
    decreases |p| - lo
  {
    hide AbsorbBit, Xor, AbsorbBits;
    if hi <= lo {
      SameEverywhere(p, q, lo, hi);
      assert false;
    } else if p[lo] == q[lo] {
      BurstChangesRegister(crc, p, q, lo + 1, hi);
    } else {
      BurstLeavesTrace(Differences(p, q), lo, hi);
      DifferenceRuns(crc, p, q);
      XorUndo(AbsorbBits(crc, p), AbsorbBits(0, Differences(p, q)));
      XorEqual(AbsorbBits(crc, p), AbsorbBits(crc, q));
    }
  }

  // ------------------------------------------------------------------------
  // Bytes are eight bits
  // ------------------------------------------------------------------------

  function Rest(y: bv16): bv16 { y & 0x7FFF }

  lemma SplitTop(y: bv16)
    ensures y == Xor(Top(IsTop(y)), Rest(y)) && Shift(Rest(y)) == Up(y)
  {
  }

  /** A message bit waiting in the register's top bit is absorbed by the next
      shift; the bits waiting below it move up. */
  lemma PeelBit(s: bv16, y: bv16)
    ensures Shift(Xor(s, y)) == Xor(AbsorbBit(s, IsTop(y)), Up(y))
  {
    hide Shift, Xor, Top, Rest, IsTop, Up;
    SplitTop(y);
    XorAssoc(s, Top(IsTop(y)), Rest(y));
    ShiftLinear(Xor(s, Top(IsTop(y))), Rest(y));
  }

  /** The message bits waiting after `k` shifts. */
  function Waiting(b: byte, k: nat): bv16 { if k == 0 then High(b) else Up(Waiting(b, k - 1)) }

  lemma WaitingBits(b: byte)
    ensures forall k :: 0 <= k < 8 ==> BitsOfByte(b)[k] == IsTop(Waiting(b, k))
    ensures Waiting(b, 8) == 0
  {
    var w := High(b);
    assert Waiting(b, 0) == w && Waiting(b, 1) == w << 1 && Waiting(b, 2) == w << 2 && Waiting(b, 3) == w << 3;
    assert Waiting(b, 4) == w << 4 && Waiting(b, 5) == w << 5 && Waiting(b, 6) == w << 6 && Waiting(b, 7) == w << 7;
    assert Waiting(b, 8) == w << 8;
  }

  lemma {:induction false} ShiftsPeel(crc: bv16, b: byte, k: nat)
    requires k <= 8
    ensures Shifts(Xor(crc, High(b)), k) == Xor(AbsorbBits(crc, BitsOfByte(b)[..k]), Waiting(b, k))
  {
    hide Shift, AbsorbBit, BitsOfByte, Xor, High, Up, IsTop;
    var bits := BitsOfByte(b);
    if k > 0 {
      ShiftsPeel(crc, b, k - 1);
      PeelBit(AbsorbBits(crc, bits[..k - 1]), Waiting(b, k - 1));
      WaitingBits(b);
      assert bits[..k][..k - 1] == bits[..k - 1];
    }
  }

  lemma {:induction false} AbsorbBitsConcat(crc: bv16, a: seq<bool>, b: seq<bool>)
    ensures AbsorbBits(crc, a + b) == AbsorbBits(AbsorbBits(crc, a), b)
  {
    hide AbsorbBit;
    if b == [] {
      assert a + b == a;
    } else {
      assert (a + b)[..|a + b| - 1] == a + b[..|b| - 1];
      AbsorbBitsConcat(crc, a, b[..|b| - 1]);
    }
  }

  /** Xor-ing a whole byte in first is the same as feeding its bits one by one. */
  lemma AbsorbIsBits(crc: bv16, b: byte)
    ensures Absorb(crc, b) == AbsorbBits(crc, BitsOfByte(b))
  {
    hide Shifts, BitsOfByte, Xor, High, AbsorbBit, Waiting;
    ShiftsPeel(crc, b, 8);
    WaitingBits(b);
    XorZero(AbsorbBits(crc, BitsOfByte(b)));
    assert BitsOfByte(b)[..8] == BitsOfByte(b);
  }

  lemma {:induction false} CrcIsBits(crc: bv16, data: seq<byte>)
    ensures CrcFrom(crc, data) == AbsorbBits(crc, BitsOf(data))
  {
    hide Absorb, BitsOfByte, AbsorbBit;
    if data != [] {
      CrcIsBits(crc, data[..|data| - 1]);
      AbsorbIsBits(CrcFrom(crc, data[..|data| - 1]), data[|data| - 1]);
      AbsorbBitsConcat(crc, BitsOf(data[..|data| - 1]), BitsOfByte(data[|data| - 1]));
    }
  }

  lemma BitsOfByteInjective(a: byte, b: byte)
    requires BitsOfByte(a) == BitsOfByte(b)
    ensures a == b
  {
    var p, q := BitsOfByte(a), BitsOfByte(b);
    assert p[0] == q[0] && p[1] == q[1] && p[2] == q[2] && p[3] == q[3];
    assert p[4] == q[4] && p[5] == q[5] && p[6] == q[6] && p[7] == q[7];
  }

  lemma {:induction false} BitsOfInjective(p: seq<byte>, q: seq<byte>)
    requires |p| == |q| && BitsOf(p) == BitsOf(q)
    ensures p == q
  {
    hide BitsOfByte;
    if p != [] {
      var n := |p| - 1;
      var bp, bq := BitsOf(p), BitsOf(q);
      assert bp[..8 * n] == BitsOf(p[..n]) && bp[8 * n..] == BitsOfByte(p[n]);
      assert bq[..8 * n] == BitsOf(q[..n]) && bq[8 * n..] == BitsOfByte(q[n]);
      BitsOfInjective(p[..n], q[..n]);
      BitsOfByteInjective(p[n], q[n]);
      assert p == p[..n] + [p[n]] && q == q[..n] + [q[n]];
    }
  }

  /** Messages of equal length that differ only within `width` bits from bit `lo` on. */
  ghost predicate DifferInBurst(p: seq<byte>, q: seq<byte>, lo: nat, width: nat) {
    && |p| == |q| && p != q
    && forall i :: 0 <= i < 8 * |p| && !(lo <= i < lo + width) ==> BitsOf(p)[i] == BitsOf(q)[i]
  }

  /** Two payloads that differ in a burst of at most 16 bits never have the same CRC. */
  lemma BurstDetected(p: seq<byte>, q: seq<byte>, lo: nat, width: nat)
    requires width <= 16 && DifferInBurst(p, q, lo, width)
    ensures CrcOf(p) != CrcOf(q)
  {
    hide BitsOf, AbsorbBits;
    CrcIsBits(0xFFFF, p);
    CrcIsBits(0xFFFF, q);
    if BitsOf(p) == BitsOf(q) {
      BitsOfInjective(p, q);
      assert false;
    }
    BurstChangesRegister(0xFFFF, BitsOf(p), BitsOf(q), lo, if lo + width <= 8 * |p| then lo + width else 8 * |p|);
  }
}
