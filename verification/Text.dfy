/** The text the tools print and read back: decimal numbers, literal pieces,
    and the bytes of an ASCII line. Parsers take the text that is left and give
    back what is left after them. */
module Text {
  import opened Common

  predicate IsDigit(c: char) { '0' <= c <= '9' }

  predicate IsLower(c: char) { 'a' <= c <= 'z' }

  predicate IsWord(c: char) { IsLower(c) || 'A' <= c <= 'Z' || IsDigit(c) || c == '_' }

  predicate AllDigits(s: string) { forall i :: 0 <= i < |s| ==> IsDigit(s[i]) }

  function DigitChar(d: nat): char
    requires d < 10
  {
    "0123456789"[d]
  }

  function DigitValue(c: char): nat
    requires IsDigit(c)
  {
    c as int - '0' as int
  }

  /** The decimal numeral of n. */
  function Decimal(n: nat): (s: string)
    ensures s != []
  {
    if n < 10 then [DigitChar(n)] else Decimal(n / 10) + [DigitChar(n % 10)]
  }

  function NumeralValue(s: string): nat
    requires AllDigits(s)
  {
    if s == [] then 0 else 10 * NumeralValue(s[..|s| - 1]) + DigitValue(s[|s| - 1])
  }

  lemma {:induction false} DecimalValue(n: nat)
    ensures AllDigits(Decimal(n)) && NumeralValue(Decimal(n)) == n
  {
    if n >= 10 {
      DecimalValue(n / 10);
      assert Decimal(n)[..|Decimal(n)| - 1] == Decimal(n / 10);
    }
  }

  lemma DecimalInjective(a: nat, b: nat)
    requires Decimal(a) == Decimal(b)
    ensures a == b
  {
    DecimalValue(a);
    DecimalValue(b);
  }

  /** How many digits `s` starts with. */
  function LeadingDigits(s: string): (n: nat)
    ensures n <= |s| && AllDigits(s[..n]) && (n < |s| ==> !IsDigit(s[n]))
  {
    if s == [] || !IsDigit(s[0]) then 0
    else
      assert forall i :: 1 <= i < 1 + LeadingDigits(s[1..]) ==> s[i] == s[1..][..LeadingDigits(s[1..])][i - 1];
      1 + LeadingDigits(s[1..])
  }

  /** `(\d+)`: a numeral of one digit or more, as long as it goes. */
  function TakeNumber(s: string): Option<(nat, string)> {
    var n := LeadingDigits(s);
    if n == 0 then None else Some((NumeralValue(s[..n]), s[n..]))
  }

  function TakeText(s: string, text: string): Option<string> {
    if text <= s then Some(s[|text|..]) else None
  }

  /** Nothing that would extend a numeral. */
  predicate EndsNumber(rest: string) { rest == [] || !IsDigit(rest[0]) }

  lemma {:induction false} LeadingDigitsOf(d: string, rest: string)
    requires AllDigits(d) && EndsNumber(rest)
    ensures LeadingDigits(d + rest) == |d|
  {
    if d == [] {
      assert d + rest == rest;
    } else {
      assert (d + rest)[1..] == d[1..] + rest;
      LeadingDigitsOf(d[1..], rest);
    }
  }

  lemma NumberTaken(n: nat, rest: string)
    requires EndsNumber(rest)
    ensures TakeNumber(Decimal(n) + rest) == Some((n, rest))
  {
    DecimalValue(n);
    var d := Decimal(n);
    LeadingDigitsOf(d, rest);
    assert (d + rest)[..|d|] == d && (d + rest)[|d|..] == rest;
  }

  lemma TextTaken(text: string, rest: string)
    ensures TakeText(text + rest, text) == Some(rest)
  {
  }

  // ------------------------------------------------------------------------
  // " key=value" fields
  // ------------------------------------------------------------------------

  function Field(key: string, value: nat): string { " " + key + "=" + Decimal(value) }

  function TakeField(s: string, key: string): Option<(nat, string)> {
    var t := TakeText(s, " " + key + "=");
    if t.None? then None else TakeNumber(t.value)
  }

  lemma FieldTaken(key: string, value: nat, rest: string)
    requires EndsNumber(rest)
    ensures TakeField(Field(key, value) + rest, key) == Some((value, rest))
  {
    assert Field(key, value) + rest == (" " + key + "=") + (Decimal(value) + rest);
    TextTaken(" " + key + "=", Decimal(value) + rest);
    NumberTaken(value, rest);
  }

  // ------------------------------------------------------------------------
  // White space
  // ------------------------------------------------------------------------

  predicate IsSpace(c: char) { c == ' ' || '\t' <= c <= '\r' || 28 as char <= c <= 31 as char }

  function StripLeft(s: string): string {
    if s != [] && IsSpace(s[0]) then StripLeft(s[1..]) else s
  }

  function StripRight(s: string): string {
    if s != [] && IsSpace(s[|s| - 1]) then StripRight(s[..|s| - 1]) else s
  }

  function Strip(s: string): string { StripRight(StripLeft(s)) }

  // ------------------------------------------------------------------------
  // Hexadecimal numerals
  // ------------------------------------------------------------------------

  function HexChar(d: nat): char
    requires d < 16
  {
    "0123456789abcdef"[d]
  }

  predicate IsHex(c: char) { IsDigit(c) || 'a' <= c <= 'f' || 'A' <= c <= 'F' }

  function HexDigitValue(c: char): nat {
    if IsDigit(c) then c as int - '0' as int
    else if 'a' <= c <= 'f' then c as int - 'a' as int + 10
    else if 'A' <= c <= 'F' then c as int - 'A' as int + 10
    else 0
  }

  /** The numeral printed by "%x". */
  function HexNumeral(n: nat): (s: string)
    ensures s != []
  {
    if n < 16 then [HexChar(n)] else HexNumeral(n / 16) + [HexChar(n % 16)]
  }

  function HexValue(s: string): nat {
    if s == [] then 0 else 16 * HexValue(s[..|s| - 1]) + HexDigitValue(s[|s| - 1])
  }

  lemma HexCharBack(d: nat)
    requires d < 16
    ensures IsHex(HexChar(d)) && HexDigitValue(HexChar(d)) == d
  {
  }

  predicate AllHex(s: string) { forall i :: 0 <= i < |s| ==> IsHex(s[i]) }

  lemma {:induction false} HexBack(n: nat)
    ensures AllHex(HexNumeral(n)) && HexValue(HexNumeral(n)) == n
  {
    hide HexChar, HexDigitValue, IsHex;
    var h := HexNumeral(n);
    HexCharBack(n % 16);
    if n >= 16 {
      HexBack(n / 16);
      assert h[..|h| - 1] == HexNumeral(n / 16);
    } else {
      assert h[..|h| - 1] == [];
    }
  }

  // ------------------------------------------------------------------------
  // Bytes
  // ------------------------------------------------------------------------

  predicate IsAscii(s: string) { forall i :: 0 <= i < |s| ==> s[i] as int < 128 }

  function CharByte(c: char): bv8 { if c as int < 128 then (c as int) as bv8 else 0x3F }

  /** What `decode("ascii", "replace")` makes of one byte. */
  function ByteChar(b: bv8): char { if b < 128 then (b as int) as char else '\U{FFFD}' }

  function Bytes(s: string): (b: seq<bv8>)
    ensures |b| == |s|
  {
    seq(|s|, i requires 0 <= i < |s| => CharByte(s[i]))
  }

  function Decoded(b: seq<bv8>): (s: string)
    ensures |s| == |b|
  {
    seq(|b|, i requires 0 <= i < |b| => ByteChar(b[i]))
  }

  lemma CharRoundTrip(c: char)
    requires c as int < 128
    ensures ByteChar(CharByte(c)) == c
  {
  }

  lemma BytesRoundTrip(s: string)
    requires IsAscii(s)
    ensures Decoded(Bytes(s)) == s
  {
    forall i | 0 <= i < |s| ensures Decoded(Bytes(s))[i] == s[i] {
      CharRoundTrip(s[i]);
    }
  }
}
