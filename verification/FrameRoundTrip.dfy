/** Sending a frame and parsing it back: the header text, the samples and the
    CRC line each have an inverse, so a whole frame comes back as it was built,
    and a payload damaged by a burst of up to 16 bits is always refused. */
module FrameRoundTrip {
  import opened Common
  import opened Text
  import opened Crc
  import opened GrabFrame

  // ------------------------------------------------------------------------
  // Field lists
  // ------------------------------------------------------------------------

  predicate Named(fields: seq<(string, nat)>) { forall i :: 0 <= i < |fields| ==> IsName(fields[i].0) }

  lemma StartsWithSpace(fields: seq<(string, nat)>)
    ensures EndsNumber(ExtFields(fields))
  {
    if fields != [] { assert Field(fields[0].0, fields[0].1)[0] == ' '; }
  }

  /** A field is only taken under its own name. */
  lemma OtherFieldNotTaken(name: string, value: nat, rest: string, key: string)
    requires IsName(name) && IsName(key) && name != key
    ensures TakeField(Field(name, value) + rest, key).None?
  {
    var s, p := Field(name, value) + rest, " " + key + "=";
    if p <= s {
      assert s == " " + name + "=" + (Decimal(value) + rest);
      SamePrefix(name, Decimal(value) + rest, key, s);
      assert false;
    }
  }

  lemma SamePrefix(name: string, rest: string, key: string, s: string)
    requires IsName(name) && IsName(key) && s == " " + name + "=" + rest && " " + key + "=" <= s
    ensures name == key
  {
    var p := " " + key + "=";
    assert forall i :: 0 <= i < |p| ==> p[i] == s[i];
    var pEnd, sEnd := p[|key| + 1], s[|name| + 1];
    assert forall i :: 0 <= i < |key| && i < |name| ==> p[i + 1] == key[i] && s[i + 1] == name[i];
  }

  predicate NamesStart(fields: seq<(string, nat)>, keys: seq<string>) {
    |keys| <= |fields| && forall i :: 0 <= i < |keys| ==> fields[i].0 == keys[i]
  }

  function Values(fields: seq<(string, nat)>): (v: seq<nat>)
    ensures |v| == |fields|
  {
    seq(|fields|, i requires 0 <= i < |fields| => fields[i].1)
  }

  lemma NamesStartNext(fields: seq<(string, nat)>, keys: seq<string>)
    requires fields != [] && keys != [] && fields[0].0 == keys[0]
    ensures NamesStart(fields, keys) <==> NamesStart(fields[1..], keys[1..])
    ensures NamesStart(fields, keys) ==>
              && Values(fields[..|keys|]) == [fields[0].1] + Values(fields[1..][..|keys| - 1])
              && fields[|keys|..] == fields[1..][|keys| - 1..]
  {
    if NamesStart(fields[1..], keys[1..]) {
      forall i | 0 < i < |keys| ensures fields[i].0 == keys[i] {
        assert fields[1..][i - 1].0 == keys[1..][i - 1];
      }
    }
    if NamesStart(fields, keys) {
      forall i | 0 <= i < |keys| - 1 ensures fields[1..][i].0 == keys[1..][i] {
        assert fields[i + 1].0 == keys[i + 1];
      }
    }
  }

  /** One step: the first field is taken under its own name. */
  lemma FirstTaken(fields: seq<(string, nat)>, keys: seq<string>)
    requires fields != [] && keys != [] && fields[0].0 == keys[0]
    ensures TakeFields(ExtFields(fields), keys) ==
              var more := TakeFields(ExtFields(fields[1..]), keys[1..]);
              if more.None? then None else Some(([fields[0].1] + more.value.0, more.value.1))
  {
    hide Field, TakeField, EndsNumber;
    StartsWithSpace(fields[1..]);
    FieldTaken(fields[0].0, fields[0].1, ExtFields(fields[1..]));
  }

  lemma FirstNotTaken(fields: seq<(string, nat)>, keys: seq<string>)
    requires keys != [] && IsName(keys[0])
    requires fields != [] ==> IsName(fields[0].0) && fields[0].0 != keys[0]
    ensures TakeFields(ExtFields(fields), keys).None?
  {
    hide Field, TakeField, EndsNumber, IsName;
    if fields == [] {
      NothingTaken(keys[0]);
    } else {
      OtherFieldNotTaken(fields[0].0, fields[0].1, ExtFields(fields[1..]), keys[0]);
    }
  }

  /** The fields at the start of a printed list are taken exactly if they are the ones asked for. */
  lemma {:induction false} FieldsTaken(fields: seq<(string, nat)>, keys: seq<string>)
    requires Named(fields) && forall i :: 0 <= i < |keys| ==> IsName(keys[i])
    ensures TakeFields(ExtFields(fields), keys) ==
              if NamesStart(fields, keys) then Some((Values(fields[..|keys|]), ExtFields(fields[|keys|..]))) else None
    decreases |keys|
  {
    hide TakeField, IsName, ExtFields;
    if keys == [] {
      assert fields[0..] == fields && fields[..0] == [];
    } else if fields != [] && fields[0].0 == keys[0] {
      FirstTaken(fields, keys);
      FieldsTaken(fields[1..], keys[1..]);
      NamesStartNext(fields, keys);
      hide NamesStart, Values, TakeFields;
    } else {
      FirstNotTaken(fields, keys);
    }
  }

  lemma NothingTaken(key: string)
    ensures TakeField("", key).None?
  {
  }

  lemma WordEnds(name: string, rest: string)
    requires forall i :: 0 <= i < |name| ==> IsWord(name[i])
    requires rest != [] && !IsWord(rest[0])
    ensures LeadingWord(name + rest) == |name|
  {
    if name == [] {
      assert name + rest == rest;
    } else {
      assert (name + rest)[1..] == name[1..] + rest;
      WordEnds(name[1..], rest);
    }
  }

  lemma ExtFieldTaken(name: string, value: nat, rest: string)
    requires IsName(name) && EndsNumber(rest)
    ensures TakeExtField(Field(name, value) + rest) == Some(((name, value), rest))
  {
    var s := Field(name, value) + rest;
    var after := "=" + Decimal(value) + rest;
    assert s[0] == ' ' && s[1..] == name + after;
    WordEnds(name, after);
    assert s[1..][..|name|] == name;
    FieldTaken(name, value, rest);
  }

  /** The application's fields come back as they were sent. */
  lemma {:induction false} ExtTaken(fields: seq<(string, nat)>)
    requires Named(fields)
    ensures TakeExt(ExtFields(fields)) == (fields, "")
  {
    hide Field, TakeExtField;
    if fields == [] {
      NoExtField();
    } else {
      StartsWithSpace(fields[1..]);
      ExtFieldTaken(fields[0].0, fields[0].1, ExtFields(fields[1..]));
      ExtTaken(fields[1..]);
      assert fields == [fields[0]] + fields[1..];
    }
  }

  lemma NoExtField()
    ensures TakeExtField("").None?
  {
  }

  // ------------------------------------------------------------------------
  // The header
  // ------------------------------------------------------------------------

  function Zip(keys: seq<string>, values: seq<nat>): (z: seq<(string, nat)>)
    requires |keys| == |values|
    ensures |z| == |keys| && forall i :: 0 <= i < |z| ==> z[i] == (keys[i], values[i])
  {
    seq(|keys|, i requires 0 <= i < |keys| => (keys[i], values[i]))
  }

  function ProcField(h: Header): seq<(string, nat)> { if h.proc.Some? then [("proc", h.proc.value)] else [] }

  function LoadField(h: Header): seq<(string, nat)> { if h.load.Some? then [("load", h.load.value)] else [] }

  function GzFields(h: Header): seq<(string, nat)> {
    if h.gz.Some? then [("gz", h.gz.value.amp), ("gzs", h.gz.value.sharePm), ("gzd", h.gz.value.detected)] else []
  }

  lemma {:induction false} ExtFieldsConcat(a: seq<(string, nat)>, b: seq<(string, nat)>)
    ensures ExtFields(a + b) == ExtFields(a) + ExtFields(b)
  {
    hide Field;
    if a == [] {
      assert a + b == b;
    } else {
      assert (a + b)[1..] == a[1..] + b;
      ExtFieldsConcat(a[1..], b);
    }
  }

  lemma {:induction false} FieldsAreList(keys: seq<string>, values: seq<nat>)
    requires |keys| == |values|
    ensures Fields(keys, values) == ExtFields(Zip(keys, values))
  {
    hide Field;
    if keys != [] {
      FieldsAreList(keys[1..], values[1..]);
      assert Zip(keys, values)[1..] == Zip(keys[1..], values[1..]);
    }
  }

  lemma OneField(name: string, value: nat)
    ensures ExtFields([(name, value)]) == Field(name, value)
  {
    assert [(name, value)][1..] == [];
  }

  lemma OptionalFieldsAreList(h: Header)
    ensures OptionalFields(h) == ExtFields(ProcField(h) + (LoadField(h) + (GzFields(h) + h.ext)))
  {
    hide Field, ExtFields;
    ExtFieldsConcat(ProcField(h), LoadField(h) + (GzFields(h) + h.ext));
    ExtFieldsConcat(LoadField(h), GzFields(h) + h.ext);
    ExtFieldsConcat(GzFields(h), h.ext);
    NoFields();
    if h.proc.Some? { OneField("proc", h.proc.value); }
    if h.load.Some? { OneField("load", h.load.value); }
    if h.gz.Some? {
      var a, b, c := ("gz", h.gz.value.amp), ("gzs", h.gz.value.sharePm), ("gzd", h.gz.value.detected);
      assert GzFields(h) == [a] + ([b] + [c]);
      ExtFieldsConcat([a], [b] + [c]);
      ExtFieldsConcat([b], [c]);
      OneField(a.0, a.1);
      OneField(b.0, b.1);
      OneField(c.0, c.1);
    }
  }

  lemma NoFields()
    ensures ExtFields([]) == ""
  {
  }

  lemma OptionalTaken(own: seq<(string, nat)>, others: seq<(string, nat)>, keys: seq<string>)
    requires Named(own + others) && forall i :: 0 <= i < |keys| ==> IsName(keys[i])
    requires (NamesStart(own, keys) && |own| == |keys|) || (own == [] && !NamesStart(others, keys))
    ensures TakeOptional(ExtFields(own + others), keys)
            == (if own == [] && keys != [] then None else Some(Values(own)), ExtFields(others))
  {
    hide ExtFields, TakeFields;
    FieldsTaken(own + others, keys);
    if |own| == |keys| && NamesStart(own, keys) {
      assert (own + others)[..|keys|] == own && (own + others)[|keys|..] == others;
    } else {
      assert own + others == others;
    }
  }

  function AllFields(h: Header): seq<(string, nat)> {
    ProcField(h) + (LoadField(h) + (GzFields(h) + h.ext))
  }

  lemma FixedNames()
    ensures IsName("proc") && IsName("load") && IsName("gz") && IsName("gzs") && IsName("gzd")
  {
  }

  lemma FirstNameDiffers(fields: seq<(string, nat)>, keys: seq<string>)
    requires keys != [] && (fields != [] ==> fields[0].0 != keys[0])
    ensures !NamesStart(fields, keys)
  {
  }

  lemma NoProc(h: Header)
    requires Unambiguous(h) && h.proc.None?
    ensures !NamesStart(LoadField(h) + (GzFields(h) + h.ext), ["proc"])
  {
    assert "load"[0] != "proc"[0] && "gz"[0] != "proc"[0];
    FirstNameDiffers(LoadField(h) + (GzFields(h) + h.ext), ["proc"]);
  }

  lemma NoLoad(h: Header)
    requires Unambiguous(h) && h.load.None?
    ensures !NamesStart(GzFields(h) + h.ext, ["load"])
  {
    assert "gz"[0] != "load"[0];
    FirstNameDiffers(GzFields(h) + h.ext, ["load"]);
  }

  lemma NoGz(h: Header)
    requires Unambiguous(h) && h.gz.None?
    ensures !NamesStart(h.ext, ["gz", "gzs", "gzd"])
  {
  }

  lemma OptionalRoundTrip(h: Header)
    requires Unambiguous(h)
    ensures var (proc, s1) := TakeOptional(ExtFields(AllFields(h)), ["proc"]);
            var (load, s2) := TakeOptional(s1, ["load"]);
            var (gz, s3) := TakeOptional(s2, ["gz", "gzs", "gzd"]);
            FirstOf(proc) == h.proc && FirstOf(load) == h.load && GoertzelOf(gz) == h.gz && s3 == ExtFields(h.ext)
  {
    hide ExtFields, TakeOptional, IsName;
    FixedNames();
    var tail := GzFields(h) + h.ext;
    if h.proc.None? { NoProc(h); }
    if h.load.None? { NoLoad(h); }
    if h.gz.None? { NoGz(h); }
    assert NamesStart(ProcField(h), ["proc"]) || ProcField(h) == [];
    assert NamesStart(LoadField(h), ["load"]) || LoadField(h) == [];
    assert NamesStart(GzFields(h), ["gz", "gzs", "gzd"]) || GzFields(h) == [];
    assert Values(ProcField(h)) == if h.proc.Some? then [h.proc.value] else [];
    hide NamesStart;
    OptionalTaken(ProcField(h), LoadField(h) + tail, ["proc"]);
    OptionalTaken(LoadField(h), tail, ["load"]);
    OptionalTaken(GzFields(h), h.ext, ["gz", "gzs", "gzd"]);
  }

  lemma FixedTaken(h: Header, others: seq<(string, nat)>)
    requires Named(others)
    ensures TakeFields(Fields(FixedKeys(), FixedValues(h)) + ExtFields(others), FixedKeys())
            == Some((FixedValues(h), ExtFields(others)))
  {
    hide ExtFields, TakeFields, Fields;
    var fixed := Zip(FixedKeys(), FixedValues(h));
    FieldsAreList(FixedKeys(), FixedValues(h));
    ExtFieldsConcat(fixed, others);
    FieldsTaken(fixed + others, FixedKeys());
    assert (fixed + others)[..10] == fixed && (fixed + others)[10..] == others;
    assert Values(fixed) == FixedValues(h);
  }

  /** Every header without ambiguous fields is read back as it was written. */
  lemma HeaderRoundTrip(h: Header)
    requires Unambiguous(h)
    ensures ParseHeader(HeaderText(h)) == Some(h)
  {
    hide ExtFields, TakeFields, TakeExt, Fields, TakeOptional;
    OptionalFieldsAreList(h);
    var rest := Fields(FixedKeys(), FixedValues(h)) + ExtFields(AllFields(h));
    assert HeaderText(h) == "GRAB" + rest;
    TextTaken("GRAB", rest);
    FixedTaken(h, AllFields(h));
    OptionalRoundTrip(h);
    ExtTaken(h.ext);
  }

  lemma GroupTaken(fields: seq<(string, nat)>, keys: seq<string>)
    requires Named(fields) && (forall i :: 0 <= i < |keys| ==> IsName(keys[i])) && NamesStart(fields, keys)
    ensures TakeOptional(ExtFields(fields), keys).0 == Some(Values(fields[..|keys|]))
  {
    hide ExtFields, TakeFields;
    FieldsTaken(fields, keys);
  }

  lemma OptionalMisread(h: Header)
    requires Named(h.ext) && !Unambiguous(h)
    ensures var (proc, s1) := TakeOptional(ExtFields(AllFields(h)), ["proc"]);
            var (load, s2) := TakeOptional(s1, ["load"]);
            var (gz, s3) := TakeOptional(s2, ["gz", "gzs", "gzd"]);
            !(FirstOf(proc) == h.proc && FirstOf(load) == h.load && GoertzelOf(gz) == h.gz)
  {
    hide ExtFields, TakeOptional, IsName, Values, GoertzelOf;
    FixedNames();
    assert GzFields(h) == [];
    hide Unambiguous, GzFields;
    assert AllFields(h) == ProcField(h) + (LoadField(h) + h.ext);
    hide AllFields;
    if h.proc.None? && NamesStart(LoadField(h) + h.ext, ["proc"]) {
      assert AllFields(h) == LoadField(h) + h.ext;
      hide NamesStart, LoadField, ProcField;
      GroupTaken(AllFields(h), ["proc"]);
    } else {
      assert NamesStart(ProcField(h), ["proc"]) || ProcField(h) == [];
      MisreadAfterProc(h);
      hide NamesStart, LoadField;
      OptionalTaken(ProcField(h), LoadField(h) + h.ext, ["proc"]);
    }
  }

  lemma MisreadAfterProc(h: Header)
    requires Named(h.ext) && !Unambiguous(h) && !(h.proc.None? && NamesStart(LoadField(h) + h.ext, ["proc"]))
    ensures var (load, s2) := TakeOptional(ExtFields(LoadField(h) + h.ext), ["load"]);
            var (gz, s3) := TakeOptional(s2, ["gz", "gzs", "gzd"]);
            !(FirstOf(load) == h.load && GoertzelOf(gz) == h.gz)
  {
    hide ExtFields, TakeOptional, IsName;
    FixedNames();
    assert [] + h.ext == h.ext;
    if h.load.None? && NamesStart(h.ext, ["load"]) {
      hide NamesStart;
      GroupTaken(h.ext, ["load"]);
    } else {
      OptionalTaken(LoadField(h), h.ext, ["load"]);
      GroupTaken(h.ext, ["gz", "gzs", "gzd"]);
    }
  }

  /** The other way round: a header with an ambiguous field is read back as a different one. */
  lemma AmbiguousMisread(h: Header)
    requires Named(h.ext) && !Unambiguous(h)
    ensures ParseHeader(HeaderText(h)) != Some(h)
  {
    hide ExtFields, TakeFields, TakeExt, Fields, TakeOptional, Unambiguous;
    OptionalFieldsAreList(h);
    var rest := Fields(FixedKeys(), FixedValues(h)) + ExtFields(AllFields(h));
    assert HeaderText(h) == "GRAB" + rest;
    TextTaken("GRAB", rest);
    FixedTaken(h, AllFields(h));
    OptionalMisread(h);
  }

  /** The line end the board adds does not reach the header pattern. */
  lemma StrippedLine(h: Header)
    ensures Strip(HeaderText(h) + "\r\n") == HeaderText(h)
  {
    hide Fields, OptionalFields;
    var t := HeaderText(h);
    assert t[0] == 'G';
    HeaderEndsInDigit(h);
    assert StripLeft(t + "\r\n") == t + "\r\n";
    StripRightTwo(t, '\r', '\n');
  }

  lemma StripRightTwo(t: string, a: char, b: char)
    requires t != [] && !IsSpace(t[|t| - 1]) && IsSpace(a) && IsSpace(b)
    ensures StripRight(t + [a, b]) == t
  {
    assert (t + [a, b])[..|t| + 1] == t + [a];
    assert (t + [a])[..|t|] == t;
    assert StripRight(t + [a]) == StripRight(t) == t;
  }

  lemma {:induction false} ListEndsInDigit(fields: seq<(string, nat)>)
    requires fields != []
    ensures var s := ExtFields(fields); s != [] && IsDigit(s[|s| - 1])
  {
    hide IsDigit;
    if |fields| > 1 {
      ListEndsInDigit(fields[1..]);
    } else {
      DecimalValue(fields[0].1);
      assert ExtFields(fields[1..]) == "";
      assert ExtFields(fields) == Field(fields[0].0, fields[0].1);
    }
  }

  lemma HeaderEndsInDigit(h: Header)
    ensures var s := HeaderText(h); IsDigit(s[|s| - 1])
  {
    hide ExtFields, Fields, OptionalFields, IsDigit;
    var fixed := Zip(FixedKeys(), FixedValues(h));
    FieldsAreList(FixedKeys(), FixedValues(h));
    OptionalFieldsAreList(h);
    ExtFieldsConcat(fixed, AllFields(h));
    ListEndsInDigit(fixed + AllFields(h));
    assert HeaderText(h) == "GRAB" + ExtFields(fixed + AllFields(h));
  }

  // ------------------------------------------------------------------------
  // Samples and the CRC line
  // ------------------------------------------------------------------------

  /** What the receiver keeps of a sample: its 12 bits. */
  function Masked(v: seq<sample>): (m: seq<sample>)
    ensures |m| == |v| && (TwelveBits(v) ==> m == v)
  {
    seq(|v|, i requires 0 <= i < |v| => v[i] & 0x0FFF)
  }

  lemma WordBack(v: sample)
    ensures Word(Low(v), HighByte(v)) == v & 0x0FFF
  {
  }

  lemma {:induction false} PayloadAt(v: seq<sample>, i: nat)
    requires i < |v|
    ensures |Payload(v)| == 2 * |v| && Payload(v)[2 * i] == Low(v[i]) && Payload(v)[2 * i + 1] == HighByte(v[i])
  {
    hide Low, HighByte;
    PayloadLength(v);
    PayloadLength(v[..|v| - 1]);
    if i < |v| - 1 { PayloadAt(v[..|v| - 1], i); }
  }

  lemma {:induction false} PayloadLength(v: seq<sample>)
    ensures |Payload(v)| == 2 * |v|
  {
    if v != [] { PayloadLength(v[..|v| - 1]); }
  }

  lemma SamplesRoundTrip(v: seq<sample>)
    ensures |Payload(v)| == 2 * |v| && Samples(Payload(v)) == Masked(v)
  {
    hide Low, HighByte, Word, Payload;
    PayloadLength(v);
    forall i | 0 <= i < |v| ensures Samples(Payload(v))[i] == Masked(v)[i] {
      PayloadAt(v, i);
      WordBack(v[i]);
    }
  }

  lemma NibbleBack(n: bv16)
    requires n < 16
    ensures Nibble(HexDigit(n)) == Some(n)
  {
  }

  lemma NibblesMakeWord(crc: bv16)
    ensures crc >> 12 < 16 && (crc >> 8) & 0xF < 16 && (crc >> 4) & 0xF < 16 && crc & 0xF < 16
    ensures ((crc >> 12) << 12) | (((crc >> 8) & 0xF) << 8) | (((crc >> 4) & 0xF) << 4) | (crc & 0xF) == crc
  {
  }

  lemma Hex4RoundTrip(crc: bv16)
    ensures FromHex4(Hex4(crc)) == Some(crc)
  {
    hide Nibble, HexDigit;
    NibblesMakeWord(crc);
    NibbleBack(crc >> 12);
    NibbleBack((crc >> 8) & 0xF);
    NibbleBack((crc >> 4) & 0xF);
    NibbleBack(crc & 0xF);
  }

  lemma CrcFound(crc: bv16, last: byte)
    ensures FindCrc(Tail(crc, last), 0) == Some(crc)
  {
    hide Hex4, FromHex4;
    var t := Tail(crc, last);
    assert t[0] == 0x0D && t[1] == 0x0A;
    assert t[2..6] == [0x43, 0x52, 0x43, 0x20] && t[6..10] == Hex4(crc);
    assert t[0..4][0] == 0x0D && t[1..5][0] == 0x0A;
    Hex4RoundTrip(crc);
    assert CrcAt(t, 0).None? && CrcAt(t, 1).None? && CrcAt(t, 2) == Some(crc);
    assert FindCrc(t, 2) == Some(crc);
    assert FindCrc(t, 1) == Some(crc);
  }

  // ------------------------------------------------------------------------
  // The whole frame
  // ------------------------------------------------------------------------

  /** A frame is received as it was sent, and its error names what the board said. */
  lemma FrameComesBack(h: Header, v: seq<sample>, last: byte)
    requires Unambiguous(h) && h.n == |v|
    ensures ParseGrabFrame(HeaderText(h) + "\r\n", Payload(v), Tail(CrcOf(Payload(v)), last))
            == Success(Frame(v != [] && last == ACK, Masked(v), MetaOf(h),
                             if v == [] then Some(NakNoStream) else if last != ACK then Some(NakAfterBlock) else None))
  {
    hide HeaderText, ParseHeader, Strip, CrcOf, FindCrc, Unambiguous, Samples, Payload, Hex4;
    StrippedLine(h);
    HeaderRoundTrip(h);
    CrcFound(CrcOf(Payload(v)), last);
    SamplesRoundTrip(v);
    assert v == [] ==> Masked(v) == [];
  }

  /** Success and an error message never come together, and a good frame is
      complete: its samples are those of the header's count. */
  lemma OkHasNoError(headerLine: string, payload: seq<byte>, tail: seq<byte>)
    ensures match ParseGrabFrame(headerLine, payload, tail)
            case Failure(_) => true
            case Success(f) =>
              && (f.ok <==> f.error.None?)
              && (f.ok ==> ParseHeader(Strip(headerLine)).Some?
                           && |f.samples| == ParseHeader(Strip(headerLine)).value.n > 0
                           && FindCrc(tail, 0) == Some(CrcOf(payload)))
  {
    hide ParseHeader, Strip, CrcOf, FindCrc;
  }

  /** A payload damaged within 16 bits is refused under the CRC line of the good one. */
  lemma BurstRejected(headerLine: string, good: seq<byte>, bad: seq<byte>, tail: seq<byte>, lo: nat, width: nat)
    requires width <= 16 && DifferInBurst(good, bad, lo, width)
    requires ParseGrabFrame(headerLine, good, tail).Success? && ParseGrabFrame(headerLine, good, tail).value.ok
    ensures var r := ParseGrabFrame(headerLine, bad, tail);
            && r.Success? && !r.value.ok
            && r.value.error == Some(CrcMismatch(CrcOf(good), CrcOf(bad)))
            && r.value.meta == ParseGrabFrame(headerLine, good, tail).value.meta
  {
    hide ParseHeader, Strip, CrcOf, FindCrc;
    BurstDetected(good, bad, lo, width);
  }
}
