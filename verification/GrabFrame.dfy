/** The "stream grab" frame (tools/protocol.py): a text header, the samples as
    12-bit little-endian words, a CRC line and the prompt with ACK or NAK.

    `HeaderText`, `Payload` and `Tail` are the sending side, as the stand-in
    boards build it (tools/board_run.py, tools/adc_gui.py); `ParseGrabFrame` is
    the receiving side. */
module GrabFrame {
  import opened Common
  import opened Text
  import opened Crc

  const ACK: byte := 0x06
  const NAK: byte := 0x15

  // ------------------------------------------------------------------------
  // The header line
  // ------------------------------------------------------------------------

  datatype Goertzel = Goertzel(amp: nat, sharePm: nat, detected: nat)

  datatype Header = Header(
    n: nat, from_: nat, ksps: nat, ov: nat, late: nat, missed: nat, halves: nat, xfer: nat, slp: nat, dachz: nat,
    proc: Option<nat>, load: Option<nat>, gz: Option<Goertzel>, ext: seq<(string, nat)>)

  function FixedKeys(): seq<string> {
    ["n", "from", "ksps", "ov", "late", "missed", "halves", "xfer", "slp", "dachz"]
  }

  function FixedValues(h: Header): seq<nat> {
    [h.n, h.from_, h.ksps, h.ov, h.late, h.missed, h.halves, h.xfer, h.slp, h.dachz]
  }

  function Fields(keys: seq<string>, values: seq<nat>): string
    requires |keys| == |values|
  {
    if keys == [] then "" else Field(keys[0], values[0]) + Fields(keys[1..], values[1..])
  }

  function ExtFields(ext: seq<(string, nat)>): string {
    if ext == [] then "" else Field(ext[0].0, ext[0].1) + ExtFields(ext[1..])
  }

  function OptionalFields(h: Header): string {
    (if h.proc.Some? then Field("proc", h.proc.value) else "")
    + (if h.load.Some? then Field("load", h.load.value) else "")
    + (if h.gz.Some? then
         Field("gz", h.gz.value.amp) + Field("gzs", h.gz.value.sharePm) + Field("gzd", h.gz.value.detected)
       else "")
    + ExtFields(h.ext)
  }

  function HeaderText(h: Header): string {
    "GRAB" + Fields(FixedKeys(), FixedValues(h)) + OptionalFields(h)
  }

  function TakeFields(s: string, keys: seq<string>): Option<(seq<nat>, string)> {
    if keys == [] then Some(([], s))
    else
      var first := TakeField(s, keys[0]);
      if first.None? then None
      else
        var rest := TakeFields(first.value.1, keys[1..]);
        if rest.None? then None else Some(([first.value.0] + rest.value.0, rest.value.1))
  }

  /** An optional group: taken if it is there. */
  function TakeOptional(s: string, keys: seq<string>): (Option<seq<nat>>, string) {
    var t := TakeFields(s, keys);
    if t.None? then (None, s) else (Some(t.value.0), t.value.1)
  }

  predicate IsName(name: string) {
    name != [] && IsLower(name[0]) && forall i :: 0 <= i < |name| ==> IsWord(name[i])
  }

  function LeadingWord(s: string): (n: nat)
    ensures n <= |s| && forall i :: 0 <= i < n ==> IsWord(s[i])
  {
    if s == [] || !IsWord(s[0]) then 0 else 1 + LeadingWord(s[1..])
  }

  /** One ` name=value` field of the application's own. */
  function TakeExtField(s: string): Option<((string, nat), string)> {
    if s == [] || s[0] != ' ' then None
    else
      var n := LeadingWord(s[1..]);
      var name := s[1..][..n];
      if name == [] || !IsLower(name[0]) then None
      else
        var value := TakeField(s, name);
        if value.None? then None else Some(((name, value.value.0), value.value.1))
  }

  lemma TakenFieldShortens(s: string, key: string)
    ensures TakeField(s, key).Some? ==> |TakeField(s, key).value.1| < |s|
  {
  }

  function TakeExt(s: string): (seq<(string, nat)>, string)
    decreases |s|
  {
    var f := TakeExtField(s);
    if f.None? then ([], s)
    else
      TakenFieldShortens(s, f.value.0.0);
      var (more, rest) := TakeExt(f.value.1);
      ([f.value.0] + more, rest)
  }

  /** The header pattern, matched at the start of the text. */
  function ParseHeader(s: string): Option<Header> {
    var g := TakeText(s, "GRAB");
    if g.None? then None
    else
      var fixed := TakeFields(g.value, FixedKeys());
      if fixed.None? then None
      else
        var v := fixed.value.0;
        if |v| != 10 then None
        else
          var (proc, s1) := TakeOptional(fixed.value.1, ["proc"]);
          var (load, s2) := TakeOptional(s1, ["load"]);
          var (gz, s3) := TakeOptional(s2, ["gz", "gzs", "gzd"]);
          var (ext, _) := TakeExt(s3);
          Some(Header(v[0], v[1], v[2], v[3], v[4], v[5], v[6], v[7], v[8], v[9],
                      FirstOf(proc), FirstOf(load), GoertzelOf(gz), ext))
  }

  function FirstOf(v: Option<seq<nat>>): Option<nat> {
    if v.Some? && |v.value| > 0 then Some(v.value[0]) else None
  }

  function GoertzelOf(v: Option<seq<nat>>): Option<Goertzel> {
    if v.Some? && |v.value| == 3 then Some(Goertzel(v.value[0], v.value[1], v.value[2])) else None
  }

  /** A header no field of which could be taken for another one. */
  predicate Unambiguous(h: Header) {
    && (forall i :: 0 <= i < |h.ext| ==> IsName(h.ext[i].0))
    && (h.gz.None? && h.ext != [] ==>
          && !(h.load.None? && h.ext[0].0 == "load")
          && !(h.load.None? && h.proc.None? && h.ext[0].0 == "proc")
          && !(|h.ext| >= 3 && h.ext[0].0 == "gz" && h.ext[1].0 == "gzs" && h.ext[2].0 == "gzd"))
  }

  // ------------------------------------------------------------------------
  // Samples
  // ------------------------------------------------------------------------

  type sample = bv16

  predicate TwelveBits(v: seq<sample>) { forall i :: 0 <= i < |v| ==> v[i] & 0x0FFF == v[i] }

  function Low(v: sample): byte { (v & 0x00FF) as bv8 }

  function HighByte(v: sample): byte { (v >> 8) as bv8 }

  function Word(lo: byte, hi: byte): sample { ((lo as bv16) | ((hi as bv16) << 8)) & 0x0FFF }

  function Payload(v: seq<sample>): seq<byte> {
    if v == [] then [] else Payload(v[..|v| - 1]) + [Low(v[|v| - 1]), HighByte(v[|v| - 1])]
  }

  function Samples(payload: seq<byte>): (v: seq<sample>)
    requires |payload| % 2 == 0
    ensures |v| == |payload| / 2
  {
    seq(|payload| / 2, i requires 0 <= i < |payload| / 2 => Word(payload[2 * i], payload[2 * i + 1]))
  }

  // ------------------------------------------------------------------------
  // The CRC line
  // ------------------------------------------------------------------------

  function HexDigit(n: bv16): byte
    requires n < 16
  {
    if n < 10 then (n + 0x30) as bv8 else (n + 0x37) as bv8
  }

  function Nibble(b: byte): Option<bv16> {
    if 0x30 <= b <= 0x39 then Some(b as bv16 - 0x30)
    else if 0x41 <= b <= 0x46 then Some(b as bv16 - 0x37)
    else if 0x61 <= b <= 0x66 then Some(b as bv16 - 0x57)
    else None
  }

  /** Four hexadecimal digits, upper case. */
  function Hex4(crc: bv16): (d: seq<byte>)
    ensures |d| == 4
  {
    [HexDigit(crc >> 12), HexDigit((crc >> 8) & 0xF), HexDigit((crc >> 4) & 0xF), HexDigit(crc & 0xF)]
  }

  function FromHex4(d: seq<byte>): Option<bv16>
    requires |d| == 4
  {
    if Nibble(d[0]).None? || Nibble(d[1]).None? || Nibble(d[2]).None? || Nibble(d[3]).None? then None
    else Some((Nibble(d[0]).value << 12) | (Nibble(d[1]).value << 8) | (Nibble(d[2]).value << 4) | Nibble(d[3]).value)
  }

  /** "\r\nCRC ", the digits, "\r\n> " and the closing ACK or NAK. */
  function Tail(crc: bv16, last: byte): seq<byte> {
    [0x0D, 0x0A, 0x43, 0x52, 0x43, 0x20] + Hex4(crc) + [0x0D, 0x0A, 0x3E, 0x20, last]
  }

  function CrcAt(tail: seq<byte>, i: nat): Option<bv16> {
    if i + 8 <= |tail| && tail[i..i + 4] == [0x43, 0x52, 0x43, 0x20] then FromHex4(tail[i + 4..i + 8]) else None
  }

  /** The first "CRC xxxx" from position `i` on. */
  function FindCrc(tail: seq<byte>, i: nat): Option<bv16>
    decreases |tail| - i
  {
    if i >= |tail| then None
    else if CrcAt(tail, i).Some? then CrcAt(tail, i)
    else FindCrc(tail, i + 1)
  }

  // ------------------------------------------------------------------------
  // The frame
  // ------------------------------------------------------------------------

  datatype Meta = Meta(
    from_: nat, ksps: nat, overrun: nat, late: nat, missed: nat, halves: nat, transfers: nat, slpdat: nat,
    dacHz: nat, proc: nat, loadPm: Option<nat>, gz: Option<Goertzel>, ext: map<string, nat>)

  datatype GrabError =
    | NakNoStream | ShortBlock(got: nat, want: nat) | CrcMismatch(frame: bv16, computed: bv16) | NakAfterBlock

  datatype Frame = Frame(ok: bool, samples: seq<sample>, meta: Meta, error: Option<GrabError>)

  /** The exceptions: no header, no CRC line, half a sample at the end. */
  datatype FrameException = NoHeader | NoCrcLine | OddPayload

  function ExtMap(ext: seq<(string, nat)>): map<string, nat> {
    if ext == [] then map[] else ExtMap(ext[..|ext| - 1])[ext[|ext| - 1].0 := ext[|ext| - 1].1]
  }

  function MetaOf(h: Header): Meta {
    Meta(h.from_, h.ksps, h.ov, h.late, h.missed, h.halves, h.xfer, h.slp, h.dachz,
         if h.proc.Some? then h.proc.value else 0, h.load, h.gz, ExtMap(h.ext))
  }

  predicate EndsWith(b: seq<byte>, last: byte) { b != [] && b[|b| - 1] == last }

  function ParseGrabFrame(headerLine: string, payload: seq<byte>, tail: seq<byte>): Result<Frame, FrameException> {
    var h := ParseHeader(Strip(headerLine));
    if h.None? then Failure(NoHeader)
    else
      var crcFrame := FindCrc(tail, 0);
      if crcFrame.None? then Failure(NoCrcLine)
      else
        var n, crcCalc := h.value.n, CrcOf(payload);
        if n > 0 && |payload| % 2 != 0 then Failure(OddPayload)
        else
          var samples := if n > 0 then Samples(payload) else [];
          var ok := n > 0 && |payload| == 2 * n && crcFrame.value == crcCalc && EndsWith(tail, ACK);
          var error :=
            if n == 0 then Some(NakNoStream)
            else if |payload| != 2 * n then Some(ShortBlock(|payload|, 2 * n))
            else if crcFrame.value != crcCalc then Some(CrcMismatch(crcFrame.value, crcCalc))
            else if !EndsWith(tail, ACK) then Some(NakAfterBlock)
            else None;
          Success(Frame(ok, samples, MetaOf(h.value), error))
  }
}
