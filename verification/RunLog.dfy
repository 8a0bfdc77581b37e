/** The log of a board run: printed line by line by the runner
    (tools/board_run.py, RunLog) and read back by the evaluator
    (tools/eval_board.py). */
module RunLog {
  import opened Common
  import opened Text
  import opened GrabFrame
  import opened FrameRoundTrip

  datatype Dir = TX | RX | EV

  datatype Entry = Entry(ms: nat, dir: Dir, block: string, text: string)

  function DirText(d: Dir): string {
    match d
    case TX => "TX"
    case RX => "RX"
    case EV => "EV"
  }

  /** A log line as the runner prints it. */
  function Print(e: Entry): string {
    Decimal(e.ms) + (" " + (DirText(e.dir) + (" " + (e.block + (" " + e.text)))))
  }

  // ------------------------------------------------------------------------
  // Reading it back
  // ------------------------------------------------------------------------

  function LeadingToken(s: string): (n: nat)
    ensures n <= |s|
  {
    if s == [] || IsSpace(s[0]) then 0 else 1 + LeadingToken(s[1..])
  }

  predicate IsToken(s: string) { s != [] && forall i :: 0 <= i < |s| ==> !IsSpace(s[i]) }

  predicate OneLine(s: string) { '\n' !in s }

  /** `(.*)$`: everything, unless a line feed is inside; one at the very end is dropped. */
  function TextPart(s: string): Option<string> {
    if OneLine(s) then Some(s)
    else if s[|s| - 1] == '\n' && OneLine(s[..|s| - 1]) then Some(s[..|s| - 1])
    else None
  }

  function TakeDir(s: string): Option<(Dir, string)> {
    if TakeText(s, " TX ").Some? then Some((TX, TakeText(s, " TX ").value))
    else if TakeText(s, " RX ").Some? then Some((RX, TakeText(s, " RX ").value))
    else if TakeText(s, " EV ").Some? then Some((EV, TakeText(s, " EV ").value))
    else None
  }

  /** The block and the text after it. */
  function TakeBlock(s: string): Option<(string, string)> {
    var n := LeadingToken(s);
    if n == 0 then None
    else
      var rest := s[n..];
      var text := TextPart(if rest != [] && rest[0] == ' ' then rest[1..] else rest);
      if text.None? then None else Some((s[..n], text.value))
  }

  function ParseLine(s: string): Option<Entry> {
    var ms := TakeNumber(s);
    if ms.None? then None
    else
      var dir := TakeDir(ms.value.1);
      if dir.None? then None
      else
        var rest := TakeBlock(dir.value.1);
        if rest.None? then None else Some(Entry(ms.value.0, dir.value.0, rest.value.0, rest.value.1))
  }

  function Parsed(lines: seq<string>): seq<Entry> {
    if lines == [] then []
    else
      var e := ParseLine(lines[|lines| - 1]);
      Parsed(lines[..|lines| - 1]) + if e.Some? then [e.value] else []
  }

  method ParseLogLines(lines: seq<string>) returns (entries: seq<Entry>)
    ensures entries == Parsed(lines)
  {
    hide ParseLine;
    entries := [];
    assert lines[..0] == [];
    for i := 0 to |lines|
      invariant entries == Parsed(lines[..i])
    {
      assert lines[..i + 1][..i] == lines[..i];
      var e := ParseLine(lines[i]);
      if e.Some? { entries := entries + [e.value]; }
    }
    assert lines[..|lines|] == lines;
  }

  lemma {:induction false} TokenEnds(b: string, rest: string)
    requires (forall i :: 0 <= i < |b| ==> !IsSpace(b[i])) && rest != [] && IsSpace(rest[0])
    ensures LeadingToken(b + rest) == |b|
  {
    if b == [] {
      assert b + rest == rest;
    } else {
      assert (b + rest)[1..] == b[1..] + rest;
      TokenEnds(b[1..], rest);
    }
  }

  lemma BlockTaken(b: string, text: string)
    requires IsToken(b)
    ensures TakeBlock(b + (" " + text)) == if TextPart(text).None? then None else Some((b, TextPart(text).value))
  {
    hide TextPart;
    var s := b + (" " + text);
    TokenEnds(b, " " + text);
    assert s[|b|..] == " " + text && s[..|b|] == b && (" " + text)[1..] == text;
  }

  lemma DirTaken(d: Dir, rest: string)
    ensures TakeDir(" " + (DirText(d) + (" " + rest))) == Some((d, rest))
  {
    var s := " " + (DirText(d) + (" " + rest));
    assert s[1] == DirText(d)[0];
    assert s == (" " + DirText(d) + " ") + rest;
    TextTaken(" " + DirText(d) + " ", rest);
    assert d.TX? ==> " " + DirText(d) + " " == " TX ";
    assert d.RX? ==> " " + DirText(d) + " " == " RX " && " TX "[1] != 'R';
    assert d.EV? ==> " " + DirText(d) + " " == " EV " && " TX "[1] != 'E' && " RX "[1] != 'E';
  }

  /** What a printed entry is read back as: itself, for a text of one line. */
  lemma ParsePrint(e: Entry)
    requires IsToken(e.block)
    ensures ParseLine(Print(e)) == if TextPart(e.text).None? then None else Some(e.(text := TextPart(e.text).value))
    ensures OneLine(e.text) ==> ParseLine(Print(e)) == Some(e)
  {
    var rest := " " + (DirText(e.dir) + (" " + (e.block + (" " + e.text))));
    NumberTaken(e.ms, rest);
    DirTaken(e.dir, e.block + (" " + e.text));
    BlockTaken(e.block, e.text);
    assert OneLine(e.text) ==> TextPart(e.text) == Some(e.text);
    hide TakeNumber, TakeDir, TakeBlock, TextPart, Decimal;
  }

  // ------------------------------------------------------------------------
  // Verdicts
  // ------------------------------------------------------------------------

  /** The verdict of a "block end" text. */
  function EndVerdict(text: string): Option<string> {
    var rest := TakeText(text, "block end ");
    if rest.Some? && IsToken(rest.value) then rest else None
  }

  function BlockVerdict(entries: seq<Entry>, block: string): string {
    if entries == [] then "missing"
    else if entries[0].block == block && entries[0].dir == EV && EndVerdict(entries[0].text).Some?
    then EndVerdict(entries[0].text).value
    else BlockVerdict(entries[1..], block)
  }

  method FindBlockVerdict(entries: seq<Entry>, block: string) returns (verdict: string)
    ensures verdict == BlockVerdict(entries, block)
  {
    hide EndVerdict;
    var i := 0;
    while i < |entries|
      invariant 0 <= i <= |entries|
      invariant BlockVerdict(entries, block) == BlockVerdict(entries[i..], block)
    {
      var e := entries[i];
      assert entries[i..][0] == e && entries[i..][1..] == entries[i + 1..];
      if e.block == block && e.dir == EV {
        var v := EndVerdict(e.text);
        if v.Some? { return v.value; }
      }
      i := i + 1;
    }
    assert entries[i..] == [];
    verdict := "missing";
  }

  /** The block ends of one entry, of all entries: block and verdict. */
  function EndOf(e: Entry): seq<(string, string)> {
    if e.dir == EV && EndVerdict(e.text).Some? then [(e.block, EndVerdict(e.text).value)] else []
  }

  function Ends(entries: seq<Entry>): seq<(string, string)> {
    if entries == [] then [] else Ends(entries[..|entries| - 1]) + EndOf(entries[|entries| - 1])
  }

  function FirstEnd(ends: seq<(string, string)>, block: string): string {
    if ends == [] then "missing" else if ends[0].0 == block then ends[0].1 else FirstEnd(ends[1..], block)
  }

  lemma {:induction false} EndsConcat(a: seq<Entry>, b: seq<Entry>)
    ensures Ends(a + b) == Ends(a) + Ends(b)
  {
    hide EndOf;
    if b == [] {
      assert a + b == a;
    } else {
      assert (a + b)[..|a + b| - 1] == a + b[..|b| - 1];
      EndsConcat(a, b[..|b| - 1]);
    }
  }

  lemma EndsOfFirst(e: Entry, rest: seq<Entry>)
    ensures Ends([e] + rest) == EndOf(e) + Ends(rest)
  {
    EndsConcat([e], rest);
    assert [e][..0] == [];
    assert Ends([e]) == Ends([e][..0]) + EndOf(e);
  }

  lemma FirstEndConcat(a: seq<(string, string)>, b: seq<(string, string)>, block: string)
    requires |a| <= 1
    ensures FirstEnd(a + b, block) == if a != [] && a[0].0 == block then a[0].1 else FirstEnd(b, block)
  {
    if a == [] { assert a + b == b; } else { assert (a + b)[1..] == b; }
  }

  /** The evaluator's search finds the block's first end. */
  lemma {:induction false} VerdictIsFirstEnd(entries: seq<Entry>, block: string)
    ensures BlockVerdict(entries, block) == FirstEnd(Ends(entries), block)
  {
    hide EndVerdict;
    if entries != [] {
      assert entries == [entries[0]] + entries[1..];
      EndsOfFirst(entries[0], entries[1..]);
      FirstEndConcat(EndOf(entries[0]), Ends(entries[1..]), block);
      VerdictIsFirstEnd(entries[1..], block);
    }
  }

  // ------------------------------------------------------------------------
  // Grab counters
  // ------------------------------------------------------------------------

  datatype Counters = Counters(grabs: nat, ov: nat, late: nat, missed: nat, errors: nat)

  const ZERO := Counters(0, 0, 0, 0, 0)

  function Plus(a: Counters, b: Counters): Counters {
    Counters(a.grabs + b.grabs, a.ov + b.ov, a.late + b.late, a.missed + b.missed, a.errors + b.errors)
  }

  function SummaryKeys(): seq<string> { ["n", "ov", "late", "missed", "slp", "ksps"] }

  function HexUpper(v: bv16): string {
    [ByteChar(Hex4(v)[0]), ByteChar(Hex4(v)[1]), ByteChar(Hex4(v)[2]), ByteChar(Hex4(v)[3])]
  }

  function ErrorText(e: GrabError): string {
    match e
    case NakNoStream => "NAK: no stream on, " + "or the halt/restart failed"
    case ShortBlock(got, want) => "short block: got " + (Decimal(got) + (" of " + (Decimal(want) + " bytes")))
    case CrcMismatch(f, c) => "CRC mismatch: frame " + (HexUpper(f) + (", computed " + HexUpper(c)))
    case NakAfterBlock => "NAK after block"
  }

  /** The line the runner logs for a grab. */
  function GrabSummary(f: Frame): string {
    if f.ok then
      "GRAB" + Fields(SummaryKeys(), [|f.samples|, f.meta.overrun, f.meta.late, f.meta.missed, f.meta.slpdat,
          f.meta.ksps])
    else
      "GRAB" + (Field("n", |f.samples|) + (" error=" + if f.error.Some? then ErrorText(f.error.value) else "None"))
  }

  /** What the evaluator reads from a grab line. */
  function GrabCount(text: string): Option<Counters> {
    var g := TakeText(text, "GRAB");
    if g.None? then None
    else
      var v := TakeFields(g.value, SummaryKeys());
      if v.Some? && v.value.1 == "" && |v.value.0| == 6 then
        Some(Counters(1, v.value.0[1], v.value.0[2], v.value.0[3], 0))
      else
        var n := TakeField(g.value, "n");
        if n.Some? && TakeText(n.value.1, " error=").Some? then Some(Counters(1, 0, 0, 0, 1)) else None
  }

  function OfGrab(f: Frame): Counters {
    if f.ok then Counters(1, f.meta.overrun, f.meta.late, f.meta.missed, 0) else Counters(1, 0, 0, 0, 1)
  }

  lemma SummaryNames()
    ensures forall i :: 0 <= i < |SummaryKeys()| ==> IsName(SummaryKeys()[i])
  {
  }

  lemma SummaryTaken(values: seq<nat>)
    requires |values| == 6
    ensures TakeFields(Fields(SummaryKeys(), values), SummaryKeys()) == Some((values, ""))
  {
    hide TakeFields, Fields, IsName;
    var z := Zip(SummaryKeys(), values);
    SummaryNames();
    FieldsAreList(SummaryKeys(), values);
    FieldsTaken(z, SummaryKeys());
    NoFields();
    assert z[..6] == z && z[6..] == [] && Values(z) == values;
  }

  lemma ErrorTaken(n: nat, rest: string)
    ensures TakeField(Field("n", n) + (" error=" + rest), "n") == Some((n, " error=" + rest))
    ensures TakeFields(Field("n", n) + (" error=" + rest), SummaryKeys()).None?
  {
    FieldTaken("n", n, " error=" + rest);
    hide Field;
    OvNotThere(rest);
    assert SummaryKeys()[1..][0] == "ov";
    assert TakeFields(" error=" + rest, SummaryKeys()[1..]).None?;
  }

  lemma OvNotThere(rest: string)
    ensures TakeField(" error=" + rest, "ov").None?
  {
    var s := " error=" + rest;
    assert s[1] == 'e' && (" " + "ov" + "=")[1] == 'o';
  }

  /** The evaluator counts a logged grab for what it was. */
  lemma SummaryCounted(f: Frame)
    ensures GrabCount(GrabSummary(f)) == Some(OfGrab(f))
  {
    hide TakeFields, Fields, Field, TakeField, ErrorText;
    if f.ok {
      var values := [|f.samples|, f.meta.overrun, f.meta.late, f.meta.missed, f.meta.slpdat, f.meta.ksps];
      TextTaken("GRAB", Fields(SummaryKeys(), values));
      SummaryTaken(values);
    } else {
      var rest := if f.error.Some? then ErrorText(f.error.value) else "None";
      TextTaken("GRAB", Field("n", |f.samples|) + (" error=" + rest));
      ErrorTaken(|f.samples|, rest);
      TextTaken(" error=", rest);
    }
  }

  // ------------------------------------------------------------------------
  // Summaries are one line each
  // ------------------------------------------------------------------------

  lemma OneLineConcat(a: string, b: string)
    requires OneLine(a) && OneLine(b)
    ensures OneLine(a + b)
  {
  }

  lemma DecimalOneLine(n: nat)
    ensures OneLine(Decimal(n))
  {
    DecimalValue(n);
    hide Decimal, NumeralValue;
  }

  lemma FieldOneLine(name: string, value: nat)
    requires OneLine(name)
    ensures OneLine(Field(name, value))
  {
    DecimalOneLine(value);
    hide Decimal;
    assert OneLine(" ") && OneLine("=");
  }

  lemma {:induction false} FieldsOneLine(keys: seq<string>, values: seq<nat>)
    requires |keys| == |values| && forall i :: 0 <= i < |keys| ==> OneLine(keys[i])
    ensures OneLine(Fields(keys, values))
  {
    hide Field, OneLine;
    if keys == [] {
      assert OneLine("") by { EmptyOneLine(); }
    } else {
      FieldOneLine(keys[0], values[0]);
      FieldsOneLine(keys[1..], values[1..]);
      OneLineConcat(Field(keys[0], values[0]), Fields(keys[1..], values[1..]));
    }
  }

  lemma EmptyOneLine()
    ensures OneLine("")
  {
  }

  lemma HexUpperOneLine(v: bv16)
    ensures OneLine(HexUpper(v))
  {
    NibblesMakeWord(v);
    HexDigitOneLine(v >> 12);
    HexDigitOneLine((v >> 8) & 0xF);
    HexDigitOneLine((v >> 4) & 0xF);
    HexDigitOneLine(v & 0xF);
    hide HexDigit;
  }

  lemma HexDigitOneLine(n: bv16)
    requires n < 16
    ensures ByteChar(HexDigit(n)) != '\n'
  {
    NoControl(HexDigit(n));
  }

  lemma NoControl(b: bv8)
    requires b != 0x0A
    ensures ByteChar(b) != '\n'
  {
  }

  lemma ErrorWordsOneLine()
    ensures OneLine("short block: got ") && OneLine(" of ") && OneLine(" bytes")
    ensures OneLine("CRC mismatch: frame ") && OneLine(", computed ")
    ensures OneLine("NAK: no stream on, ") && OneLine("or the halt/restart failed") && OneLine("NAK after block")
  {
  }

  lemma ErrorOneLine(e: GrabError)
    ensures OneLine(ErrorText(e))
  {
    ErrorWordsOneLine();
    hide OneLine, Decimal, HexUpper;
    match e
    case NakNoStream => OneLineConcat("NAK: no stream on, ", "or the halt/restart failed");
    case ShortBlock(got, want) =>
      DecimalOneLine(got);
      DecimalOneLine(want);
      OneLineConcat(Decimal(want), " bytes");
      OneLineConcat(" of ", Decimal(want) + " bytes");
      OneLineConcat(Decimal(got), " of " + (Decimal(want) + " bytes"));
      OneLineConcat("short block: got ", Decimal(got) + (" of " + (Decimal(want) + " bytes")));
    case CrcMismatch(f, c) =>
      HexUpperOneLine(f);
      HexUpperOneLine(c);
      OneLineConcat(", computed ", HexUpper(c));
      OneLineConcat(HexUpper(f), ", computed " + HexUpper(c));
      OneLineConcat("CRC mismatch: frame ", HexUpper(f) + (", computed " + HexUpper(c)));
    case NakAfterBlock =>
  }

  lemma SummaryOneLine(f: Frame)
    ensures OneLine(GrabSummary(f))
  {
    if f.ok {
      FieldsOneLine(SummaryKeys(), [|f.samples|, f.meta.overrun, f.meta.late, f.meta.missed, f.meta.slpdat,
          f.meta.ksps]);
      hide Fields;
    } else {
      FieldOneLine("n", |f.samples|);
      if f.error.Some? { ErrorOneLine(f.error.value); }
      hide Field, ErrorText;
    }
  }

  // ------------------------------------------------------------------------
  // Counting a log
  // ------------------------------------------------------------------------

  /** What a received line adds: nothing unless it looks like a grab's. */
  function LineCount(text: string): Counters { if GrabCount(text).Some? then GrabCount(text).value else ZERO }

  function EntryCount(e: Entry, block: string): Counters {
    if e.dir == RX && e.block == block then LineCount(e.text) else ZERO
  }

  function Counted(entries: seq<Entry>, block: string): Counters {
    if entries == [] then ZERO
    else Plus(Counted(entries[..|entries| - 1], block), EntryCount(entries[|entries| - 1], block))
  }

  predicate InFamily(block: string, prefix: string) { block == prefix || prefix + "." <= block }

  predicate HasGrab(entries: seq<Entry>, block: string) {
    exists i :: 0 <= i < |entries| && entries[i].dir == RX && entries[i].block == block
        && GrabCount(entries[i].text).Some?
  }

  /** A block's row in the evaluator's table: there if the block belongs to the
      family and has a grab line, with all it has been counted for. */
  predicate IsRow(there: bool, row: Counters, family: bool, has: bool, counted: Counters) {
    (there <==> family && has) && (family ==> (if there then row else ZERO) == counted)
  }

  function Row(out: map<string, Counters>, b: string): Counters { if b in out then out[b] else ZERO }

  /** The counters of every block of a family that has a grab line. */
  method GrabFamilyCounters(entries: seq<Entry>, prefix: string) returns (out: map<string, Counters>)
    ensures forall b :: b in out <==> InFamily(b, prefix) && HasGrab(entries, b)
    ensures forall b :: b in out ==> out[b] == Counted(entries, b)
  {
    hide GrabCount, InFamily, HasGrab, Plus, Counted;
    out := map[];
    forall b ensures !HasGrab([], b) && Counted([], b) == ZERO { NothingCounted(b); }
    assert entries[..0] == [];
    for i := 0 to |entries|
      invariant forall b ::
        IsRow(b in out, Row(out, b), InFamily(b, prefix), HasGrab(entries[..i], b), Counted(entries[..i], b))
    {
      var e := entries[i];
      ghost var before, upTo := out, entries[..i + 1];
      if e.dir == RX && InFamily(e.block, prefix) {
        var c := GrabCount(e.text);
        if c.Some? {
          out := out[e.block := Plus(Row(out, e.block), c.value)];
        }
      }
      forall b ensures IsRow(b in out, Row(out, b), InFamily(b, prefix), HasGrab(upTo, b), Counted(upTo, b)) {
        assert IsRow(b in before, Row(before, b), InFamily(b, prefix), HasGrab(entries[..i], b),
            Counted(entries[..i], b));
        GrabsGrow(entries, i, b);
        CountedStep(entries, i, b);
      }
    }
    assert entries[..|entries|] == entries;
    forall b ensures b in out <==> InFamily(b, prefix) && HasGrab(entries, b)
    {
      assert IsRow(b in out, Row(out, b), InFamily(b, prefix), HasGrab(entries, b), Counted(entries, b));
    }
  }

  lemma NothingCounted(b: string)
    ensures !HasGrab([], b) && Counted([], b) == ZERO
  {
  }

  lemma CountedStep(entries: seq<Entry>, i: nat, b: string)
    requires i < |entries|
    ensures var e := entries[i];
            Counted(entries[..i + 1], b) ==
              if e.dir == RX && e.block == b && GrabCount(e.text).Some? then
                Plus(Counted(entries[..i], b), GrabCount(e.text).value)
              else Counted(entries[..i], b)
  {
    assert entries[..i + 1][..i] == entries[..i];
    PlusAssoc(Counted(entries[..i], b), ZERO, ZERO);
  }

  lemma GrabsGrow(entries: seq<Entry>, i: nat, b: string)
    requires i < |entries|
    ensures var e := entries[i];
            HasGrab(entries[..i + 1], b) <==>
              HasGrab(entries[..i], b) || (e.dir == RX && e.block == b && GrabCount(e.text).Some?)
  {
    hide GrabCount;
    var e, s, t := entries[i], entries[..i], entries[..i + 1];
    assert t[i] == e && forall k :: 0 <= k < i ==> t[k] == s[k];
  }

  lemma PlusAssoc(a: Counters, b: Counters, c: Counters)
    ensures Plus(Plus(a, b), c) == Plus(a, Plus(b, c)) && Plus(a, ZERO) == a && Plus(ZERO, a) == a
  {
  }

  lemma {:induction false} CountedConcat(a: seq<Entry>, b: seq<Entry>, block: string)
    ensures Counted(a + b, block) == Plus(Counted(a, block), Counted(b, block))
  {
    hide EntryCount, Plus;
    PlusAssoc(Counted(a, block), ZERO, ZERO);
    if b == [] {
      assert a + b == a;
    } else {
      var n := |b| - 1;
      assert (a + b)[..|a + b| - 1] == a + b[..n];
      CountedConcat(a, b[..n], block);
      PlusAssoc(Counted(a, block), Counted(b[..n], block), EntryCount(b[n], block));
    }
  }
}
