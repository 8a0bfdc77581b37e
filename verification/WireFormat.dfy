/** The texts and bytes on the wire and in the log, written out: the grab header
    (tools/protocol.py), its samples and CRC line, and the lines of a run's log
    (tools/board_run.py). */
module WireFormat {
  import opened Common
  import opened Text
  import opened Crc
  import opened GrabFrame
  import opened RunLog

  // ------------------------------------------------------------------------
  // Fields
  // ------------------------------------------------------------------------

  /** A number after its key, and what follows. */
  function Item(key: string, value: nat, rest: string): string { key + (Decimal(value) + rest) }

  lemma FieldItem(key: string, shown: string, value: nat, rest: string)
    requires shown == " " + key + "="
    ensures Field(key, value) + rest == Item(shown, value, rest)
  {
    hide Decimal;
    assert ((" " + key + "=") + Decimal(value)) + rest == (" " + key + "=") + (Decimal(value) + rest);
  }

  /** The fields from number i on. */
  lemma FieldsFrom(keys: seq<string>, values: seq<nat>, i: nat, shown: string, rest: string)
    requires |keys| == |values| && i < |keys| && shown == " " + keys[i] + "="
    requires Fields(keys[i + 1..], values[i + 1..]) == rest
    ensures Fields(keys[i..], values[i..]) == Item(shown, values[i], rest)
  {
    assert keys[i..][1..] == keys[i + 1..] && values[i..][1..] == values[i + 1..];
    hide Field, Item;
    FieldItem(keys[i], shown, values[i], rest);
  }

  /** A header's text: the ten numbers every header has, in this order. */
  lemma HeaderLine(h: Header)
    requires h.proc.None? && h.load.None? && h.gz.None? && h.ext == []
    ensures HeaderText(h)
            == Item("GRAB n=", h.n, Item(" from=", h.from_, Item(" ksps=", h.ksps, Item(" ov=", h.ov,
               Item(" late=", h.late, Item(" missed=", h.missed, Item(" halves=", h.halves, Item(" xfer=", h.xfer,
               Item(" slp=", h.slp, Item(" dachz=", h.dachz, ""))))))))))
  {
    var k, v := FixedKeys(), FixedValues(h);
    FixedFields(h);
    hide Decimal, Fields;
    var rest := Item(" from=", h.from_, FromKsps(h));
    assert HeaderText(h) == "GRAB" + Fields(k, v) by { assert Fields(k, v) + "" == Fields(k, v); }
    assert "GRAB" + (" n=" + (Decimal(h.n) + rest)) == ("GRAB" + " n=") + (Decimal(h.n) + rest);
    assert "GRAB" + " n=" == "GRAB n=";
  }

  function FromKsps(h: Header): string {
    Item(" ksps=", h.ksps, Item(" ov=", h.ov, Item(" late=", h.late, Item(" missed=", h.missed,
    Item(" halves=", h.halves, Item(" xfer=", h.xfer, Item(" slp=", h.slp, Item(" dachz=", h.dachz, ""))))))))
  }

  /** The last five of ten. */
  lemma LastFields(k: seq<string>, v: seq<nat>)
    requires |k| == |v| == 10 && k[5..] == ["missed", "halves", "xfer", "slp", "dachz"]
    ensures Fields(k[5..], v[5..])
            == Item(" missed=", v[5], Item(" halves=", v[6], Item(" xfer=", v[7], Item(" slp=", v[8],
               Item(" dachz=", v[9], "")))))
  {
    assert Fields(k[10..], v[10..]) == "";
    hide Item, Fields;
    assert forall i :: 5 <= i < 10 ==> k[i] == k[5..][i - 5];
    var r9 := Item(" dachz=", v[9], "");
    FieldsFrom(k, v, 9, " dachz=", "");
    var r8 := Item(" slp=", v[8], r9);
    FieldsFrom(k, v, 8, " slp=", r9);
    var r7 := Item(" xfer=", v[7], r8);
    FieldsFrom(k, v, 7, " xfer=", r8);
    var r6 := Item(" halves=", v[6], r7);
    FieldsFrom(k, v, 6, " halves=", r7);
    FieldsFrom(k, v, 5, " missed=", r6);
  }

  lemma FirstFields(k: seq<string>, v: seq<nat>, rest: string)
    requires |k| == |v| == 10 && k[..5] == ["n", "from", "ksps", "ov", "late"] && Fields(k[5..], v[5..]) == rest
    ensures Fields(k, v)
            == Item(" n=", v[0], Item(" from=", v[1], Item(" ksps=", v[2], Item(" ov=", v[3],
               Item(" late=", v[4], rest)))))
  {
    hide Item, Fields;
    assert forall i :: 0 <= i < 5 ==> k[i] == k[..5][i];
    var r4 := Item(" late=", v[4], rest);
    FieldsFrom(k, v, 4, " late=", rest);
    var r3 := Item(" ov=", v[3], r4);
    FieldsFrom(k, v, 3, " ov=", r4);
    var r2 := Item(" ksps=", v[2], r3);
    FieldsFrom(k, v, 2, " ksps=", r3);
    var r1 := Item(" from=", v[1], r2);
    FieldsFrom(k, v, 1, " from=", r2);
    FieldsFrom(k, v, 0, " n=", r1);
    assert k[0..] == k && v[0..] == v;
  }

  lemma FixedFields(h: Header)
    ensures Fields(FixedKeys(), FixedValues(h)) == Item(" n=", h.n, Item(" from=", h.from_, FromKsps(h)))
  {
    var k, v := FixedKeys(), FixedValues(h);
    hide Item, Fields;
    LastFields(k, v);
    FirstFields(k, v, Fields(k[5..], v[5..]));
  }

  /** The log line of a good grab. */
  lemma SummaryLine(f: Frame)
    requires f.ok
    ensures GrabSummary(f)
            == Item("GRAB n=", |f.samples|, Item(" ov=", f.meta.overrun, Item(" late=", f.meta.late,
               Item(" missed=", f.meta.missed, Item(" slp=", f.meta.slpdat, Item(" ksps=", f.meta.ksps, ""))))))
  {
    var k, m := SummaryKeys(), f.meta;
    var v: seq<nat> := [|f.samples|, m.overrun, m.late, m.missed, m.slpdat, m.ksps];
    assert Fields(k[6..], v[6..]) == "";
    hide Decimal, Fields;
    var rest := Item(" ov=", m.overrun, Item(" late=", m.late, Item(" missed=", m.missed, Item(" slp=", m.slpdat,
                Item(" ksps=", m.ksps, "")))));
    SummaryFields(k, v, m, rest);
    assert "GRAB" + (" n=" + (Decimal(v[0]) + rest)) == ("GRAB" + " n=") + (Decimal(v[0]) + rest);
    assert "GRAB" + " n=" == "GRAB n=";
  }

  lemma SummaryFields(k: seq<string>, v: seq<nat>, m: Meta, rest: string)
    requires k == ["n", "ov", "late", "missed", "slp", "ksps"] && |v| == 6
    requires v[1..] == [m.overrun, m.late, m.missed, m.slpdat, m.ksps]
    requires Fields(k[6..], v[6..]) == ""
    requires rest == Item(" ov=", m.overrun, Item(" late=", m.late, Item(" missed=", m.missed, Item(" slp=", m.slpdat,
                     Item(" ksps=", m.ksps, "")))))
    ensures Fields(k, v) == Item(" n=", v[0], rest)
  {
    hide Item, Fields;
    assert forall i :: 1 <= i < 6 ==> v[i] == v[1..][i - 1];
    var r5 := Item(" ksps=", m.ksps, "");
    FieldsFrom(k, v, 5, " ksps=", "");
    var r4 := Item(" slp=", m.slpdat, r5);
    FieldsFrom(k, v, 4, " slp=", r5);
    var r3 := Item(" missed=", m.missed, r4);
    FieldsFrom(k, v, 3, " missed=", r4);
    var r2 := Item(" late=", m.late, r3);
    FieldsFrom(k, v, 2, " late=", r3);
    FieldsFrom(k, v, 1, " ov=", r2);
    FieldsFrom(k, v, 0, " n=", rest);
    assert k[0..] == k && v[0..] == v;
  }

  // ------------------------------------------------------------------------
  // Samples and the CRC line
  // ------------------------------------------------------------------------

  lemma WordBits(lo: byte, hi: byte)
    ensures Word(lo, hi) == ((lo as bv16) + (hi as bv16) * 256) % 4096
  {
  }

  /** A sample is the low byte, and the high byte times 256, modulo 4096. */
  lemma SampleAt(payload: seq<byte>, i: nat)
    requires |payload| % 2 == 0 && i < |payload| / 2
    ensures Samples(payload)[i] == ((payload[2 * i] as bv16) + (payload[2 * i + 1] as bv16) * 256) % 4096
  {
    hide Word;
    WordBits(payload[2 * i], payload[2 * i + 1]);
  }

  /** The end of a frame: the CRC line of the check value, the prompt and ACK. */
  lemma TailBytes()
    ensures Tail(0x29B1, ACK)
            == [0x0D, 0x0A, 0x43, 0x52, 0x43, 0x20, 0x32, 0x39, 0x42, 0x31, 0x0D, 0x0A, 0x3E, 0x20, 0x06]
  {
  }

  // ------------------------------------------------------------------------
  // Log lines
  // ------------------------------------------------------------------------

  lemma NumberText()
    ensures Decimal(1234) == "1234"
  {
    assert Decimal(1) == "1" && Decimal(12) == "12" && Decimal(123) == "123";
  }

  /** A line: milliseconds, direction, block and text. */
  lemma LogLine()
    ensures Print(Entry(1234, TX, "R5", "stream off")) == "1234 TX R5 stream off"
  {
    NumberText();
    hide Decimal;
    var text := "R5" + (" " + "stream off");
    assert text == "R5 stream off";
    var more := "TX" + (" " + text);
    assert more == "TX R5 stream off";
    assert "1234" + (" " + more) == "1234 TX R5 stream off";
  }
}
