/** The log of a session (tools/board_run.py): what is said line by line, the
    block ends and grab counts it holds, and that the evaluator
    (tools/eval_board.py) reads back from the printed log what was said. */
module BoardRun {
  import opened Common
  import opened Text
  import opened GrabFrame
  import opened RunLog

  // ------------------------------------------------------------------------
  // What a log says, line by line
  // ------------------------------------------------------------------------

  /** A line of the log without its time. */
  datatype Line = Line(dir: Dir, block: string, text: string)

  /** A text's verdict as the evaluator will read it. */
  function TextEnd(block: string, text: string): seq<(string, string)> {
    if TextPart(text).Some? && EndVerdict(TextPart(text).value).Some? then
      [(block, EndVerdict(TextPart(text).value).value)]
    else []
  }

  function TextCount(text: string): Counters { if TextPart(text).Some? then LineCount(TextPart(text).value) else ZERO }

  function TextsCount(texts: seq<string>): Counters {
    if texts == [] then ZERO else Plus(TextsCount(texts[..|texts| - 1]), TextCount(texts[|texts| - 1]))
  }

  function RawEnd(l: Line): seq<(string, string)> { if l.dir == EV then TextEnd(l.block, l.text) else [] }

  function RawCount(l: Line, block: string): Counters {
    if l.dir == RX && l.block == block then TextCount(l.text) else ZERO
  }

  /** The block ends and the grab counts of the lines said. */
  function LogEnds(said: seq<Line>): seq<(string, string)> {
    if said == [] then [] else LogEnds(said[..|said| - 1]) + RawEnd(said[|said| - 1])
  }

  function LogCount(said: seq<Line>, block: string): Counters {
    if said == [] then ZERO else Plus(LogCount(said[..|said| - 1], block), RawCount(said[|said| - 1], block))
  }

  /** Between two points of the log: these block ends, this count in `block`, nothing in any other. */
  ghost predicate Effect(a: seq<Line>, b: seq<Line>, ends: seq<(string, string)>, block: string, count: Counters) {
    LogEnds(b) == LogEnds(a) + ends
    && forall c :: LogCount(b, c) == if c == block then Plus(LogCount(a, c), count) else LogCount(a, c)
  }

  /** These block ends, and whatever counts in `block` only. */
  ghost predicate Within(a: seq<Line>, b: seq<Line>, ends: seq<(string, string)>, block: string) {
    LogEnds(b) == LogEnds(a) + ends && forall c :: c != block ==> LogCount(b, c) == LogCount(a, c)
  }

  /** These block ends, and whatever counts in blocks of the family only. */
  ghost predicate FamilyEffect(a: seq<Line>, b: seq<Line>, ends: seq<(string, string)>, prefix: string) {
    LogEnds(b) == LogEnds(a) + ends && forall c :: !InFamily(c, prefix) ==> LogCount(b, c) == LogCount(a, c)
  }

  lemma WithinFamily(a: seq<Line>, b: seq<Line>, ends: seq<(string, string)>, block: string)
    requires Within(a, b, ends, block)
    ensures FamilyEffect(a, b, ends, block)
  {
    hide LogEnds, LogCount;
  }

  lemma NoEffect(a: seq<Line>, block: string)
    ensures Effect(a, a, [], block, ZERO)
  {
    forall c ensures LogCount(a, c) == Plus(LogCount(a, c), ZERO) { PlusAssoc(LogCount(a, c), ZERO, ZERO); }
  }

  lemma EffectTrans(a: seq<Line>, b: seq<Line>, d: seq<Line>, e1: seq<(string, string)>, e2: seq<(string, string)>,
                    block: string, m: Counters, n: Counters)
    requires Effect(a, b, e1, block, m) && Effect(b, d, e2, block, n)
    ensures Effect(a, d, e1 + e2, block, Plus(m, n))
  {
    hide LogEnds, LogCount, Plus;
    assert (LogEnds(a) + e1) + e2 == LogEnds(a) + (e1 + e2);
    PlusAssoc(LogCount(a, block), m, n);
  }

  /** Two stretches without a block end. */
  lemma QuietTrans(a: seq<Line>, b: seq<Line>, d: seq<Line>, block: string, m: Counters, n: Counters)
    requires Effect(a, b, [], block, m) && Effect(b, d, [], block, n)
    ensures Effect(a, d, [], block, Plus(m, n))
    ensures m == ZERO ==> Effect(a, d, [], block, n)
    ensures n == ZERO ==> Effect(a, d, [], block, m)
  {
    hide LogEnds, LogCount, Plus;
    EffectTrans(a, b, d, [], [], block, m, n);
    PlusAssoc(m, ZERO, ZERO);
    PlusAssoc(n, ZERO, ZERO);
  }

  lemma EffectIsWithin(a: seq<Line>, b: seq<Line>, ends: seq<(string, string)>, block: string, n: Counters)
    requires Effect(a, b, ends, block, n)
    ensures Within(a, b, ends, block)
  {
    hide LogEnds, LogCount;
  }

  lemma WithinTrans(a: seq<Line>, b: seq<Line>, d: seq<Line>, ends: seq<(string, string)>, block: string)
    requires Within(a, b, [], block) && Within(b, d, ends, block)
    ensures Within(a, d, ends, block)
  {
    hide LogEnds, LogCount;
  }

  lemma OneLineSaid(a: seq<Line>, l: Line)
    ensures Effect(a, a + [l], RawEnd(l), l.block, if l.dir == RX then TextCount(l.text) else ZERO)
  {
    var b := a + [l];
    assert b[..|b| - 1] == a;
    hide TextCount, TextEnd;
    forall c
      ensures LogCount(b, c) ==
                if c == l.block then Plus(LogCount(a, c), if l.dir == RX then TextCount(l.text) else ZERO)
                else LogCount(a, c)
    {
      PlusAssoc(LogCount(a, c), ZERO, ZERO);
    }
  }

  // ------------------------------------------------------------------------
  // The log
  // ------------------------------------------------------------------------

  function Printed(entries: seq<Entry>): seq<string> {
    if entries == [] then [] else Printed(entries[..|entries| - 1]) + [Print(entries[|entries| - 1])]
  }

  predicate Tokens(entries: seq<Entry>) { forall i :: 0 <= i < |entries| ==> IsToken(entries[i].block) }

  function LineOf(e: Entry): Line { Line(e.dir, e.block, e.text) }

  function SaidBy(entries: seq<Entry>): seq<Line> {
    if entries == [] then [] else SaidBy(entries[..|entries| - 1]) + [LineOf(entries[|entries| - 1])]
  }

  class Log {
    var lines: seq<string>
    /** What the lines were printed from, with the times. */
    ghost var entries: seq<Entry>
    /** What was said, without the times. */
    ghost var said: seq<Line>

    ghost predicate Valid()
      reads this
    {
      lines == Printed(entries) && said == SaidBy(entries) && Tokens(entries)
    }

    constructor ()
      ensures Valid() && lines == [] && said == []
    {
      lines, entries, said := [], [], [];
    }

    method Add(dir: Dir, block: string, text: string)
      requires Valid() && IsToken(block)
      modifies this
      ensures Valid() && said == old(said) + [Line(dir, block, text)]
    {
      var ms: nat := *;
      var e := Entry(ms, dir, block, text);
      lines := lines + [Print(e)];
      entries := entries + [e];
      said := said + [LineOf(e)];
      assert entries[..|entries| - 1] == old(entries);
      hide Print, Printed, SaidBy, IsToken;
    }
  }

  /** No text but "block end .." is taken for one. */
  lemma QuietText(block: string, text: string)
    requires text != [] && (text[0] != 'b' || (|text| > 6 && text[6] != 'e') || (|text| > 1 && text[1] != 'l'))
    ensures TextEnd(block, text) == []
  {
    var p := "block end ";
    assert p[0] == 'b' && p[1] == 'l' && p[6] == 'e';
    if TextPart(text).Some? { assert TextPart(text).value <= text; }
  }

  lemma EndText(block: string, verdict: string)
    requires IsToken(verdict)
    ensures TextEnd(block, "block end " + verdict) == [(block, verdict)]
  {
    assert OneLine("block end ");
    assert IsSpace('\n');
    assert OneLine(verdict);
    OneLineConcat("block end ", verdict);
    TextTaken("block end ", verdict);
  }

  lemma AckText(ok: bool)
    ensures TextCount(if ok then "[ACK]" else "[NAK]") == ZERO
  {
    var t := if ok then "[ACK]" else "[NAK]";
    assert OneLine(t) && t[0] == '[' && "GRAB"[0] == 'G';
  }

  lemma SummaryText(f: Frame)
    ensures TextCount(GrabSummary(f)) == OfGrab(f)
  {
    SummaryOneLine(f);
    SummaryCounted(f);
    hide GrabSummary, GrabCount, OfGrab;
  }

  // ------------------------------------------------------------------------
  // Printing and reading back
  // ------------------------------------------------------------------------

  /** The evaluator reads from the printed log what was said. */
  lemma {:induction false} ReadBack(entries: seq<Entry>)
    requires Tokens(entries)
    ensures Ends(Parsed(Printed(entries))) == LogEnds(SaidBy(entries))
    ensures forall c :: Counted(Parsed(Printed(entries)), c) == LogCount(SaidBy(entries), c)
  {
    if entries != [] {
      var n := |entries| - 1;
      var e, before := entries[n], Printed(entries[..n]);
      ReadBack(entries[..n]);
      ParsePrint(e);
      assert Printed(entries)[..n] == before && SaidBy(entries)[..n] == SaidBy(entries[..n]) by {
        SameLengths(entries[..n]);
      }
      assert Printed(entries)[|Printed(entries)| - 1] == Print(e);
      assert SaidBy(entries)[|SaidBy(entries)| - 1] == LineOf(e);
      ReadOne(Parsed(before), e);
      hide ParseLine, Print, TextPart, LineCount, EndVerdict, Ends, Counted;
    }
  }

  lemma {:induction false} SameLengths(entries: seq<Entry>)
    ensures |Printed(entries)| == |SaidBy(entries)| == |entries|
  {
    if entries != [] { SameLengths(entries[..|entries| - 1]); }
  }

  lemma ReadOne(parsed: seq<Entry>, e: Entry)
    ensures var t := TextPart(e.text);
            var next := parsed + if t.None? then [] else [e.(text := t.value)];
            && Ends(next) == Ends(parsed) + RawEnd(LineOf(e))
            && (forall c :: Counted(next, c) == Plus(Counted(parsed, c), RawCount(LineOf(e), c)))
  {
    hide EndVerdict, GrabCount, TextPart;
    var t := TextPart(e.text);
    if t.None? {
      assert parsed + [] == parsed;
      forall c ensures Counted(parsed, c) == Plus(Counted(parsed, c), RawCount(LineOf(e), c)) {
        PlusAssoc(Counted(parsed, c), ZERO, ZERO);
      }
    } else {
      var next := parsed + [e.(text := t.value)];
      assert next[..|next| - 1] == parsed;
    }
  }
}
