/** R4 (tools/board_run.py): three rates of the stream, then what the GUI's
    buttons send, each in its own sub-block. */
module RateBlocks {
  import opened Common
  import opened Text
  import opened GrabFrame
  import opened RunLog
  import opened BoardRun
  import opened Session
  import opened StreamBlocks

  // ------------------------------------------------------------------------
  // R4.gui
  // ------------------------------------------------------------------------

  function SkipNonDigits(s: string): string { if s == [] || IsDigit(s[0]) then s else SkipNonDigits(s[1..]) }

  /** "samples per half", anything but digits, a number: the first one in the line. */
  function HalfIn(s: string): Option<nat> {
    if s == [] then None
    else
      var t := TakeText(s, "samples per half");
      var n := if t.Some? then TakeNumber(SkipNonDigits(t.value)) else None;
      if n.Some? then Some(n.value.0) else HalfIn(s[1..])
  }

  function BufHalf(lines: seq<string>): Option<nat> {
    if lines == [] then None else if HalfIn(lines[0]).Some? then HalfIn(lines[0]) else BufHalf(lines[1..])
  }

  predicate LengthsGood(grabs: seq<GrabRecord>) {
    forall i :: 0 <= i < |grabs| && grabs[i].frame.ok ==>
      |grabs[i].frame.samples| == GUI_BUF || |grabs[i].frame.samples| == 2 * GUI_BUF
  }

  /** The size asked for, set, and the stream switched on. */
  function GuiStart(s: State, sub: string): Part {
    Told(Told(Told(Begun(s), sub, "buf", true), sub, "buf " + Decimal(GUI_BUF), true), sub, "stream on 4000", true)
  }

  /** While the stream runs: the DAC command, the grabs, the size asked again. */
  function GuiStream(p: Part, sub: string): Part {
    Told(Grabbing(Told(p, sub, "dac 2 on 256 3000 39", true), sub, GUI_GRABS, false), sub, "buf", false)
  }

  /** Everything put back. */
  function GuiStop(p: Part, sub: string, orig: Option<nat>): Part {
    var off := Told(Told(p, sub, "dac 2 off", true), sub, "stream off", true);
    if orig.Some? then Told(off, sub, "buf " + Decimal(orig.value), true) else off
  }

  function GuiHalf(answers: seq<Answer>): Option<nat> {
    if Accepted(NthAnswer(answers, 2)) then BufHalf(LinesOf(NthAnswer(answers, 4))) else None
  }

  /** The size set was in effect: while streaming, and in every good grab. */
  predicate InEffect(grabs: seq<GrabRecord>, half: Option<nat>) {
    grabs != [] && half == Some(GUI_BUF) && LengthsGood(grabs)
  }

  function Judged(p: Part, sub: string, orig: Option<nat>, half: Option<nat>): Part {
    if p.end.Cut? then p
    else
      var told := if p.grabs != [] && !InEffect(p.grabs, half) then Logged(p.state, EV, sub, "buf 512 not in effect")
                  else p.state;
      p.(state := told, end := Ended(p.end.ok && orig.Some? && InEffect(p.grabs, half)))
  }

  /** What the GUI's buttons send. */
  function GuiOf(s: State, sub: string): Part {
    var a, start := s.script.answers, GuiStart(s, sub);
    var orig := BufHalf(LinesOf(NthAnswer(a, 0)));
    Judged(GuiStop(if Accepted(NthAnswer(a, 2)) then GuiStream(start, sub) else start, sub, orig), sub, orig,
           GuiHalf(a))
  }

  /** While the stream runs. The half is only known if the answers came. */
  method RunGuiStream(board: Board, log: Log, sub: string, tag: string, fail: FailFrames, ghost before: Part)
    returns (end: Ending, grabs: seq<GrabRecord>, half: Option<nat>)
    requires log.Valid() && IsToken(sub) && before.end.Ended? && before.state == Now(board, log)
    requires before.grabs == [] && before.lost == []
    modifies log, board, fail
    ensures log.Valid()
    ensures var p := GuiStream(before, sub);
            && Now(board, log) == p.state && grabs == p.grabs
            && fail.items == AfterGrabs(old(fail.items), tag, p.grabs + p.lost)
            && (p.end.Cut? ==> end == p.end) && (p.end.Ended? ==> end.Ended? && p.end.ok == (before.end.ok && end.ok))
    ensures end.Ended? ==> half == BufHalf(LinesOf(NthAnswer(old(board.script.answers), 1)))
  {
    hide Sent, Looped, Taken, AfterGrabs, AllGood, BufHalf, Effect, TextsCount, SumOf;
    ghost var answers := board.script.answers;
    NextAnswer(answers, 0);
    NextAnswer(answers, 1);
    NoGrabs(fail.items, tag);
    ghost var none := before.grabs;
    assert none + none == none;
    SentEffect(before.state, sub, "dac 2 on 256 3000 39");
    var dac := Send(board, log, sub, "dac 2 on 256 3000 39");
    if !dac.Reply? { return Cut(dac), [], None; }
    ghost var came := Came(board.script.grabs, GUI_GRABS, false);
    LoopEffect(Now(board, log), sub, GUI_GRABS, false);
    var r := StreamGrabs(board, log, sub, tag, GUI_GRABS, false, fail);
    assert none + came == came && came + none == came && none + (none + came) == came;
    if r.Lost? { return Cut(r.a), [], None; }
    var buf := Send(board, log, sub, "buf");
    if !buf.Reply? { return Cut(buf), r.grabs, None; }
    end, grabs, half := Ended(dac.ok && r.okAll), r.grabs, BufHalf(buf.lines);
  }

  /** Everything put back; whether all commands were accepted. */
  method RunGuiStop(board: Board, log: Log, sub: string, orig: Option<nat>, ghost before: Part) returns (end: Ending)
    requires log.Valid() && IsToken(sub) && before.end.Ended? && before.state == Now(board, log)
    modifies log, board
    ensures log.Valid()
    ensures var p := GuiStop(before, sub, orig);
            && Now(board, log) == p.state
            && (p.end.Cut? ==> end == p.end) && (p.end.Ended? ==> end.Ended? && p.end.ok == (before.end.ok && end.ok))
  {
    hide Sent;
    var dac := Send(board, log, sub, "dac 2 off");
    if !dac.Reply? { return Cut(dac); }
    var off := Send(board, log, sub, "stream off");
    if !off.Reply? { return Cut(off); }
    var ok := true;
    if orig.Some? {
      var back := Send(board, log, sub, "buf " + Decimal(orig.value));
      if !back.Reply? { return Cut(back); }
      ok := back.ok;
    }
    end := Ended(dac.ok && off.ok && ok);
  }

  /** Any command without a reply ends it. */
  method RunGui(board: Board, log: Log, sub: string, tag: string, fail: FailFrames)
    returns (end: Ending, grabs: seq<GrabRecord>)
    requires log.Valid() && IsToken(sub)
    modifies log, board, fail
    ensures log.Valid()
    ensures var p := GuiOf(old(Now(board, log)), sub);
            && Now(board, log) == p.state && end == p.end && grabs == p.grabs
            && fail.items == AfterGrabs(old(fail.items), tag, p.grabs + p.lost)
    ensures end == Ended(true) <==> GuiGood(old(board.script.answers), old(board.script.grabs))
  {
    hide GuiGood;
    GuiOkIff(Now(board, log), sub);
    hide Sent, AfterGrabs, BufHalf, GuiStream, GuiStop, LengthsGood;
    ghost var s := Now(board, log);
    GuiAnswers(s, sub);
    NoGrabs(fail.items, tag);
    grabs := [];
    assert grabs + grabs == grabs;
    var buf := Send(board, log, sub, "buf");
    if !buf.Reply? { GuiCut(s, sub); return Cut(buf), []; }
    var orig := BufHalf(buf.lines);
    var set512 := Send(board, log, sub, "buf " + Decimal(GUI_BUF));
    if !set512.Reply? { GuiCut(s, sub); return Cut(set512), []; }
    var on := Send(board, log, sub, "stream on 4000");
    if !on.Reply? { GuiCut(s, sub); return Cut(on), []; }
    var streamed, half := Ended(false), None;
    if on.ok {
      streamed, grabs, half := RunGuiStream(board, log, sub, tag, fail, GuiStart(s, sub));
      if streamed.Cut? { GuiCut(s, sub); return streamed, grabs; }
    }
    ghost var before := if on.ok then GuiStream(GuiStart(s, sub), sub) else GuiStart(s, sub);
    StopKeeps(before, sub, orig);
    var stopped := RunGuiStop(board, log, sub, orig, before);
    if stopped.Cut? { return stopped, grabs; }
    var inEffect := InEffect(grabs, half);
    if grabs != [] && !inEffect { LogLine(board, log, EV, sub, "buf 512 not in effect"); }
    end := Ended(buf.ok && set512.ok && on.ok && streamed.ok && stopped.ok && orig.Some? && inEffect);
  }

  /** The answers up to the third decide whether the stream runs. */
  lemma GuiAnswers(s: State, sub: string)
    ensures var a := s.script.answers;
            var s1 := Sent(s, sub, "buf");
            var s2 := Sent(s1, sub, "buf " + Decimal(GUI_BUF));
            var s3 := Sent(s2, sub, "stream on 4000");
            && NthAnswer(a, 0) == FirstAnswer(a) && NthAnswer(a, 1) == FirstAnswer(s1.script.answers)
            && NthAnswer(a, 2) == FirstAnswer(s2.script.answers) && s3.script.answers == Dropped(a, 3)
            && s3.script.grabs == s.script.grabs
            && NthAnswer(Dropped(a, 3), 1) == NthAnswer(a, 4)
  {
    hide Sent;
    var a, s1 := s.script.answers, Sent(s, sub, "buf");
    var s2 := Sent(s1, sub, "buf " + Decimal(GUI_BUF));
    SentEffect(s, sub, "buf");
    SentEffect(s1, sub, "buf " + Decimal(GUI_BUF));
    SentEffect(s2, sub, "stream on 4000");
    NextAnswer(a, 0);
    NextAnswer(a, 1);
    NextAnswer(a, 2);
  }

  /** Nothing follows a part that is cut short. */
  lemma GuiCut(s: State, sub: string)
    ensures GuiStart(s, sub).end.Cut? ==> GuiOf(s, sub) == GuiStart(s, sub)
    ensures var p := GuiStream(GuiStart(s, sub), sub);
            Accepted(NthAnswer(s.script.answers, 2)) && p.end.Cut? ==> GuiOf(s, sub) == p
  {
    hide Sent, BufHalf, Looped, InEffect;
  }

  lemma StopKeeps(p: Part, sub: string, orig: Option<nat>)
    ensures GuiStop(p, sub, orig).grabs == p.grabs && GuiStop(p, sub, orig).lost == p.lost
  {
    hide Sent;
  }

  /** The lines of the GUI's sub-block: no block end, and the counts of its grabs and replies. */
  lemma GuiFits(s: State, sub: string)
    ensures Fits(s, GuiOf(s, sub), sub)
  {
    hide Fits, Told, Grabbing, BufHalf, InEffect, Effect, Judged;
    NoEffect(s.said, sub);
    BegunFits(s, s, sub);
    var p1 := Told(Begun(s), sub, "buf", true);
    ToldFits(s, Begun(s), sub, "buf", true);
    var p2 := Told(p1, sub, "buf " + Decimal(GUI_BUF), true);
    ToldFits(s, p1, sub, "buf " + Decimal(GUI_BUF), true);
    var start := GuiStart(s, sub);
    ToldFits(s, p2, sub, "stream on 4000", true);
    StreamingFits(s, start, sub);
    var a := s.script.answers;
    var orig := BufHalf(LinesOf(NthAnswer(a, 0)));
    var streamed := if Accepted(NthAnswer(a, 2)) then GuiStream(start, sub) else start;
    StoppingFits(s, streamed, sub, orig);
    JudgedFits(s, GuiStop(streamed, sub, orig), sub, orig, GuiHalf(a));
  }

  lemma StreamingFits(start: State, p: Part, sub: string)
    requires Fits(start, p, sub)
    ensures Fits(start, GuiStream(p, sub), sub)
  {
    hide Fits, Told, Grabbing;
    ToldFits(start, p, sub, "dac 2 on 256 3000 39", true);
    var dac := Told(p, sub, "dac 2 on 256 3000 39", true);
    GrabbingFits(start, dac, sub, GUI_GRABS, false);
    ToldFits(start, Grabbing(dac, sub, GUI_GRABS, false), sub, "buf", false);
  }

  lemma StoppingFits(start: State, p: Part, sub: string, orig: Option<nat>)
    requires Fits(start, p, sub)
    ensures Fits(start, GuiStop(p, sub, orig), sub)
  {
    hide Fits, Told;
    var dac := Told(p, sub, "dac 2 off", true);
    ToldFits(start, p, sub, "dac 2 off", true);
    var off := Told(dac, sub, "stream off", true);
    ToldFits(start, dac, sub, "stream off", true);
    if orig.Some? { ToldFits(start, off, sub, "buf " + Decimal(orig.value), true); }
  }

  lemma JudgedFits(start: State, p: Part, sub: string, orig: Option<nat>, half: Option<nat>)
    requires Fits(start, p, sub)
    ensures Fits(start, Judged(p, sub, orig, half), sub)
  {
    hide Effect, PartCount, InEffect, TextEnd;
    var q := Judged(p, sub, orig, half);
    assert PartCount(q) == PartCount(p) by { SamePart(p, q); }
    QuietText(sub, "buf 512 not in effect");
    LoggedEffect(p.state, EV, sub, "buf 512 not in effect");
    if q.state != p.state { QuietTrans(start.said, p.state.said, q.state.said, sub, PartCount(p), ZERO); }
  }

  lemma SamePart(p: Part, q: Part)
    requires p.grabs == q.grabs && p.lost == q.lost && p.replies == q.replies
    ensures PartCount(p) == PartCount(q)
  {
  }

  /** The eight commands of the GUI's sub-block: all accepted (the size asked
      again need only be answered), the size known, the ten grabs good and of the
      size set, and that size still reported while the stream runs. */
  predicate GuiGood(a: seq<Answer>, g: seq<GrabAnswer>) {
    && Accepted(NthAnswer(a, 0)) && BufHalf(LinesOf(NthAnswer(a, 0))).Some?
    && Accepted(NthAnswer(a, 1)) && Accepted(NthAnswer(a, 2)) && Accepted(NthAnswer(a, 3))
    && GoodGrabs(g, GUI_GRABS, false) && LengthsGood(Records(g, GUI_GRABS, false))
    && NthAnswer(a, 4).Reply? && BufHalf(LinesOf(NthAnswer(a, 4))) == Some(GUI_BUF)
    && Accepted(NthAnswer(a, 5)) && Accepted(NthAnswer(a, 6)) && Accepted(NthAnswer(a, 7))
  }

  /** A part that has gone well so far has used its answers. */
  predicate Well(p: Part, answers: seq<Answer>, grabs: seq<GrabAnswer>) {
    p.end == Ended(true) && p.state.script.answers == answers && p.state.script.grabs == grabs
  }

  /** A judged command goes on well exactly if it is accepted. */
  lemma ToldWell(p: Part, sub: string, command: string, a: seq<Answer>, n: nat, g: seq<GrabAnswer>, judged: bool)
    requires p.end == Ended(true) ==> Well(p, Dropped(a, n), g)
    ensures var q := Told(p, sub, command, judged);
            && (q.end == Ended(true) ==> Well(q, Dropped(a, n + 1), g))
            && (q.end == Ended(true) <==>
                  p.end == Ended(true) && NthAnswer(a, n).Reply? && (judged ==> NthAnswer(a, n).ok))
            && q.grabs == p.grabs
  {
    hide Sent, Effect;
    NextAnswer(a, n);
    SentEffect(p.state, sub, command);
  }

  lemma GrabbingWell(p: Part, sub: string, n: nat, check: bool, a: seq<Answer>, g: seq<GrabAnswer>)
    requires p.end == Ended(true) ==> Well(p, a, g)
    requires p.grabs == []
    ensures var q := Grabbing(p, sub, n, check);
            && (q.end == Ended(true) ==> Well(q, a, Dropped(g, n)) && q.grabs == Came(g, n, check))
            && (q.end == Ended(true) <==> p.end == Ended(true) && GoodGrabs(g, n, check))
  {
    hide Looped, GoodGrabs, Effect, Came, GrabsOf, LeftGrabs;
    LoopEffect(p.state, sub, n, check);
    GoodGrabsIff(g, n, check);
    var r := GrabsOf(p.state.script.grabs, n, check);
    if r.Done? { assert p.grabs + r.grabs == r.grabs; }
  }

  lemma StartWell(s: State, sub: string)
    ensures var a, g, p := s.script.answers, s.script.grabs, GuiStart(s, sub);
            && (p.end == Ended(true) ==> Well(p, Dropped(a, 3), g))
            && (p.end == Ended(true) <==>
                  Accepted(NthAnswer(a, 0)) && Accepted(NthAnswer(a, 1)) && Accepted(NthAnswer(a, 2)))
            && p.grabs == []
  {
    hide Told;
    var a, g := s.script.answers, s.script.grabs;
    var p1 := Told(Begun(s), sub, "buf", true);
    var p2 := Told(p1, sub, "buf " + Decimal(GUI_BUF), true);
    assert Dropped(a, 0) == a;
    ToldWell(Begun(s), sub, "buf", a, 0, g, true);
    ToldWell(p1, sub, "buf " + Decimal(GUI_BUF), a, 1, g, true);
    ToldWell(p2, sub, "stream on 4000", a, 2, g, true);
  }

  lemma StreamWell(p: Part, sub: string, a: seq<Answer>, g: seq<GrabAnswer>)
    requires p.end == Ended(true) ==> Well(p, Dropped(a, 3), g)
    requires p.grabs == []
    ensures var q := GuiStream(p, sub);
            && (q.end == Ended(true) ==>
                  Well(q, Dropped(a, 5), Dropped(g, GUI_GRABS)) && q.grabs == Came(g, GUI_GRABS, false))
            && (q.end == Ended(true) <==>
                  p.end == Ended(true) && Accepted(NthAnswer(a, 3)) && GoodGrabs(g, GUI_GRABS, false)
                  && NthAnswer(a, 4).Reply?)
  {
    hide Told, Grabbing, GoodGrabs, Came;
    var dac := Told(p, sub, "dac 2 on 256 3000 39", true);
    ToldWell(p, sub, "dac 2 on 256 3000 39", a, 3, g, true);
    GrabbingWell(dac, sub, GUI_GRABS, false, Dropped(a, 4), g);
    ToldWell(Grabbing(dac, sub, GUI_GRABS, false), sub, "buf", a, 4, Dropped(g, GUI_GRABS), false);
  }

  lemma StopWell(p: Part, sub: string, a: seq<Answer>, g: seq<GrabAnswer>, orig: Option<nat>)
    requires p.end == Ended(true) ==> Well(p, Dropped(a, 5), g)
    ensures var q := GuiStop(p, sub, orig);
            && q.grabs == p.grabs
            && (q.end == Ended(true) <==>
                  p.end == Ended(true) && Accepted(NthAnswer(a, 5)) && Accepted(NthAnswer(a, 6))
                  && (orig.Some? ==> Accepted(NthAnswer(a, 7))))
  {
    hide Told;
    var dac := Told(p, sub, "dac 2 off", true);
    ToldWell(p, sub, "dac 2 off", a, 5, g, true);
    var off := Told(dac, sub, "stream off", true);
    ToldWell(dac, sub, "stream off", a, 6, g, true);
    if orig.Some? { ToldWell(off, sub, "buf " + Decimal(orig.value), a, 7, g, true); }
  }

  /** The GUI's sub-block is good exactly then. */
  lemma GuiOkIff(s: State, sub: string)
    ensures GuiOf(s, sub).end == Ended(true) <==> GuiGood(s.script.answers, s.script.grabs)
  {
    hide Told, Grabbing, GoodGrabs, Records, Came, BufHalf, LengthsGood, GuiStart, GuiStream, GuiStop;
    var a, g, start := s.script.answers, s.script.grabs, GuiStart(s, sub);
    var orig := BufHalf(LinesOf(NthAnswer(a, 0)));
    StartWell(s, sub);
    if Accepted(NthAnswer(a, 2)) {
      var streamed := GuiStream(start, sub);
      StreamWell(start, sub, a, g);
      StopWell(streamed, sub, a, Dropped(g, GUI_GRABS), orig);
      GoodGrabsIff(g, GUI_GRABS, false);
      if GoodGrabs(g, GUI_GRABS, false) { SomeRecords(g, GUI_GRABS, false); }
    } else {
      StopNot(start, sub, orig);
    }
  }

  lemma StopNot(p: Part, sub: string, orig: Option<nat>)
    requires p.end != Ended(true)
    ensures GuiStop(p, sub, orig).end != Ended(true)
  {
    hide Sent;
  }

  lemma SomeRecords(g: seq<GrabAnswer>, n: nat, check: bool)
    requires GoodGrabs(g, n, check) && n > 0
    ensures |Records(g, n, check)| == n && Records(g, n, check) != []
  {
    hide Bad, RecordOf;
  }

  // ------------------------------------------------------------------------
  // The rates
  // ------------------------------------------------------------------------

  const RATES: seq<string> := ["1000", "4000", "8000"]

  /** One sub-block of R4 that was completed. */
  datatype Rate = Rate(sub: string, grabs: seq<GrabRecord>)

  function SubBlock(rate: string): string { "R4." + rate }

  /** The sub-blocks so far: those completed with their replies, every grab that came, and how it ended. */
  datatype Rates = Rates(state: State, rates: seq<Rate>, replies: seq<seq<string>>, came: seq<GrabRecord>, end: Ending)

  /** Another sub-block. */
  function Joined(r: Rates, sub: string, p: Part): Rates {
    if p.end.Cut? then r.(state := p.state, came := r.came + (p.grabs + p.lost), end := p.end)
    else
      Rates(p.state, r.rates + [Rate(sub, p.grabs)], r.replies + [p.replies], r.came + (p.grabs + p.lost),
            if r.end.Ended? then Ended(r.end.ok && p.end.ok) else r.end)
  }

  function RateOf(s: State, rate: string): Part {
    StreamOf(s, SubBlock(rate), "stream on " + rate, GRABS_PER_RATE, true)
  }

  /** One more rate, unless one was cut short. */
  function Rated(r: Rates, rate: string): Rates {
    if r.end.Cut? then r else Joined(r, SubBlock(rate), RateOf(r.state, rate))
  }

  /** The first i rates. */
  function RatesUpTo(s: State, i: nat): Rates
    requires i <= |RATES|
  {
    if i == 0 then Rates(s, [], [], [], Ended(true)) else Rated(RatesUpTo(s, i - 1), RATES[i - 1])
  }

  /** All sub-blocks of R4. */
  function R4Rates(s: State, caps: set<string>): Rates {
    var r := RatesUpTo(Started(s, "R4"), |RATES|);
    if r.end.Cut? then r
    else if "buf" in caps && "dac" in caps then Joined(r, "R4.gui", GuiOf(r.state, "R4.gui"))
    else r.(state := Logged(r.state, EV, "R4", "not_available buf/dac"))
  }

  function R4Of(s: State, caps: set<string>): Block {
    if "stream" !in caps then NotAvailable(Started(s, "R4"), "R4", "stream")
    else BlockEnd(R4Rates(s, caps).state, "R4", R4Rates(s, caps).end)
  }

  method RunR4(board: Board, log: Log, tag: string, fail: FailFrames)
    returns (verdict: Option<string>, rates: seq<Rate>)
    requires log.Valid()
    modifies log, board, fail
    ensures log.Valid() && Block(verdict, Now(board, log)) == R4Of(old(Now(board, log)), board.info.caps)
    ensures var r := R4Rates(old(Now(board, log)), board.info.caps);
            if "stream" in board.info.caps then
              rates == r.rates && fail.items == AfterGrabs(old(fail.items), tag, r.came)
            else rates == [] && fail.items == old(fail.items)
    ensures verdict == Some("ok") <==>
            R4Good(board.info.caps, old(board.script.answers), old(board.script.grabs))
  {
    hide StreamOf, GuiOf, Closed, AfterGrabs, R4Good;
    R4OkIff(Now(board, log), board.info.caps);
    assert IsToken("R4");
    SubBlocks();
    LogLine(board, log, EV, "R4", "block start");
    if "stream" !in board.info.caps {
      verdict := LogUnavailable(board, log, "R4", "stream");
      return verdict, [];
    }
    ghost var s := Now(board, log);
    ghost var stored := fail.items;
    NoGrabs(stored, tag);
    var okAll := true;
    rates := [];
    for i := 0 to |RATES|
      invariant log.Valid()
      invariant var r := RatesUpTo(s, i);
                && r.end == Ended(okAll) && Now(board, log) == r.state && rates == r.rates
                && fail.items == AfterGrabs(stored, tag, r.came)
    {
      ghost var r := RatesUpTo(s, i);
      ghost var p := RateOf(r.state, RATES[i]);
      var end, grabs := RunStream(board, log, SubBlock(RATES[i]), "stream on " + RATES[i], GRABS_PER_RATE, true, tag,
          fail);
      AfterGrabsConcat(stored, tag, r.came, p.grabs + p.lost);
      if end.Cut? {
        CutStays(s, i + 1);
        verdict := CloseBlock(board, log, "R4", end);
        return;
      }
      rates := rates + [Rate(SubBlock(RATES[i]), grabs)];
      okAll := okAll && end.ok;
    }
    if "buf" in board.info.caps && "dac" in board.info.caps {
      ghost var r := RatesUpTo(s, |RATES|);
      ghost var p := GuiOf(r.state, "R4.gui");
      var end, grabs := RunGui(board, log, "R4.gui", tag, fail);
      AfterGrabsConcat(stored, tag, r.came, p.grabs + p.lost);
      if end.Cut? {
        verdict := CloseBlock(board, log, "R4", end);
        return;
      }
      rates := rates + [Rate("R4.gui", grabs)];
      okAll := okAll && end.ok;
    } else {
      LogLine(board, log, EV, "R4", "not_available buf/dac");
    }
    verdict := CloseBlock(board, log, "R4", Ended(okAll));
  }

  lemma {:induction false} AfterGrabsConcat(stored: Stored, tag: string, a: seq<GrabRecord>, b: seq<GrabRecord>)
    ensures AfterGrabs(AfterGrabs(stored, tag, a), tag, b) == AfterGrabs(stored, tag, a + b)
  {
    hide FrameName, Bad;
    if b == [] {
      assert a + b == a;
    } else {
      assert (a + b)[..|a + b| - 1] == a + b[..|b| - 1];
      AfterGrabsConcat(stored, tag, a, b[..|b| - 1]);
    }
  }

  /** No rate follows one that is cut short. */
  lemma {:induction false} CutStays(s: State, i: nat)
    requires i <= |RATES| && RatesUpTo(s, i).end.Cut?
    ensures RatesUpTo(s, |RATES|) == RatesUpTo(s, i)
    decreases |RATES| - i
  {
    hide RateOf, Joined;
    if i < |RATES| { CutStays(s, i + 1); }
  }

  lemma SubBlocks()
    ensures forall k :: 0 <= k < |RATES| ==> IsToken(SubBlock(RATES[k])) && InFamily(SubBlock(RATES[k]), "R4")
    ensures IsToken("R4.gui") && InFamily("R4.gui", "R4")
    ensures forall k :: 0 <= k < |RATES| ==> SubBlock(RATES[k]) != "R4.gui" && SubBlock(RATES[k]) != "R4"
    ensures forall j, k :: 0 <= j < k < |RATES| ==> SubBlock(RATES[j]) != SubBlock(RATES[k])
  {
    assert SubBlock("1000")[3] == '1' && SubBlock("4000")[3] == '4' && SubBlock("8000")[3] == '8' && "R4.gui"[3] == 'g';
  }

  // ------------------------------------------------------------------------
  // What R4 counts
  // ------------------------------------------------------------------------

  /** A sub-block's counters in the log: those of its grabs and of the replies that look like grab lines. */
  ghost predicate Conserved(start: seq<Line>, now: seq<Line>, rate: Rate, replies: seq<string>) {
    LogCount(now, rate.sub) == Plus(LogCount(start, rate.sub), Plus(SumOf(rate.grabs), TextsCount(replies)))
  }

  /** No block ends, every completed sub-block is conserved, and nothing is
      counted but in the sub-blocks begun and in R4 itself. */
  ghost predicate RatesDone(start: State, r: Rates, begun: set<string>) {
    && LogEnds(r.state.said) == LogEnds(start.said)
    && |r.rates| == |r.replies|
    && (forall k :: 0 <= k < |r.rates| ==>
          r.rates[k].sub in begun && Conserved(start.said, r.state.said, r.rates[k], r.replies[k]))
    && (forall c :: c !in begun && c != "R4" ==> LogCount(r.state.said, c) == LogCount(start.said, c))
  }

  lemma JoinedDone(start: State, r: Rates, begun: set<string>, sub: string, p: Part)
    requires RatesDone(start, r, begun) && sub !in begun && sub != "R4" && Fits(r.state, p, sub)
    ensures RatesDone(start, Joined(r, sub, p), begun + {sub})
  {
    hide LogCount, LogEnds, Plus, TextsCount, SumOf;
    var q := Joined(r, sub, p);
    assert LogCount(p.state.said, sub) == Plus(LogCount(start.said, sub), PartCount(p));
    assert p.end.Ended? ==> p.grabs + p.lost == p.grabs;
    forall k | 0 <= k < |q.rates|
      ensures q.rates[k].sub in begun + {sub} && Conserved(start.said, q.state.said, q.rates[k], q.replies[k])
    {
      if k < |r.rates| {
        assert q.rates[k] == r.rates[k] && q.replies[k] == r.replies[k];
        assert Conserved(start.said, r.state.said, r.rates[k], r.replies[k]);
      }
    }
  }

  function Begin(i: nat): set<string>
    requires i <= |RATES|
  {
    set k | 0 <= k < i :: SubBlock(RATES[k])
  }

  lemma {:induction false} RatesCounted(start: State, s: State, i: nat)
    requires i <= |RATES| && Effect(start.said, s.said, [], "R4", ZERO)
    ensures RatesDone(start, RatesUpTo(s, i), Begin(i))
  {
    if i == 0 {
      NoCount(start.said, s.said, [], "R4");
    } else {
      RatesCounted(start, s, i - 1);
      SubBlocks();
      var r, sub := RatesUpTo(s, i - 1), SubBlock(RATES[i - 1]);
      hide RatesDone, Effect, StreamOf, Joined, Fits;
      assert Begin(i) == Begin(i - 1) + {sub};
      assert sub !in Begin(i - 1);
      if r.end.Cut? {
        DoneMore(start, r, Begin(i - 1), sub);
      } else {
        NoEffect(r.state.said, sub);
        StreamFits(r.state, r.state, sub, "stream on " + RATES[i - 1], GRABS_PER_RATE, true);
        JoinedDone(start, r, Begin(i - 1), sub, RateOf(r.state, RATES[i - 1]));
      }
    }
  }

  lemma DoneMore(start: State, r: Rates, begun: set<string>, sub: string)
    requires RatesDone(start, r, begun)
    ensures RatesDone(start, r, begun + {sub})
  {
    hide LogCount, LogEnds, Conserved;
  }

  /** What is logged under R4 itself leaves the sub-blocks' counters alone. */
  lemma DoneLogged(start: State, r: Rates, s: State, begun: set<string>)
    requires RatesDone(start, r, begun) && Within(r.state.said, s.said, [], "R4") && "R4" !in begun
    ensures RatesDone(start, r.(state := s), begun)
  {
    hide LogCount, LogEnds, Plus, TextsCount, SumOf;
    forall k | 0 <= k < |r.rates| ensures Conserved(start.said, s.said, r.rates[k], r.replies[k]) {
      assert Conserved(start.said, r.state.said, r.rates[k], r.replies[k]);
    }
  }

  const R4_BLOCKS: set<string> := Begin(|RATES|) + {"R4.gui"}

  lemma QuietIsWithin(a: State, b: State, block: string)
    requires Quiet(a, b, block)
    ensures Within(a.said, b.said, [], block)
  {
  }

  lemma R4RatesDone(s: State, caps: set<string>)
    ensures RatesDone(s, R4Rates(s, caps), R4_BLOCKS)
    ensures "R4" !in R4_BLOCKS && forall c :: c in R4_BLOCKS ==> InFamily(c, "R4")
  {
    hide RatesDone, RatesUpTo, GuiOf, Joined, Fits, Quiet, Within, Effect, TextEnd;
    SubBlocks();
    var start := Started(s, "R4");
    StartedQuiet(s, "R4");
    RatesCounted(s, start, |RATES|);
    var r := RatesUpTo(start, |RATES|);
    if r.end.Cut? {
      DoneMore(s, r, Begin(|RATES|), "R4.gui");
    } else if "buf" in caps && "dac" in caps {
      GuiFits(r.state, "R4.gui");
      JoinedDone(s, r, Begin(|RATES|), "R4.gui", GuiOf(r.state, "R4.gui"));
    } else {
      QuietText("R4", "not_available buf/dac");
      LoggedQuiet(r.state, EV, "R4", "not_available buf/dac");
      QuietIsWithin(r.state, Logged(r.state, EV, "R4", "not_available buf/dac"), "R4");
      DoneMore(s, r, Begin(|RATES|), "R4.gui");
      DoneLogged(s, r, Logged(r.state, EV, "R4", "not_available buf/dac"), R4_BLOCKS);
    }
  }

  /** R4 has one end; every sub-block it completed is conserved, also if a later
      one timed out or stopped the session. */
  lemma R4Proper(s: State, caps: set<string>)
    ensures var b, r := R4Of(s, caps), R4Rates(s, caps);
            && (b.verdict.Some? ==> FamilyEffect(s.said, b.state.said, [("R4", b.verdict.value)], "R4"))
            && ("stream" in caps ==> b.verdict == VerdictOf(r.end))
            && ("stream" in caps ==>
                  && |r.rates| == |r.replies|
                  && forall k :: 0 <= k < |r.rates| ==>
                       InFamily(r.rates[k].sub, "R4") && Conserved(s.said, b.state.said, r.rates[k], r.replies[k]))
  {
    hide Quiet, Within, NotAvailable, R4Rates, RatesDone, Closed, Conserved, FamilyEffect;
    StartedQuiet(s, "R4");
    if "stream" !in caps {
      NotAvailableProper(s, Started(s, "R4"), "R4", "stream");
      UnavailableVerdict(Started(s, "R4"), "R4", "stream");
      var b := NotAvailable(Started(s, "R4"), "R4", "stream");
      WithinFamily(s.said, b.state.said, [("R4", b.verdict.value)], "R4");
    } else {
      var r := R4Rates(s, caps);
      R4RatesDone(s, caps);
      RatesClose(s, r, R4_BLOCKS);
    }
  }

  lemma RatesClose(start: State, r: Rates, begun: set<string>)
    requires RatesDone(start, r, begun) && "R4" !in begun && forall c :: c in begun ==> InFamily(c, "R4")
    ensures var b := BlockEnd(r.state, "R4", r.end);
            && (b.verdict.Some? ==> FamilyEffect(start.said, b.state.said, [("R4", b.verdict.value)], "R4"))
            && |r.rates| == |r.replies|
            && forall k :: 0 <= k < |r.rates| ==>
                 InFamily(r.rates[k].sub, "R4") && Conserved(start.said, b.state.said, r.rates[k], r.replies[k])
  {
    hide LogCount, LogEnds, Closed, Conserved;
    var closed, v := Closed(r.state, "R4", r.end), VerdictOf(r.end);
    QuietSelf(r.state, "R4");
    ClosedOnce(r.state, r.state, "R4", r.end);
    ClosedWithin(r.state, r.end);
    DoneClosed(start, r, closed, begun);
    if v.Some? {
      forall c | !InFamily(c, "R4") ensures LogCount(closed.said, c) == LogCount(start.said, c) {
        assert c !in begun && c != "R4";
      }
    }
  }

  /** Whether R4 ends or the session stops, its last lines count under R4 only. */
  lemma ClosedWithin(s: State, e: Ending)
    ensures forall c :: c != "R4" ==> LogCount(Closed(s, "R4", e).said, c) == LogCount(s.said, c)
  {
    hide LogCount, LogEnds, Reset;
    QuietSelf(s, "R4");
    ClosedOnce(s, s, "R4", e);
  }

  lemma DoneClosed(start: State, r: Rates, s: State, begun: set<string>)
    requires RatesDone(start, r, begun) && "R4" !in begun
    requires forall c :: c != "R4" ==> LogCount(s.said, c) == LogCount(r.state.said, c)
    ensures forall k :: 0 <= k < |r.rates| ==> Conserved(start.said, s.said, r.rates[k], r.replies[k])
  {
    hide LogCount, LogEnds, Plus, TextsCount, SumOf;
    forall k | 0 <= k < |r.rates| ensures Conserved(start.said, s.said, r.rates[k], r.replies[k]) {
      assert Conserved(start.said, r.state.said, r.rates[k], r.replies[k]);
    }
  }

  // ------------------------------------------------------------------------
  // When R4 is ok
  // ------------------------------------------------------------------------

  predicate AllAccepted(answers: seq<Answer>, n: nat) { forall i :: 0 <= i < n ==> Accepted(NthAnswer(answers, i)) }

  /** Six commands accepted, 150 grabs good, and the GUI's sub-block good if the board has its commands. */
  predicate R4Good(caps: set<string>, a: seq<Answer>, g: seq<GrabAnswer>) {
    && "stream" in caps && AllAccepted(a, 2 * |RATES|) && GoodGrabs(g, |RATES| * GRABS_PER_RATE, true)
    && ("buf" in caps && "dac" in caps ==>
          GuiGood(Dropped(a, 2 * |RATES|), Dropped(g, |RATES| * GRABS_PER_RATE)))
  }

  lemma GoodGrabsSplit(g: seq<GrabAnswer>, m: nat, n: nat, check: bool)
    ensures GoodGrabs(g, m + n, check) <==> GoodGrabs(g, m, check) && GoodGrabs(Dropped(g, m), n, check)
  {
    hide Bad, RecordOf;
    if GoodGrabs(g, m, check) && GoodGrabs(Dropped(g, m), n, check) {
      forall i | m <= i < m + n ensures g[i].Grabbed? && !Bad(RecordOf(g[i], check)) {
        assert Dropped(g, m)[i - m] == g[i];
      }
    }
    if GoodGrabs(g, m + n, check) {
      forall i | 0 <= i < n ensures Dropped(g, m)[i].Grabbed? && !Bad(RecordOf(Dropped(g, m)[i], check)) {
        assert Dropped(g, m)[i] == g[m + i];
      }
    }
  }

  lemma NthDropped(a: seq<Answer>, m: nat, n: nat)
    ensures NthAnswer(Dropped(a, m), n) == NthAnswer(a, m + n) && Dropped(Dropped(a, m), n) == Dropped(a, m + n)
  {
  }

  lemma DroppedTwice(g: seq<GrabAnswer>, m: nat, n: nat)
    ensures Dropped(Dropped(g, m), n) == Dropped(g, m + n)
  {
  }

  /** What is left after i good rates. */
  ghost predicate RatesWell(r: Rates, a: seq<Answer>, g: seq<GrabAnswer>, i: nat) {
    && (r.end == Ended(true) <==> AllAccepted(a, 2 * i) && GoodGrabs(g, i * GRABS_PER_RATE, true))
    && (r.end == Ended(true) ==>
          r.state.script.answers == Dropped(a, 2 * i) && r.state.script.grabs == Dropped(g, i * GRABS_PER_RATE))
  }

  lemma {:induction false} RatesOkIff(s: State, i: nat)
    requires i <= |RATES|
    ensures RatesWell(RatesUpTo(s, i), s.script.answers, s.script.grabs, i)
  {
    hide RatesWell, Rated;
    if i == 0 {
      NoRates(s);
    } else {
      RatesOkIff(s, i - 1);
      RatedWell(RatesUpTo(s, i - 1), RATES[i - 1], s.script.answers, s.script.grabs, i - 1);
    }
  }

  lemma NoRates(s: State)
    ensures RatesWell(RatesUpTo(s, 0), s.script.answers, s.script.grabs, 0)
  {
    NoneNeeded(s.script.answers, s.script.grabs);
    hide AllAccepted, GoodGrabs;
  }

  lemma RatedWell(r: Rates, rate: string, a: seq<Answer>, g: seq<GrabAnswer>, i: nat)
    requires RatesWell(r, a, g, i)
    ensures RatesWell(Rated(r, rate), a, g, i + 1)
  {
    hide StreamOf, GoodGrabs, AllAccepted, Dropped;
    var k, m := 2 * i, i * GRABS_PER_RATE;
    if r.end == Ended(true) {
      StreamEnds(r.state, SubBlock(rate), "stream on " + rate, GRABS_PER_RATE, true);
      NthDropped(a, k, 0);
      NthDropped(a, k, 1);
      NthDropped(a, k, 2);
      DroppedTwice(g, m, GRABS_PER_RATE);
    }
    GoodGrabsSplit(g, m, GRABS_PER_RATE, true);
    AcceptedNext(a, k);
  }

  lemma NoneNeeded(a: seq<Answer>, g: seq<GrabAnswer>)
    ensures AllAccepted(a, 0) && GoodGrabs(g, 0, true)
  {
  }

  lemma AcceptedNext(a: seq<Answer>, k: nat)
    ensures AllAccepted(a, k + 2) <==>
            AllAccepted(a, k) && Accepted(NthAnswer(a, k)) && Accepted(NthAnswer(a, k + 1))
  {
    hide Accepted;
  }

  /** R4 is ok exactly if its 6 (or 14) commands are accepted, its 150 (or 160)
      grabs are good, and the GUI's buffer size was in effect. */
  lemma R4OkIff(s: State, caps: set<string>)
    ensures R4Of(s, caps).verdict == Some("ok") <==> R4Good(caps, s.script.answers, s.script.grabs)
  {
    hide RatesUpTo, GuiOf, GoodGrabs, GuiGood, AllAccepted, Started, Closed, NotAvailable;
    var start := Started(s, "R4");
    StartedQuiet(s, "R4");
    assert "ok"[0] != "fail"[0] && "ok"[0] != "timeout"[0] && "ok"[0] != "not_available"[0];
    UnavailableVerdict(start, "R4", "stream");
    RatesOkIff(start, |RATES|);
    var r := RatesUpTo(start, |RATES|);
    if r.end.Ended? { GuiOkIff(r.state, "R4.gui"); }
  }

  // ------------------------------------------------------------------------
  // Which grabs and replies of the board a sub-block counts
  // ------------------------------------------------------------------------

  /** The lines of the next n answers. */
  function AnswerLines(answers: seq<Answer>, n: nat): seq<string> {
    if n == 0 then [] else AnswerLines(answers, n - 1) + LinesOf(NthAnswer(answers, n - 1))
  }

  lemma TwoAnswers(answers: seq<Answer>)
    ensures AnswerLines(answers, 2) == LinesOf(NthAnswer(answers, 0)) + LinesOf(NthAnswer(answers, 1))
  {
    assert AnswerLines(answers, 1) == LinesOf(NthAnswer(answers, 0));
  }

  /** A part that is not cut short has heard the next n answers. */
  ghost predicate Heard(p: Part, answers: seq<Answer>, n: nat) {
    p.end.Ended? ==> p.state.script.answers == Dropped(answers, n) && p.replies == AnswerLines(answers, n)
  }

  lemma ToldHeard(p: Part, sub: string, command: string, judged: bool, a: seq<Answer>, n: nat)
    requires Heard(p, a, n)
    ensures var q := Told(p, sub, command, judged);
            && Heard(q, a, n + 1) && q.grabs == p.grabs && (p.end.Cut? ==> q.end.Cut?)
            && (q.end.Ended? ==> q.state.script.grabs == p.state.script.grabs)
  {
    hide Sent, Effect;
    NextAnswer(a, n);
    SentEffect(p.state, sub, command);
  }

  lemma GrabbingHeard(p: Part, sub: string, n: nat, check: bool, a: seq<Answer>, m: nat)
    requires Heard(p, a, m) && p.grabs == []
    ensures var q := Grabbing(p, sub, n, check);
            && Heard(q, a, m) && (p.end.Cut? ==> q.end.Cut?)
            && (q.end.Ended? ==> Taken(p.state.script.grabs, n) == n && q.grabs == Came(p.state.script.grabs, n, check))
  {
    hide Looped, Effect, GrabsOf, Came, LeftGrabs, GoodGrabs, Taken, AnswerLines, Dropped, SumOf, Bad;
    LoopEffect(p.state, sub, n, check);
    GoodGrabsIff(p.state.script.grabs, n, check);
    var r := GrabsOf(p.state.script.grabs, n, check);
    if r.Done? { assert p.grabs + r.grabs == r.grabs; }
  }

  /** How many answers the GUI's commands use. */
  function GuiAsked(a: seq<Answer>): nat {
    (if Accepted(NthAnswer(a, 2)) then 7 else 5) + if BufHalf(LinesOf(NthAnswer(a, 0))).Some? then 1 else 0
  }

  lemma GuiStartHeard(s: State, sub: string)
    ensures var p := GuiStart(s, sub);
            Heard(p, s.script.answers, 3) && p.grabs == []
            && (p.end.Ended? ==> p.state.script.grabs == s.script.grabs)
  {
    hide Told;
    var a := s.script.answers;
    assert Dropped(a, 0) == a;
    var p1 := Told(Begun(s), sub, "buf", true);
    ToldHeard(Begun(s), sub, "buf", true, a, 0);
    var p2 := Told(p1, sub, "buf " + Decimal(GUI_BUF), true);
    ToldHeard(p1, sub, "buf " + Decimal(GUI_BUF), true, a, 1);
    ToldHeard(p2, sub, "stream on 4000", true, a, 2);
  }

  lemma GuiStopHeard(p: Part, sub: string, orig: Option<nat>, a: seq<Answer>, n: nat)
    requires Heard(p, a, n)
    ensures var q := GuiStop(p, sub, orig);
            Heard(q, a, n + if orig.Some? then 3 else 2) && q.grabs == p.grabs && (p.end.Cut? ==> q.end.Cut?)
  {
    hide Told;
    var dac := Told(p, sub, "dac 2 off", true);
    ToldHeard(p, sub, "dac 2 off", true, a, n);
    var off := Told(dac, sub, "stream off", true);
    ToldHeard(dac, sub, "stream off", true, a, n + 1);
    if orig.Some? { ToldHeard(off, sub, "buf " + Decimal(orig.value), true, a, n + 2); }
  }

  /** A completed GUI sub-block counts the board's next ten grabs, if the stream
      was accepted, and the replies to all its commands. */
  lemma GuiFromBoard(s: State, sub: string)
    requires GuiOf(s, sub).end.Ended?
    ensures var p, a, g := GuiOf(s, sub), s.script.answers, s.script.grabs;
            && p.replies == AnswerLines(a, GuiAsked(a))
            && (Accepted(NthAnswer(a, 2)) ==> Taken(g, GUI_GRABS) == GUI_GRABS)
            && p.grabs == if Accepted(NthAnswer(a, 2)) then Came(g, GUI_GRABS, false) else []
  {
    hide Told, Grabbing, BufHalf, InEffect, Came, AnswerLines, GuiStart, GuiStop;
    var a, start := s.script.answers, GuiStart(s, sub);
    var orig := BufHalf(LinesOf(NthAnswer(a, 0)));
    GuiStartHeard(s, sub);
    if Accepted(NthAnswer(a, 2)) {
      var dac := Told(start, sub, "dac 2 on 256 3000 39", true);
      ToldHeard(start, sub, "dac 2 on 256 3000 39", true, a, 3);
      var got := Grabbing(dac, sub, GUI_GRABS, false);
      GrabbingHeard(dac, sub, GUI_GRABS, false, a, 4);
      ToldHeard(got, sub, "buf", false, a, 4);
      GuiStopHeard(GuiStream(start, sub), sub, orig, a, 5);
    } else {
      GuiStopHeard(start, sub, orig, a, 3);
    }
  }

  /** The grabs used by the first i rates: those of the streams that were accepted. */
  function Offset(a: seq<Answer>, i: nat): nat {
    if i == 0 then 0 else Offset(a, i - 1) + if Accepted(NthAnswer(a, 2 * (i - 1))) then GRABS_PER_RATE else 0
  }

  ghost predicate Left(r: Rates, a: seq<Answer>, g: seq<GrabAnswer>, i: nat) {
    && |r.rates| <= i
    && (r.end.Ended? ==>
          && |r.rates| == i && r.state.script.answers == Dropped(a, 2 * i)
          && r.state.script.grabs == Dropped(g, Offset(a, i)))
  }

  lemma {:induction false} RatesLeft(s: State, i: nat)
    requires i <= |RATES|
    ensures Left(RatesUpTo(s, i), s.script.answers, s.script.grabs, i)
  {
    if i > 0 {
      hide Left, Rated;
      RatesLeft(s, i - 1);
      RatedLeft(RatesUpTo(s, i - 1), RATES[i - 1], s.script.answers, s.script.grabs, i - 1);
    }
  }

  lemma RatedLeft(r: Rates, rate: string, a: seq<Answer>, g: seq<GrabAnswer>, i: nat)
    requires Left(r, a, g, i)
    ensures Left(Rated(r, rate), a, g, i + 1)
  {
    hide StreamOf, Taken, Records, Dropped;
    StreamEnds(r.state, SubBlock(rate), "stream on " + rate, GRABS_PER_RATE, true);
    NthDropped(a, 2 * i, 0);
    NthDropped(a, 2 * i, 2);
    DroppedTwice(g, Offset(a, i), GRABS_PER_RATE);
  }

  /** A completed rate, whatever comes after it, was its turn's stream. */
  lemma {:induction false} RateWas(s: State, i: nat, k: nat)
    requires i <= |RATES| && k < |RatesUpTo(s, i).rates|
    ensures k < i && RatesUpTo(s, k).end.Ended? && |RatesUpTo(s, i).replies| == |RatesUpTo(s, i).rates|
    ensures var r, p := RatesUpTo(s, i), RateOf(RatesUpTo(s, k).state, RATES[k]);
            && p.end.Ended? && r.rates[k] == Rate(SubBlock(RATES[k]), p.grabs) && r.replies[k] == p.replies
  {
    hide RateOf, Offset, Dropped, SubBlock;
    RatesLengths(s, i);
    if i > 0 {
      RatesLeft(s, i - 1);
      RatesLengths(s, i - 1);
      if k < |RatesUpTo(s, i - 1).rates| { RateWas(s, i - 1, k); }
    }
  }

  lemma {:induction false} RatesLengths(s: State, i: nat)
    requires i <= |RATES|
    ensures |RatesUpTo(s, i).replies| == |RatesUpTo(s, i).rates|
  {
    hide RateOf;
    if i > 0 { RatesLengths(s, i - 1); }
  }

  /** A sub-block's grabs and replies, from what the board still had to say when R4 began. */
  ghost predicate FromBoard(k: nat, rate: Rate, replies: seq<string>, a: seq<Answer>, g: seq<GrabAnswer>) {
    var later := Dropped(g, Offset(a, k));
    if k < |RATES| then
      var on := NthAnswer(a, 2 * k);
      && rate.sub == SubBlock(RATES[k]) && replies == AnswerLines(Dropped(a, 2 * k), 2)
      && (Accepted(on) ==> Taken(later, GRABS_PER_RATE) == GRABS_PER_RATE)
      && rate.grabs == if Accepted(on) then Came(later, GRABS_PER_RATE, true) else []
    else
      var ours := Dropped(a, 2 * |RATES|);
      && rate.sub == "R4.gui" && replies == AnswerLines(ours, GuiAsked(ours))
      && (Accepted(NthAnswer(ours, 2)) ==> Taken(later, GUI_GRABS) == GUI_GRABS)
      && rate.grabs == if Accepted(NthAnswer(ours, 2)) then Came(later, GUI_GRABS, false) else []
  }

  lemma RateFromBoard(s: State, k: nat)
    requires k < |RATES| && RatesUpTo(s, k).end.Ended? && RateOf(RatesUpTo(s, k).state, RATES[k]).end.Ended?
    ensures var p := RateOf(RatesUpTo(s, k).state, RATES[k]);
            FromBoard(k, Rate(SubBlock(RATES[k]), p.grabs), p.replies, s.script.answers, s.script.grabs)
  {
    hide StreamOf, RatesUpTo, AnswerLines;
    var a, before := s.script.answers, RatesUpTo(s, k).state;
    RatesLeft(s, k);
    StreamEnds(before, SubBlock(RATES[k]), "stream on " + RATES[k], GRABS_PER_RATE, true);
    NthDropped(a, 2 * k, 0);
    TwoAnswers(Dropped(a, 2 * k));
  }

  /** Every completed sub-block of R4, with the grabs and the replies the board gave in it. */
  lemma RatesFromBoard(s: State, caps: set<string>, k: nat)
    requires k < |R4Rates(s, caps).rates|
    ensures var r := R4Rates(s, caps);
            |r.replies| == |r.rates| && FromBoard(k, r.rates[k], r.replies[k], s.script.answers, s.script.grabs)
  {
    hide RatesUpTo, GuiOf, RateOf, FromBoard, Started;
    StartedQuiet(s, "R4");
    var start := Started(s, "R4");
    RatesLengths(start, |RATES|);
    RatesLeft(start, |RATES|);
    if k < |RatesUpTo(start, |RATES|).rates| {
      RateWas(start, |RATES|, k);
      RateFromBoard(start, k);
    } else {
      GuiRateFromBoard(start, k);
    }
  }

  lemma GuiRateFromBoard(start: State, k: nat)
    requires var r := RatesUpTo(start, |RATES|); r.end.Ended? && GuiOf(r.state, "R4.gui").end.Ended?
    requires k == |RATES|
    ensures var p := GuiOf(RatesUpTo(start, |RATES|).state, "R4.gui");
            FromBoard(k, Rate("R4.gui", p.grabs), p.replies, start.script.answers, start.script.grabs)
  {
    hide RatesUpTo, GuiOf, AnswerLines;
    RatesLeft(start, |RATES|);
    GuiFromBoard(RatesUpTo(start, |RATES|).state, "R4.gui");
  }
}
