/** A session seen from its board: which grabs and replies of the script are
    counted, boards with which every session completes, and a board whose log
    is miscounted. */
module SessionBoard {
  import opened Common
  import opened Text
  import opened GrabFrame
  import opened RunLog
  import opened BoardRun
  import opened Session
  import opened StreamBlocks
  import opened RateBlocks
  import opened FullSession

  // ------------------------------------------------------------------------
  // Which grabs and replies are counted
  // ------------------------------------------------------------------------

  /** The answers used before R4. */
  function Before(info: Info, host: Host): nat {
    3 + (if "regs" in info.caps then 1 else 0) + (if "chain" in info.caps then 1 else 0)
    + if "R3" !in host.skip && "test" in info.caps then 1 else 0
  }

  lemma DroppedAgain<T>(s: seq<T>, m: nat, n: nat)
    ensures Dropped(Dropped(s, m), n) == Dropped(s, m + n)
  {
  }

  /** What the board has left when R4 begins. */
  lemma LeftForR4(s: State, info: Info, host: Host)
    requires !Through(s, 4, info, host).stopped
    ensures var t := Through(s, 4, info, host).state.script;
            t.answers == Dropped(s.script.answers, Before(info, host)) && t.grabs == s.script.grabs
  {
    hide BlockOf, Opened, Within, Dropped, R0Of, R2Of, SimpleOf, R0Verdict, CommandVerdict;
    var a := s.script.answers;
    OpenedEffect(s, host);
    var s0 := Through(s, 0, info, host).state;
    var s1, s2, s3 := Through(s, 1, info, host).state, Through(s, 2, info, host).state, Through(s, 3, info, host).state;
    NotYet(s, 4, info, host);
    R0Proper(s0, info);
    SimpleProper(s1, "R1", "regs", "regs", info.caps, {});
    R2Proper(s2, info.caps);
    SimpleProper(s3, "R3", "test", "test all", info.caps, host.skip);
    FourBlocks(s0, s1, s2, s3, info, host);
    var n1 := if "regs" in info.caps then 1 else 0;
    var n2 := if "chain" in info.caps then 1 else 0;
    DroppedAgain(a, 3, n1);
    DroppedAgain(a, 3 + n1, n2);
    DroppedAgain(a, 3 + n1 + n2, if "R3" !in host.skip && "test" in info.caps then 1 else 0);
  }

  lemma FourBlocks(s0: State, s1: State, s2: State, s3: State, info: Info, host: Host)
    ensures BlockOf(s0, 0, info, host) == R0Of(s0, info)
    ensures BlockOf(s1, 1, info, host) == SimpleOf(s1, "R1", "regs", "regs", info.caps, {})
    ensures BlockOf(s2, 2, info, host) == R2Of(s2, info.caps)
    ensures BlockOf(s3, 3, info, host) == SimpleOf(s3, "R3", "test", "test all", info.caps, host.skip)
  {
  }

  /** A session that is not stopped has not been before. */
  lemma {:induction false} NotYet(s: State, n: nat, info: Info, host: Host)
    requires n <= |BLOCKS| && !Through(s, n, info, host).stopped
    ensures forall i :: 0 <= i < n ==>
              && !Through(s, i, info, host).stopped
              && BlockOf(Through(s, i, info, host).state, i, info, host).verdict.Some?
    ensures forall i :: 0 <= i < n ==>
              Through(s, i + 1, info, host).state == BlockOf(Through(s, i, info, host).state, i, info, host).state
  {
    hide BlockOf, Opened;
    if n > 0 { NotYet(s, n - 1, info, host); }
  }

  /** A completed sub-block of R4 sums the board's own grabs: of each accepted
      stream its 50 grabs, in the order of the script, and for the GUI ten; its
      replies are the lines of the board's answers to its commands. */
  lemma RatesAreTheBoards(s: State, info: Info, host: Host, k: nat)
    requires OutcomeOf(s, info, host).Completed? && k < |OutcomeOf(s, info, host).rates|
    ensures var o, r := OutcomeOf(s, info, host), RatesOf(s, info, host);
            && r.Some? && |r.value.replies| == |o.rates|
            && FromBoard(k, o.rates[k], r.value.replies[k], Dropped(s.script.answers, Before(info, host)),
                         s.script.grabs)
  {
    hide Through, R4Rates, R5PartOf, FromBoard, Before, Dropped;
    StopsNever(s, 4, info, host);
    LeftForR4(s, info, host);
    RatesFromBoard(Through(s, 4, info, host).state, info.caps, k);
  }

  // ------------------------------------------------------------------------
  // Sessions that complete
  // ------------------------------------------------------------------------

  /** The next n answers are all of one kind, and none of the next m grabs is broken. */
  ghost predicate Says(t: Script, n: nat, m: nat, kind: Answer -> bool) {
    && n <= |t.answers| && m <= |t.grabs| && (forall i :: 0 <= i < n ==> kind(t.answers[i]))
    && forall j :: 0 <= j < m ==> !t.grabs[j].BrokenGrab?
  }

  predicate Working(a: Answer) { !a.Broken? }

  ghost predicate NotBroken(kind: Answer -> bool) { forall a :: kind(a) ==> !a.Broken? }

  lemma SaysLess(t: Script, n: nat, m: nat, u: nat, v: nat, kind: Answer -> bool)
    requires Says(t, n, m, kind) && u <= n && v <= m
    ensures Says(t, u, v, kind)
  {
  }

  lemma SaysLater(t: Script, u: Script, k: nat, n: nat, m: nat, kind: Answer -> bool)
    requires Says(t, n + k, m, kind) && u.answers == Dropped(t.answers, k) && u.grabs == t.grabs
    ensures Says(u, n, m, kind)
  {
  }

  lemma ToldSays(p: Part, sub: string, command: string, judged: bool, n: nat, m: nat, kind: Answer -> bool)
    requires NotBroken(kind) && p.end != Cut(Broken) && Says(p.state.script, n + 1, m, kind)
    ensures var q := Told(p, sub, command, judged); q.end != Cut(Broken) && Says(q.state.script, n, m, kind)
  {
    hide Sent, Effect;
    SentEffect(p.state, sub, command);
    assert LaterAnswers(p.state.script.answers) == Dropped(p.state.script.answers, 1);
    SaysLess(p.state.script, n + 1, m, n, m, kind);
    if p.end.Ended? { SaysLater(p.state.script, Told(p, sub, command, judged).state.script, 1, n, m, kind); }
  }

  lemma GrabsSay(t: Script, k: nat, check: bool, n: nat, m: nat, kind: Answer -> bool)
    requires Says(t, n, m + k, kind)
    ensures Says(t.(grabs := LeftGrabs(t.grabs, k)), n, m, kind)
    ensures GrabsOf(t.grabs, k, check) != Lost(Broken)
  {
    hide RecordOf, AllGood;
    var g, taken := t.grabs, Taken(t.grabs, k);
    if taken < k {
      assert FirstGrab(g[taken..]) == g[taken];
      assert LeftGrabs(g, k) == g[taken + 1..];
    }
  }

  lemma GrabbingSays(p: Part, sub: string, k: nat, check: bool, n: nat, m: nat, kind: Answer -> bool)
    requires p.end != Cut(Broken) && Says(p.state.script, n, m + k, kind)
    ensures var q := Grabbing(p, sub, k, check); q.end != Cut(Broken) && Says(q.state.script, n, m, kind)
  {
    hide Looped, Effect, Came, LeftGrabs, SumOf, Says;
    LoopEffect(p.state, sub, k, check);
    GrabsSay(p.state.script, k, check, n, m, kind);
    SaysLess(p.state.script, n, m + k, n, m, kind);
    hide GrabsOf;
  }

  lemma StreamSays(s: State, sub: string, command: string, k: nat, check: bool, n: nat, m: nat, kind: Answer -> bool)
    requires NotBroken(kind) && Says(s.script, n + 2, m + k, kind)
    ensures var p := StreamOf(s, sub, command, k, check); p.end != Cut(Broken) && Says(p.state.script, n, m, kind)
  {
    hide Told, Grabbing, Says, NotBroken;
    var on := Told(Begun(s), sub, command, true);
    ToldSays(Begun(s), sub, command, true, n + 1, m + k, kind);
    if on.end == Ended(true) {
      GrabbingSays(on, sub, k, check, n + 1, m, kind);
      ToldSays(Grabbing(on, sub, k, check), sub, "stream off", true, n, m, kind);
    } else {
      SaysLess(on.state.script, n + 1, m + k, n + 1, m, kind);
      ToldSays(on, sub, "stream off", true, n, m, kind);
    }
  }

  lemma GuiSays(s: State, sub: string, n: nat, m: nat, kind: Answer -> bool)
    requires NotBroken(kind) && Says(s.script, n + 8, m + GUI_GRABS, kind)
    ensures var p := GuiOf(s, sub); p.end != Cut(Broken) && Says(p.state.script, n, m, kind)
  {
    hide Told, Grabbing, Says, NotBroken, BufHalf, InEffect;
    var a := s.script.answers;
    var p1 := Told(Begun(s), sub, "buf", true);
    var p2 := Told(p1, sub, "buf " + Decimal(GUI_BUF), true);
    var p3 := Told(p2, sub, "stream on 4000", true);
    ToldSays(Begun(s), sub, "buf", true, n + 7, m + GUI_GRABS, kind);
    ToldSays(p1, sub, "buf " + Decimal(GUI_BUF), true, n + 6, m + GUI_GRABS, kind);
    ToldSays(p2, sub, "stream on 4000", true, n + 5, m + GUI_GRABS, kind);
    if Accepted(NthAnswer(a, 2)) {
      GuiStreamSays(p3, sub, n, m, kind);
    } else {
      SaysLess(p3.state.script, n + 5, m + GUI_GRABS, n + 3, m, kind);
    }
    GuiStopSays(if Accepted(NthAnswer(a, 2)) then GuiStream(p3, sub) else p3, sub, BufHalf(LinesOf(NthAnswer(a, 0))),
                n, m, kind);
  }

  lemma GuiStreamSays(p: Part, sub: string, n: nat, m: nat, kind: Answer -> bool)
    requires NotBroken(kind) && p.end != Cut(Broken) && Says(p.state.script, n + 5, m + GUI_GRABS, kind)
    ensures var q := GuiStream(p, sub); q.end != Cut(Broken) && Says(q.state.script, n + 3, m, kind)
  {
    hide Told, Grabbing, Says, NotBroken;
    var dac := Told(p, sub, "dac 2 on 256 3000 39", true);
    ToldSays(p, sub, "dac 2 on 256 3000 39", true, n + 4, m + GUI_GRABS, kind);
    GrabbingSays(dac, sub, GUI_GRABS, false, n + 4, m, kind);
    ToldSays(Grabbing(dac, sub, GUI_GRABS, false), sub, "buf", false, n + 3, m, kind);
  }

  lemma GuiStopSays(p: Part, sub: string, orig: Option<nat>, n: nat, m: nat, kind: Answer -> bool)
    requires NotBroken(kind) && p.end != Cut(Broken) && Says(p.state.script, n + 3, m, kind)
    ensures var q := GuiStop(p, sub, orig); q.end != Cut(Broken) && Says(q.state.script, n, m, kind)
  {
    hide Told, Says, NotBroken;
    var dac := Told(p, sub, "dac 2 off", true);
    ToldSays(p, sub, "dac 2 off", true, n + 2, m, kind);
    var off := Told(dac, sub, "stream off", true);
    ToldSays(dac, sub, "stream off", true, n + 1, m, kind);
    SaysLess(off.state.script, n + 1, m, n, m, kind);
    if orig.Some? { ToldSays(off, sub, "buf " + Decimal(orig.value), true, n, m, kind); }
  }

  lemma {:induction false} RatesSay(s: State, i: nat, n: nat, m: nat, kind: Answer -> bool)
    requires i <= |RATES| && NotBroken(kind) && Says(s.script, n + 2 * i, m + GRABS_PER_RATE * i, kind)
    ensures var r := RatesUpTo(s, i); r.end != Cut(Broken) && Says(r.state.script, n, m, kind)
  {
    hide StreamOf, Says, NotBroken;
    if i > 0 {
      var r, rate := RatesUpTo(s, i - 1), RATES[i - 1];
      RatesSay(s, i - 1, n + 2, m + GRABS_PER_RATE, kind);
      SaysLess(r.state.script, n + 2, m + GRABS_PER_RATE, n, m, kind);
      StreamSays(r.state, SubBlock(rate), "stream on " + rate, GRABS_PER_RATE, true, n, m, kind);
    }
  }

  /** How many answers and grabs a block needs at most. */
  function Answers(i: nat): nat { if i == 0 then 3 else if i == 4 then 14 else if i == 5 then 2 else 1 }

  function GrabsIn(i: nat): nat { if i == 4 then 160 else if i == 5 then 10 else 0 }

  lemma R4Says(s: State, caps: set<string>, n: nat, m: nat, kind: Answer -> bool)
    requires NotBroken(kind) && Says(s.script, n + 14, m + 160, kind)
    ensures R4Of(s, caps).verdict.Some? && Says(R4Of(s, caps).state.script, n, m, kind)
  {
    hide RatesUpTo, GuiOf, Says, NotBroken, Closed, NotAvailable, Quiet, Within, Started;
    StartedQuiet(s, "R4");
    var start := Started(s, "R4");
    if "stream" !in caps {
      NotAvailableProper(s, start, "R4", "stream");
      UnavailableVerdict(start, "R4", "stream");
      SaysLess(s.script, n + 14, m + 160, n, m, kind);
      SaysLater(s.script, NotAvailable(start, "R4", "stream").state.script, 0, n, m, kind);
    } else {
      var r, all := RatesUpTo(start, |RATES|), R4Rates(s, caps);
      RatesSay(start, |RATES|, n + 8, m + 10, kind);
      SaysLess(r.state.script, n + 8, m + 10, n, m, kind);
      GuiSays(r.state, "R4.gui", n, m, kind);
      QuietSelf(all.state, "R4");
      ClosedOnce(all.state, all.state, "R4", all.end);
      SaysLater(all.state.script, Closed(all.state, "R4", all.end).script, 0, n, m, kind);
    }
  }

  lemma R5Says(s: State, caps: set<string>, input: string, n: nat, m: nat, kind: Answer -> bool)
    requires NotBroken(kind) && Says(s.script, n + 2, m + 10, kind)
    ensures R5Of(s, caps, input).verdict.Some? && Says(R5Of(s, caps, input).state.script, n, m, kind)
  {
    hide StreamOf, Says, NotBroken, Closed, NotAvailable, Quiet, Within, Started;
    StartedQuiet(s, "R5");
    var start := Started(s, "R5");
    if "stream" !in caps {
      NotAvailableProper(s, start, "R5", "stream");
      UnavailableVerdict(start, "R5", "stream");
      SaysLess(s.script, n + 2, m + 10, n, m, kind);
      SaysLater(s.script, NotAvailable(start, "R5", "stream").state.script, 0, n, m, kind);
    } else {
      var p := R5Part(s, input);
      StreamSays(start, "R5", "stream on " + input, GRABS_R5, false, n, m, kind);
      QuietSelf(p.state, "R5");
      ClosedOnce(p.state, p.state, "R5", p.end);
      SaysLater(p.state.script, Closed(p.state, "R5", p.end).script, 0, n, m, kind);
    }
  }

  /** A block of one command at most. */
  lemma SimpleSays(s: State, b: Block, block: string, k: nat, good: bool, n: nat, m: nat, kind: Answer -> bool)
    requires NotBroken(kind) && Says(s.script, n + 1, m, kind) && k <= 1 && Proper(s, block, b, k)
    requires b.verdict == CommandVerdict(k == 1, FirstAnswer(s.script.answers), good)
    ensures b.verdict.Some? && Says(b.state.script, n, m, kind)
  {
    hide Within;
    assert kind(s.script.answers[0]);
    SaysLess(s.script, n + 1, m, n + k, m, kind);
    SaysLater(s.script, b.state.script, k, n, m, kind);
  }

  lemma BlockSays(s: State, i: nat, info: Info, host: Host, n: nat, m: nat, kind: Answer -> bool)
    requires i < |BLOCKS| && NotBroken(kind) && Says(s.script, n + Answers(i), m + GrabsIn(i), kind)
    requires i == 0 ==> R0Verdict(s.script.answers).Some?
    ensures var b := BlockOf(s, i, info, host); b.verdict.Some? && Says(b.state.script, n, m, kind)
  {
    hide Says, NotBroken, R0Of, R2Of, SimpleOf, R4Of, R5Of, R0Verdict, CommandVerdict, HasEnd, Proper;
    match i {
      case 0 =>
        R0Proper(s, info);
        ProperSays(s, R0Of(s, info), n, m, kind);
      case 2 =>
        R2Proper(s, info.caps);
        SimpleSays(s, R2Of(s, info.caps), "R2", if "chain" in info.caps then 1 else 0,
                   HasEnd(LinesOf(FirstAnswer(s.script.answers))), n, m, kind);
      case 4 => R4Says(s, info.caps, n, m, kind);
      case 5 => R5Says(s, info.caps, host.r5Input, n, m, kind);
      case 1 => OneSays(s, "R1", "regs", "regs", info.caps, {}, n, m, kind);
      case 3 => OneSays(s, "R3", "test", "test all", info.caps, host.skip, n, m, kind);
      case 6 => OneSays(s, "R6", "route", "route list", info.caps, {}, n, m, kind);
      case _ => OneSays(s, "R7", "status", "status", info.caps, {}, n, m, kind);
    }
  }

  lemma ProperSays(s: State, b: Block, n: nat, m: nat, kind: Answer -> bool)
    requires Says(s.script, n + 3, m, kind) && Proper(s, "R0", b, 3)
    ensures Says(b.state.script, n, m, kind)
  {
    hide Within;
    SaysLater(s.script, b.state.script, 3, n, m, kind);
  }

  lemma OneSays(s: State, block: string, capName: string, command: string, caps: set<string>, skip: set<string>,
                n: nat, m: nat, kind: Answer -> bool)
    requires NotBroken(kind) && Says(s.script, n + 1, m, kind)
    ensures var b := SimpleOf(s, block, capName, command, caps, skip);
            b.verdict.Some? && Says(b.state.script, n, m, kind)
  {
    hide Says, NotBroken, SimpleOf, CommandVerdict, Proper;
    SimpleProper(s, block, capName, command, caps, skip);
    SimpleSays(s, SimpleOf(s, block, capName, command, caps, skip), block,
               if block !in skip && capName in caps then 1 else 0, true, n, m, kind);
  }

  /** What the first i blocks leave of 24 answers and 170 grabs, at least. */
  function AnswersAfter(i: nat): nat
    requires i <= 8
  {
    [24, 21, 20, 19, 18, 4, 2, 1, 0][i]
  }

  function GrabsAfter(i: nat): nat
    requires i <= 8
  {
    [170, 170, 170, 170, 170, 10, 0, 0, 0][i]
  }

  lemma {:induction false} ThroughSays(s: State, i: nat, info: Info, host: Host, kind: Answer -> bool)
    requires i <= |BLOCKS| && NotBroken(kind) && Says(s.script, 24, 170, kind) && R0Verdict(s.script.answers).Some?
    ensures var p := Through(s, i, info, host);
            !p.stopped && Says(p.state.script, AnswersAfter(i), GrabsAfter(i), kind)
  {
    hide Says, NotBroken, R0Verdict, AnswersAfter, GrabsAfter, Through;
    if i == 0 {
      FirstSays(s, info, host, kind);
    } else {
      ThroughSays(s, i - 1, info, host, kind);
      if i == 1 { FirstSays(s, info, host, kind); }
      NextSays(s, i, info, host, kind);
    }
  }

  lemma FirstSays(s: State, info: Info, host: Host, kind: Answer -> bool)
    requires Says(s.script, 24, 170, kind)
    ensures var p := Through(s, 0, info, host);
            !p.stopped && p.state.script == s.script && Says(p.state.script, AnswersAfter(0), GrabsAfter(0), kind)
  {
    hide Says, Opened;
    OpenedEffect(s, host);
    SaysAtFirst(s.script, Opened(s, host).script, kind);
  }

  lemma NextSays(s: State, i: nat, info: Info, host: Host, kind: Answer -> bool)
    requires 0 < i <= |BLOCKS| && NotBroken(kind) && !Through(s, i - 1, info, host).stopped
    requires var t := Through(s, i - 1, info, host).state.script;
             Says(t, AnswersAfter(i - 1), GrabsAfter(i - 1), kind) && (i == 1 ==> R0Verdict(t.answers).Some?)
    ensures var p := Through(s, i, info, host);
            !p.stopped && Says(p.state.script, AnswersAfter(i), GrabsAfter(i), kind)
  {
    hide Says, NotBroken, R0Verdict, BlockOf, AnswersAfter, GrabsAfter, Answers, GrabsIn, Through;
    var p := Through(s, i - 1, info, host);
    SaysEnough(p.state.script, i, kind);
    ThroughNext(s, i - 1, info, host);
    BlockSays(p.state, i - 1, info, host, AnswersAfter(i), GrabsAfter(i), kind);
  }

  lemma SaysAtFirst(t: Script, u: Script, kind: Answer -> bool)
    requires Says(t, 24, 170, kind) && u == t
    ensures Says(u, AnswersAfter(0), GrabsAfter(0), kind)
  {
  }

  lemma SaysEnough(t: Script, i: nat, kind: Answer -> bool)
    requires 0 < i <= 8 && Says(t, AnswersAfter(i - 1), GrabsAfter(i - 1), kind)
    ensures Says(t, AnswersAfter(i) + Answers(i - 1), GrabsAfter(i) + GrabsIn(i - 1), kind)
  {
    SaysLess(t, AnswersAfter(i - 1), GrabsAfter(i - 1), AnswersAfter(i) + Answers(i - 1),
             GrabsAfter(i) + GrabsIn(i - 1), kind);
  }

  /** A session completes whatever the board answers or leaves unanswered, as
      long as it has 24 answers and 170 grabs, none of them broken, and replies to R0. */
  lemma SessionCompletes(s: State, info: Info, host: Host)
    requires Says(s.script, 24, 170, Working) && R0Verdict(s.script.answers).Some?
    ensures OutcomeOf(s, info, host).Completed?
  {
    hide Says, R0Verdict, Through, R4Rates, R5Part;
    ThroughSays(s, |BLOCKS|, info, host, Working);
  }

  /** And it stops if R0 is not answered three times. */
  lemma SessionStops(s: State, info: Info, host: Host)
    requires R0Verdict(s.script.answers).None?
    ensures OutcomeOf(s, info, host) == Stopped
  {
    hide R4Rates, R5Part, Opened, R0Of, R0Verdict;
    OpenedEffect(s, host);
    R0Proper(Opened(s, host), info);
    StopStays(s, 1, info, host);
  }

  // ------------------------------------------------------------------------
  // A board that is miscounted
  // ------------------------------------------------------------------------

  /** A grab line, as a reply. */
  function Fake(): string { "GRAB" + Fields(SummaryKeys(), [0, 1, 0, 0, 0, 0]) }

  lemma FakeCounts()
    ensures TextCount(Fake()) == Counters(1, 1, 0, 0, 0)
  {
    var f := Frame(true, [], Meta(0, 0, 1, 0, 0, 0, 0, 0, 0, 0, None, None, map[]), None);
    assert GrabSummary(f) == Fake();
    SummaryText(f);
  }

  function Refusal(): Answer { Reply(false, [Fake()]) }

  /** A board that refuses every command with a line that looks like a grab's, and never gives a grab. */
  function FakingBoard(): Script { Script(seq(24, _ => Refusal()), seq(170, _ => SilentGrab), []) }

  predicate IsRefusal(a: Answer) { a == Refusal() }

  lemma FakingSays()
    ensures Says(FakingBoard(), 24, 170, IsRefusal) && NotBroken(IsRefusal)
    ensures R0Verdict(FakingBoard().answers).Some?
  {
    hide Fake;
  }

  /** A refused R5 has no grabs, and its replies are the board's two. */
  lemma RefusedR5(s: State, caps: set<string>, input: string)
    requires Says(s.script, 2, 0, IsRefusal)
    ensures var p := R5Part(s, input);
            p.end.Ended? && p.grabs == [] && p.replies == [Fake()] + [Fake()]
  {
    hide Fake, StreamOf, Within, LogCount, TextsCount, SumOf, GoodGrabs, Taken;
    R5Proper(s, caps, input);
    assert IsRefusal(s.script.answers[0]) && IsRefusal(s.script.answers[1]);
  }

  lemma FakeLooks(replies: seq<string>)
    requires replies == [Fake()] + [Fake()]
    ensures !NoneLooksLikeGrab(replies)
  {
    FakeCounts();
    LooksIff(Fake());
    hide Fake, TextCount, LooksLikeGrab;
    assert replies[0] == Fake();
  }

  /** Its session completes without a single grab in R5, and the evaluator counts some. */
  lemma ReplyMiscounted(entries: seq<Entry>, host: Host)
    requires LogOf(entries, State(FakingBoard(), [], []), Info(None, NoPing, {"stream"}, ""), host)
    ensures var o := OutcomeOf(State(FakingBoard(), [], []), Info(None, NoPing, {"stream"}, ""), host);
            o.Completed? && o.r5Grabs == [] && Counted(Parsed(Printed(entries)), "R5") != SumOf(o.r5Grabs)
  {
    hide LogOf, Fake, R4Rates, R5Part, Counted, Parsed, Says, Through, FakingBoard, R0Verdict, NotBroken,
        NoneLooksLikeGrab, SumOf;
    var s, info := State(FakingBoard(), [], []), Info(None, NoPing, {"stream"}, "");
    FakingSays();
    ThroughSays(s, 5, info, host, IsRefusal);
    ThroughSays(s, |BLOCKS|, info, host, IsRefusal);
    var p5 := Through(s, 5, info, host);
    SaysLess(p5.state.script, AnswersAfter(5), GrabsAfter(5), 2, 0, IsRefusal);
    RefusedR5(p5.state, info.caps, host.r5Input);
    R5CountersIff(entries, s, info, host);
    FakeLooks(R5PartOf(s, info, host).value.replies);
  }
}
