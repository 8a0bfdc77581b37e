/** The whole session, R0 to R7 (tools/board_run.py), and what the evaluator
    (tools/eval_board.py) makes of its log. */
module FullSession {
  import opened Common
  import opened Text
  import opened GrabFrame
  import opened RunLog
  import opened BoardRun
  import opened Session
  import opened StreamBlocks
  import opened RateBlocks

  // ------------------------------------------------------------------------
  // The session
  // ------------------------------------------------------------------------

  const BLOCKS: seq<string> := ["R0", "R1", "R2", "R3", "R4", "R5", "R6", "R7"]

  /** What the runner is started with; the banner if the target has one. */
  datatype Host = Host(tag: string, port: string, r5Input: string, skip: set<string>, banner: Option<seq<string>>)

  datatype Outcome = Stopped | Completed(verdicts: seq<string>, rates: seq<Rate>, r5Grabs: seq<GrabRecord>)

  function OpeningText(host: Host): string { "RUNNER_VERSION=1 label=" + (host.tag + (" port=" + host.port)) }

  function Opened(s: State, host: Host): State {
    var told := Logged(s, EV, "-", OpeningText(host));
    if host.banner.Some? then Booted(told, "SETUP", host.banner.value) else told
  }

  function BlockOf(s: State, i: nat, info: Info, host: Host): Block
    requires i < |BLOCKS|
  {
    match i
    case 0 => R0Of(s, info)
    case 1 => SimpleOf(s, "R1", "regs", "regs", info.caps, {})
    case 2 => R2Of(s, info.caps)
    case 3 => SimpleOf(s, "R3", "test", "test all", info.caps, host.skip)
    case 4 => R4Of(s, info.caps)
    case 5 => R5Of(s, info.caps, host.r5Input)
    case 6 => SimpleOf(s, "R6", "route", "route list", info.caps, {})
    case _ => SimpleOf(s, "R7", "status", "status", info.caps, {})
  }

  /** The verdicts so far, and whether an exception that no block catches has stopped the session. */
  datatype Progress = Progress(verdicts: seq<string>, state: State, stopped: bool)

  function Next(p: Progress, b: Block): Progress {
    if b.verdict.Some? then Progress(p.verdicts + [b.verdict.value], b.state, false)
    else Progress(p.verdicts, b.state, true)
  }

  /** The first n blocks. */
  function Through(s: State, n: nat, info: Info, host: Host): Progress
    requires n <= |BLOCKS|
  {
    if n == 0 then Progress([], Opened(s, host), false)
    else
      var p := Through(s, n - 1, info, host);
      if p.stopped then p else Next(p, BlockOf(p.state, n - 1, info, host))
  }

  /** The sub-blocks of R4, if the session gets that far on a board with a stream. */
  function RatesOf(s: State, info: Info, host: Host): Option<Rates> {
    var p := Through(s, 4, info, host);
    if !p.stopped && "stream" in info.caps then Some(R4Rates(p.state, info.caps)) else None
  }

  function R5PartOf(s: State, info: Info, host: Host): Option<Part> {
    var p := Through(s, 5, info, host);
    if !p.stopped && "stream" in info.caps then Some(R5Part(p.state, host.r5Input)) else None
  }

  /** Every grab that came, in R4 and in R5. */
  function SessionGrabs(s: State, info: Info, host: Host): seq<GrabRecord> {
    var r, p := RatesOf(s, info, host), R5PartOf(s, info, host);
    (if r.Some? then r.value.came else []) + if p.Some? then p.value.grabs + p.value.lost else []
  }

  function OutcomeOf(s: State, info: Info, host: Host): Outcome {
    var all, r, p := Through(s, |BLOCKS|, info, host), RatesOf(s, info, host), R5PartOf(s, info, host);
    if all.stopped then Stopped
    else
      Completed(all.verdicts, if r.Some? then r.value.rates else [], if p.Some? then p.value.grabs else [])
  }

  method LogStart(board: Board, log: Log, host: Host)
    requires log.Valid()
    modifies log
    ensures log.Valid() && Now(board, log) == Opened(old(Now(board, log)), host)
  {
    hide Booted, OpeningText;
    assert IsToken("-") && IsToken("SETUP");
    LogLine(board, log, EV, "-", OpeningText(host));
    if host.banner.Some? { LogBanner(board, log, "SETUP", host.banner.value); }
  }

  lemma {:induction false} StopStays(s: State, n: nat, info: Info, host: Host)
    requires n <= |BLOCKS| && Through(s, n, info, host).stopped
    ensures Through(s, |BLOCKS|, info, host) == Through(s, n, info, host)
    ensures n <= 4 ==> RatesOf(s, info, host) == None
    ensures n <= 5 ==> R5PartOf(s, info, host) == None
    decreases |BLOCKS| - n
  {
    hide BlockOf, Opened;
    if n < |BLOCKS| { StopStays(s, n + 1, info, host); }
  }

  lemma Tokens()
    ensures forall i :: 0 <= i < |BLOCKS| ==> IsToken(BLOCKS[i])
  {
  }

  lemma ThroughNext(s: State, n: nat, info: Info, host: Host)
    requires n < |BLOCKS| && !Through(s, n, info, host).stopped
    ensures Through(s, n + 1, info, host)
            == Next(Through(s, n, info, host), BlockOf(Through(s, n, info, host).state, n, info, host))
  {
    hide BlockOf, Opened;
  }

  /** R0 and R1; None if the session stops. */
  method RunFirstTwo(board: Board, log: Log, host: Host) returns (vs: Option<seq<string>>)
    requires log.Valid()
    modifies log, board
    ensures log.Valid()
    ensures var p := Through(old(Now(board, log)), 2, board.info, host);
            Now(board, log) == p.state && vs == if p.stopped then None else Some(p.verdicts)
  {
    hide Opened, R0Of, SimpleOf, Through, R0Verdict, CommandVerdict;
    ghost var s := Now(board, log);
    Tokens();
    LogStart(board, log, host);
    ThroughStart(s, board.info, host);
    var r0 := RunR0(board, log);
    ThroughNext(s, 0, board.info, host);
    if r0.None? { StopsAt(s, 1, 2, board.info, host); return None; }
    var r1 := RunSimpleBlock(board, log, "R1", "regs", "regs", {});
    ThroughNext(s, 1, board.info, host);
    if r1.None? { return None; }
    vs := Some([] + [r0.value] + [r1.value]);
  }

  /** R0 to R3; None if the session stops. */
  method RunFirstFour(board: Board, log: Log, host: Host) returns (vs: Option<seq<string>>)
    requires log.Valid()
    modifies log, board
    ensures log.Valid()
    ensures var p := Through(old(Now(board, log)), 4, board.info, host);
            Now(board, log) == p.state && vs == if p.stopped then None else Some(p.verdicts)
  {
    hide R2Of, SimpleOf, Through, CommandVerdict, HasEnd;
    ghost var s := Now(board, log);
    Tokens();
    var two := RunFirstTwo(board, log, host);
    if two.None? { StopsAt(s, 2, 4, board.info, host); return None; }
    var r2 := RunR2(board, log);
    ThroughNext(s, 2, board.info, host);
    if r2.None? { StopsAt(s, 3, 4, board.info, host); return None; }
    var r3 := RunSimpleBlock(board, log, "R3", "test", "test all", host.skip);
    ThroughNext(s, 3, board.info, host);
    if r3.None? { return None; }
    vs := Some(two.value + [r2.value] + [r3.value]);
  }

  lemma ThroughStart(s: State, info: Info, host: Host)
    ensures Through(s, 0, info, host) == Progress([], Opened(s, host), false)
  {
  }

  lemma {:induction false} StopsAt(s: State, n: nat, m: nat, info: Info, host: Host)
    requires n <= m <= |BLOCKS| && Through(s, n, info, host).stopped
    ensures Through(s, m, info, host) == Through(s, n, info, host)
    decreases m - n
  {
    hide BlockOf, Opened;
    if n < m { StopsAt(s, n + 1, m, info, host); }
  }

  /** R6 and R7 after the first six blocks; None if the session stops. */
  method RunLastTwo(board: Board, log: Log, host: Host, ghost s: State) returns (vs: Option<seq<string>>)
    requires log.Valid()
    requires var p := Through(s, 6, board.info, host); !p.stopped && Now(board, log) == p.state
    modifies log, board
    ensures log.Valid()
    ensures var p, all := Through(s, 6, board.info, host), Through(s, |BLOCKS|, board.info, host);
            && Now(board, log) == all.state && all.stopped == vs.None?
            && (vs.Some? ==> all.verdicts == p.verdicts + vs.value)
  {
    hide SimpleOf, Through;
    Tokens();
    var r6 := RunSimpleBlock(board, log, "R6", "route", "route list", {});
    ThroughNext(s, 6, board.info, host);
    if r6.None? { StopStays(s, 7, board.info, host); return None; }
    var r7 := RunSimpleBlock(board, log, "R7", "status", "status", {});
    ThroughNext(s, 7, board.info, host);
    if r7.None? { return None; }
    vs := Some([r6.value, r7.value]);
  }

  /** The whole session. Stopped: an exception that no block catches. */
  method RunSession(board: Board, log: Log, host: Host, fail: FailFrames) returns (outcome: Outcome)
    requires log.Valid() && log.said == [] && fail.items == []
    modifies log, board, fail
    ensures log.Valid()
    ensures var s := old(Now(board, log));
            && outcome == OutcomeOf(s, board.info, host)
            && Now(board, log) == Through(s, |BLOCKS|, board.info, host).state
            && fail.items == AfterGrabs([], host.tag, SessionGrabs(s, board.info, host))
            && (outcome.Completed? ==> Agrees(Parsed(log.lines), s, board.info, host))
  {
    hide Opened, R4Of, R5Of, SimpleOf, Through, AfterGrabs, R4Rates, R5Part, Agrees;
    ghost var s, info := Now(board, log), board.info;
    Tokens();
    NoGrabs([], host.tag);
    var vs := RunFirstFour(board, log, host);
    if vs.None? { NothingCame(s, info, host); return Stopped; }

    var r4, rates := RunR4(board, log, host.tag, fail);
    ThroughNext(s, 4, info, host);
    if r4.None? { NoMore(s, 5, info, host); return Stopped; }

    var r5, grabs := RunR5(board, log, host.tag, host.r5Input, fail);
    ThroughNext(s, 5, info, host);
    BothStored(s, info, host);
    if r5.None? { StopStays(s, 6, info, host); return Stopped; }

    var ws := RunLastTwo(board, log, host, s);
    if ws.None? { return Stopped; }
    outcome := Completed(vs.value + [r4.value] + [r5.value] + ws.value, rates, grabs);
    SessionAgrees(log.entries, s, info, host);
  }

  /** A session stopped before R4: no grabs. */
  lemma NothingCame(s: State, info: Info, host: Host)
    requires Through(s, 4, info, host).stopped
    ensures Through(s, |BLOCKS|, info, host) == Through(s, 4, info, host) && SessionGrabs(s, info, host) == []
  {
    hide Through, R4Rates, R5Part;
    StopStays(s, 4, info, host);
  }

  /** A session stopped in R4: the grabs that came were R4's. */
  lemma NoMore(s: State, n: nat, info: Info, host: Host)
    requires n == 5 && Through(s, n, info, host).stopped
    ensures Through(s, |BLOCKS|, info, host) == Through(s, n, info, host) && R5PartOf(s, info, host) == None
    ensures SessionGrabs(s, info, host)
            == if RatesOf(s, info, host).Some? then RatesOf(s, info, host).value.came else []
  {
    hide Through, R4Rates, R5Part;
    StopStays(s, n, info, host);
  }

  lemma BothStored(s: State, info: Info, host: Host)
    ensures var r, p := RatesOf(s, info, host), R5PartOf(s, info, host);
            var first := AfterGrabs([], host.tag, if r.Some? then r.value.came else []);
            AfterGrabs([], host.tag, SessionGrabs(s, info, host))
            == if p.Some? then AfterGrabs(first, host.tag, p.value.grabs + p.value.lost) else first
  {
    hide AfterGrabs, RatesOf, R5PartOf;
    var r, p := RatesOf(s, info, host), R5PartOf(s, info, host);
    var came := if r.Some? then r.value.came else [];
    AfterGrabsConcat([], host.tag, came, if p.Some? then p.value.grabs + p.value.lost else []);
    assert came + [] == came;
  }

  /** One stored frame for each bad grab of the session, under names of their own. */
  lemma SessionStored(s: State, info: Info, host: Host)
    ensures var stored := AfterGrabs([], host.tag, SessionGrabs(s, info, host));
            && |stored| == BadCount(SessionGrabs(s, info, host))
            && forall i, j :: 0 <= i < j < |stored| ==> stored[i].0 != stored[j].0
  {
    hide AfterGrabs, SessionGrabs, BadCount, FrameName;
    StoredForBad([], host.tag, SessionGrabs(s, info, host));
    StoredNamesUnique(AfterGrabs([], host.tag, SessionGrabs(s, info, host)), host.tag);
  }

  // ------------------------------------------------------------------------
  // Verdicts: the runner's are the evaluator's
  // ------------------------------------------------------------------------

  /** Block names and verdicts in pairs. */
  function Pairs(blocks: seq<string>, verdicts: seq<string>): (p: seq<(string, string)>)
    requires |blocks| == |verdicts|
    ensures |p| == |blocks|
  {
    seq(|blocks|, i requires 0 <= i < |blocks| => (blocks[i], verdicts[i]))
  }

  lemma PairsNext(blocks: seq<string>, verdicts: seq<string>, b: string, v: string)
    requires |blocks| == |verdicts|
    ensures Pairs(blocks + [b], verdicts + [v]) == Pairs(blocks, verdicts) + [(b, v)]
  {
  }

  lemma OpenedEffect(s: State, host: Host)
    ensures LogEnds(Opened(s, host).said) == LogEnds(s.said)
    ensures forall c :: |c| >= 2 && c[0] == 'R' ==> LogCount(Opened(s, host).said, c) == LogCount(s.said, c)
    ensures Opened(s, host).script == s.script
  {
    hide LogEnds, LogCount, Booted, TextEnd;
    assert OpeningText(host)[0] == 'R';
    QuietText("-", OpeningText(host));
    var told := Logged(s, EV, "-", OpeningText(host));
    LoggedQuiet(s, EV, "-", OpeningText(host));
    assert "-"[0] != 'R' && "SETUP"[0] != 'R';
    if host.banner.Some? { BootedQuiet(told, "SETUP", host.banner.value); }
  }

  /** Every block that ends has one end, and counts in its own family only. */
  lemma BlockProper(s: State, i: nat, info: Info, host: Host)
    requires i < |BLOCKS|
    ensures var b := BlockOf(s, i, info, host);
            b.verdict.Some? ==> FamilyEffect(s.said, b.state.said, [(BLOCKS[i], b.verdict.value)], BLOCKS[i])
  {
    hide Within, FamilyEffect, R0Of, R2Of, SimpleOf, R4Of, R5Of, R0Verdict, CommandVerdict;
    var b := BlockOf(s, i, info, host);
    match i {
      case 0 => R0Proper(s, info);
      case 1 => SimpleProper(s, "R1", "regs", "regs", info.caps, {});
      case 2 => R2Proper(s, info.caps);
      case 3 => SimpleProper(s, "R3", "test", "test all", info.caps, host.skip);
      case 4 => R4Proper(s, info.caps);
      case 5 => R5Proper(s, info.caps, host.r5Input);
      case 6 => SimpleProper(s, "R6", "route", "route list", info.caps, {});
      case _ => SimpleProper(s, "R7", "status", "status", info.caps, {});
    }
    if i != 4 && b.verdict.Some? { WithinFamily(s.said, b.state.said, [(BLOCKS[i], b.verdict.value)], BLOCKS[i]); }
  }

  /** So far, every block has one end, in order. */
  lemma {:induction false} EndsSoFar(s: State, n: nat, info: Info, host: Host)
    requires s.said == [] && n <= |BLOCKS| && !Through(s, n, info, host).stopped
    ensures var p := Through(s, n, info, host);
            |p.verdicts| == n && LogEnds(p.state.said) == Pairs(BLOCKS[..n], p.verdicts)
  {
    if n == 0 {
      OpenedEffect(s, host);
    } else {
      hide BlockOf, LogEnds, LogCount, Opened, Pairs, FamilyEffect;
      EndsSoFar(s, n - 1, info, host);
      var p := Through(s, n - 1, info, host);
      hide Through;
      ThroughNext(s, n - 1, info, host);
      BlockProper(p.state, n - 1, info, host);
      NextEnds(p, BlockOf(p.state, n - 1, info, host), n);
    }
  }

  lemma NextEnds(p: Progress, b: Block, n: nat)
    requires 0 < n <= |BLOCKS| && |p.verdicts| == n - 1 && b.verdict.Some?
    requires LogEnds(p.state.said) == Pairs(BLOCKS[..n - 1], p.verdicts)
    requires FamilyEffect(p.state.said, b.state.said, [(BLOCKS[n - 1], b.verdict.value)], BLOCKS[n - 1])
    ensures |Next(p, b).verdicts| == n && LogEnds(Next(p, b).state.said) == Pairs(BLOCKS[..n], Next(p, b).verdicts)
  {
    hide LogEnds, LogCount, Pairs;
    PairsNext(BLOCKS[..n - 1], p.verdicts, BLOCKS[n - 1], b.verdict.value);
    assert BLOCKS[..n] == BLOCKS[..n - 1] + [BLOCKS[n - 1]];
  }

  lemma {:induction false} FirstEndOfPairs(blocks: seq<string>, verdicts: seq<string>, i: nat)
    requires |blocks| == |verdicts| && i < |blocks| && forall j :: 0 <= j < i ==> blocks[j] != blocks[i]
    ensures FirstEnd(Pairs(blocks, verdicts), blocks[i]) == verdicts[i]
  {
    if i > 0 {
      assert Pairs(blocks, verdicts)[1..] == Pairs(blocks[1..], verdicts[1..]);
      FirstEndOfPairs(blocks[1..], verdicts[1..], i - 1);
    }
  }

  lemma BlocksDiffer()
    ensures forall i, j :: 0 <= i < j < |BLOCKS| ==> BLOCKS[i] != BLOCKS[j]
  {
    assert forall i :: 0 <= i < |BLOCKS| ==> BLOCKS[i][1] == "01234567"[i];
  }

  /** The entries are the log of this session. */
  ghost predicate LogOf(entries: seq<Entry>, s: State, info: Info, host: Host) {
    s.said == [] && BoardRun.Tokens(entries) && SaidBy(entries) == Through(s, |BLOCKS|, info, host).state.said
  }

  /** The evaluator, reading the printed log of a completed session, finds
      exactly one end of each block, in order, with the runner's verdict. */
  lemma VerdictsAgree(entries: seq<Entry>, s: State, info: Info, host: Host, i: nat)
    requires LogOf(entries, s, info, host) && OutcomeOf(s, info, host).Completed? && i < |BLOCKS|
    ensures var v := OutcomeOf(s, info, host).verdicts;
            && |v| == |BLOCKS| && Ends(Parsed(Printed(entries))) == Pairs(BLOCKS, v)
            && BlockVerdict(Parsed(Printed(entries)), BLOCKS[i]) == v[i]
  {
    hide Parsed, Ends, LogEnds, BlockVerdict, FirstEnd, Through, RatesOf, R5PartOf;
    ReadBack(entries);
    EndsSoFar(s, |BLOCKS|, info, host);
    assert BLOCKS[..|BLOCKS|] == BLOCKS;
    VerdictIsFirstEnd(Parsed(Printed(entries)), BLOCKS[i]);
    BlocksDiffer();
    FirstEndOfPairs(BLOCKS, OutcomeOf(s, info, host).verdicts, i);
  }

  // ------------------------------------------------------------------------
  // Counters: the board's grabs are the evaluator's
  // ------------------------------------------------------------------------

  /** A count of a block's family: nothing before the block, unchanged after it. */
  lemma {:induction false} CountStays(s: State, m: nat, n: nat, info: Info, host: Host, c: string)
    requires m <= n <= |BLOCKS| && !Through(s, n, info, host).stopped && |c| >= 2
    requires forall i :: m <= i < n ==> c[..2] != BLOCKS[i]
    ensures !Through(s, m, info, host).stopped
    ensures LogCount(Through(s, n, info, host).state.said, c) == LogCount(Through(s, m, info, host).state.said, c)
    decreases n - m
  {
    hide BlockOf, LogEnds, LogCount, Opened;
    if m < n {
      CountStays(s, m, n - 1, info, host, c);
      BlockProper(Through(s, n - 1, info, host).state, n - 1, info, host);
      OtherFamily(c, n - 1);
    }
  }

  lemma OtherFamily(c: string, i: nat)
    requires i < |BLOCKS| && |c| >= 2 && c[..2] != BLOCKS[i]
    ensures !InFamily(c, BLOCKS[i])
  {
    if InFamily(c, BLOCKS[i]) { FamilyPrefix(c, i); }
  }

  lemma FamilyPrefix(c: string, i: nat)
    requires i < |BLOCKS| && InFamily(c, BLOCKS[i])
    ensures |c| >= 2 && c[..2] == BLOCKS[i]
  {
    if c != BLOCKS[i] { assert c[..2] == (BLOCKS[i] + ".")[..2] == BLOCKS[i]; }
  }

  lemma NothingBefore(s: State, n: nat, info: Info, host: Host, c: string)
    requires s.said == [] && n <= |BLOCKS| && !Through(s, n, info, host).stopped && |c| >= 2 && c[0] == 'R'
    requires forall i :: 0 <= i < n ==> c[..2] != BLOCKS[i]
    ensures LogCount(Through(s, n, info, host).state.said, c) == ZERO
  {
    CountStays(s, 0, n, info, host, c);
    OpenedEffect(s, host);
    assert LogCount([], c) == ZERO;
  }

  /** A line the evaluator takes for a grab's. */
  predicate LooksLikeGrab(text: string) { TextPart(text).Some? && GrabCount(TextPart(text).value).Some? }

  predicate NoneLooksLikeGrab(texts: seq<string>) { forall i :: 0 <= i < |texts| ==> !LooksLikeGrab(texts[i]) }

  lemma LooksIff(text: string)
    ensures TextCount(text) == ZERO <==> !LooksLikeGrab(text)
  {
    hide TextPart, TakeFields, TakeField, TakeText;
  }

  lemma {:induction false} CountsGrabs(texts: seq<string>)
    ensures TextsCount(texts) == ZERO <==> NoneLooksLikeGrab(texts)
  {
    hide TextCount, Plus, LooksLikeGrab;
    if texts != [] {
      var n := |texts| - 1;
      CountsGrabs(texts[..n]);
      LooksIff(texts[n]);
      PlusIsZero(TextsCount(texts[..n]), TextCount(texts[n]));
      assert forall i :: 0 <= i < n ==> texts[..n][i] == texts[i];
    }
  }

  lemma PartsOfZero(a: Counters, b: Counters)
    requires Plus(a, b) == ZERO
    ensures a == ZERO && b == ZERO
  {
    var p := Plus(a, b);
    assert p.grabs == 0 && p.ov == 0 && p.late == 0 && p.missed == 0 && p.errors == 0;
    assert a.grabs == 0 && b.grabs == 0 && a.ov == 0 && b.ov == 0 && a.late == 0 && b.late == 0;
    assert a.missed == 0 && b.missed == 0 && a.errors == 0 && b.errors == 0;
  }

  lemma PlusIsZero(a: Counters, b: Counters)
    ensures Plus(a, b) == ZERO <==> a == ZERO && b == ZERO
  {
    PlusAssoc(b, ZERO, ZERO);
    hide Plus;
    if Plus(a, b) == ZERO { PartsOfZero(a, b); }
  }

  lemma PlusZeroIff(a: Counters, b: Counters)
    ensures Plus(a, b) == a <==> b == ZERO
  {
  }

  /** Counters that are those of grabs and replies are those of the grabs alone exactly if no reply looks like one. */
  lemma AloneIff(entries: seq<Entry>, c: string, grabs: seq<GrabRecord>, replies: seq<string>)
    requires BoardRun.Tokens(entries) && LogCount(SaidBy(entries), c) == Plus(SumOf(grabs), TextsCount(replies))
    ensures Counted(Parsed(Printed(entries)), c) == SumOf(grabs) <==> NoneLooksLikeGrab(replies)
  {
    hide Parsed, Counted, LogCount, SumOf, TextsCount, NoneLooksLikeGrab, Plus;
    ReadBack(entries);
    CountsGrabs(replies);
    PlusZeroIff(SumOf(grabs), TextsCount(replies));
  }

  /** For every sub-block that R4 completed in a completed session, also if a
      later one timed out: the evaluator's counters equal the sums over the
      board's grabs if and only if none of the board's replies in it looks like a grab line. */
  lemma RateCountersIff(entries: seq<Entry>, s: State, info: Info, host: Host, k: nat)
    requires LogOf(entries, s, info, host) && OutcomeOf(s, info, host).Completed?
    requires k < |OutcomeOf(s, info, host).rates|
    ensures var r, rate := RatesOf(s, info, host), OutcomeOf(s, info, host).rates[k];
            && r.Some? && |r.value.replies| == |OutcomeOf(s, info, host).rates|
            && (Counted(Parsed(Printed(entries)), rate.sub) == SumOf(rate.grabs)
                <==> NoneLooksLikeGrab(r.value.replies[k]))
  {
    hide Parsed, Counted, LogCount, NoneLooksLikeGrab, R4Rates, R5PartOf, Through, Plus, FamilyEffect, SumOf,
        TextsCount;
    var r, p4 := RatesOf(s, info, host).value, Through(s, 4, info, host);
    var rate := r.rates[k];
    StopsNever(s, 4, info, host);
    StopsNever(s, 5, info, host);
    R4Proper(p4.state, info.caps);
    ThroughNext(s, 4, info, host);
    FamilyStart(rate.sub, 4);
    NothingBefore(s, 4, info, host, rate.sub);
    CountStays(s, 5, |BLOCKS|, info, host, rate.sub);
    PlusNothingFirst(Plus(SumOf(rate.grabs), TextsCount(r.replies[k])));
    AloneIff(entries, rate.sub, rate.grabs, r.replies[k]);
  }

  lemma PlusNothingFirst(a: Counters)
    ensures Plus(ZERO, a) == a
  {
  }

  lemma FamilyStart(c: string, i: nat)
    requires i < |BLOCKS| && InFamily(c, BLOCKS[i])
    ensures |c| >= 2 && c[0] == 'R' && forall j :: 0 <= j < |BLOCKS| && j != i ==> c[..2] != BLOCKS[j]
  {
    BlocksDiffer();
    FamilyPrefix(c, i);
    assert c[0] == c[..2][0];
  }

  lemma StopsNever(s: State, n: nat, info: Info, host: Host)
    requires n <= |BLOCKS| && !Through(s, |BLOCKS|, info, host).stopped
    ensures !Through(s, n, info, host).stopped
  {
    if Through(s, n, info, host).stopped { StopStays(s, n, info, host); }
  }

  /** The same for R5, if it was completed. */
  lemma R5CountersIff(entries: seq<Entry>, s: State, info: Info, host: Host)
    requires LogOf(entries, s, info, host) && OutcomeOf(s, info, host).Completed?
    requires "stream" in info.caps && R5PartOf(s, info, host).Some? && R5PartOf(s, info, host).value.end.Ended?
    ensures var p, grabs := R5PartOf(s, info, host).value, OutcomeOf(s, info, host).r5Grabs;
            Counted(Parsed(Printed(entries)), "R5") == SumOf(grabs) <==> NoneLooksLikeGrab(p.replies)
  {
    hide Parsed, Counted, LogCount, NoneLooksLikeGrab, R5Part, RatesOf, Through, Plus, Within, SumOf, TextsCount;
    var p, p5 := R5PartOf(s, info, host).value, Through(s, 5, info, host);
    StopsNever(s, 5, info, host);
    StopsNever(s, 6, info, host);
    R5Proper(p5.state, info.caps, host.r5Input);
    ThroughNext(s, 5, info, host);
    FamilyStart("R5", 5);
    NothingBefore(s, 5, info, host, "R5");
    CountStays(s, 6, |BLOCKS|, info, host, "R5");
    PlusNothingFirst(Plus(SumOf(p.grabs), TextsCount(p.replies)));
    AloneIff(entries, "R5", p.grabs, p.replies);
  }

  /** What the evaluator reads from the log of a completed session: the runner's
      verdicts, and for R5 and every sub-block of R4 that was completed the sums
      over the board's grabs, exactly if no reply there looks like a grab line. */
  ghost predicate Agrees(parsed: seq<Entry>, s: State, info: Info, host: Host)
    requires OutcomeOf(s, info, host).Completed?
  {
    var o, r, p := OutcomeOf(s, info, host), RatesOf(s, info, host), R5PartOf(s, info, host);
    && |o.verdicts| == |BLOCKS| && Ends(parsed) == Pairs(BLOCKS, o.verdicts)
    && (forall i :: 0 <= i < |BLOCKS| ==> BlockVerdict(parsed, BLOCKS[i]) == o.verdicts[i])
    && |o.rates| == (if r.Some? then |r.value.replies| else 0)
    && (forall k :: 0 <= k < |o.rates| ==>
          (Counted(parsed, o.rates[k].sub) == SumOf(o.rates[k].grabs) <==> NoneLooksLikeGrab(r.value.replies[k])))
    && (p.Some? && p.value.end.Ended? ==>
          (Counted(parsed, "R5") == SumOf(o.r5Grabs) <==> NoneLooksLikeGrab(p.value.replies)))
  }

  lemma SessionAgrees(entries: seq<Entry>, s: State, info: Info, host: Host)
    requires LogOf(entries, s, info, host) && OutcomeOf(s, info, host).Completed?
    ensures Agrees(Parsed(Printed(entries)), s, info, host)
  {
    hide LogOf, Through, NoneLooksLikeGrab, Counted, SumOf, BlockVerdict, Ends, Parsed, Pairs, R4Rates, R5Part;
    var o, r, p := OutcomeOf(s, info, host), RatesOf(s, info, host), R5PartOf(s, info, host);
    VerdictsAgree(entries, s, info, host, 0);
    forall i | 0 <= i < |BLOCKS| ensures BlockVerdict(Parsed(Printed(entries)), BLOCKS[i]) == o.verdicts[i] {
      VerdictsAgree(entries, s, info, host, i);
    }
    if r.Some? { R4Proper(Through(s, 4, info, host).state, info.caps); }
    forall k | 0 <= k < |o.rates|
      ensures Counted(Parsed(Printed(entries)), o.rates[k].sub) == SumOf(o.rates[k].grabs)
              <==> NoneLooksLikeGrab(r.value.replies[k])
    {
      RateCountersIff(entries, s, info, host, k);
    }
    if p.Some? && p.value.end.Ended? { R5CountersIff(entries, s, info, host); }
  }
}
