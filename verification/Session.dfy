/** The board as a script of answers, commands and resets, and the blocks of one
    command (tools/board_run.py). What a method does to the board and to the log
    is a function of both; what that function is worth is said in lemmas. */
module Session {
  import opened Common
  import opened Text
  import opened GrabFrame
  import opened RunLog
  import opened BoardRun

  // ------------------------------------------------------------------------
  // The board
  // ------------------------------------------------------------------------

  /** A command's reply, no reply in time, or another error. */
  datatype Answer = Reply(ok: bool, lines: seq<string>) | Silent | Broken

  /** A grab's frame, and what the triangle evaluator says of it: its verdict and the figures it is logged with. */
  datatype GrabAnswer = Grabbed(frame: Frame, gridOk: bool, figures: string) | SilentGrab | BrokenGrab

  datatype CliReset = NoSerial | CannotReset(name: string) | NoBanner | Banner(lines: seq<string>)

  datatype Way = Remote | Drive | Button

  /** How a reset after a timeout goes. */
  datatype Recovery = Recovery(cli: CliReset, readyAfterCli: bool, way: Way, banner: seq<string>, ready: bool)

  datatype Rtt = NoPing | PingSilent | Rtt(text: string)

  /** What a board will still answer, so every behaviour of a board is a script. */
  datatype Script = Script(answers: seq<Answer>, grabs: seq<GrabAnswer>, recoveries: seq<Recovery>)

  /** The next answer; a script that is used up is a broken board. */
  function FirstAnswer(answers: seq<Answer>): Answer { if answers == [] then Broken else answers[0] }

  function LaterAnswers(answers: seq<Answer>): seq<Answer> { if answers == [] then [] else answers[1..] }

  function NthAnswer(answers: seq<Answer>, n: nat): Answer { if n < |answers| then answers[n] else Broken }

  function Dropped<T>(s: seq<T>, n: nat): seq<T> { if n <= |s| then s[n..] else [] }

  lemma NextAnswer(answers: seq<Answer>, n: nat)
    ensures FirstAnswer(Dropped(answers, n)) == NthAnswer(answers, n)
    ensures LaterAnswers(Dropped(answers, n)) == Dropped(answers, n + 1)
  {
  }

  function FirstGrab(grabs: seq<GrabAnswer>): GrabAnswer { if grabs == [] then BrokenGrab else grabs[0] }

  function LaterGrabs(grabs: seq<GrabAnswer>): seq<GrabAnswer> { if grabs == [] then [] else grabs[1..] }

  function FirstRecovery(recoveries: seq<Recovery>): Recovery {
    if recoveries == [] then Recovery(NoSerial, false, Button, [], true) else recoveries[0]
  }

  function LaterRecoveries(recoveries: seq<Recovery>): seq<Recovery> {
    if recoveries == [] then [] else recoveries[1..]
  }

  /** The board's answer to the first sync and ping, and the commands its help lists. */
  datatype Info = Info(syncs: Option<bool>, rtt: Rtt, caps: set<string>, capsText: string)

  class Board {
    var script: Script
    /** The commands and grabs it was sent. */
    var heard: seq<string>
    const info: Info

    constructor (s: Script, i: Info)
      ensures script == s && info == i && heard == []
    {
      script, info, heard := s, i, [];
    }

    method Cmd(command: string) returns (a: Answer)
      modifies this
      ensures a == FirstAnswer(old(script.answers))
      ensures script == old(script).(answers := LaterAnswers(old(script.answers)))
      ensures heard == old(heard) + [command]
    {
      heard := heard + [command];
      if script.answers == [] { return Broken; }
      a := script.answers[0];
      script := script.(answers := script.answers[1..]);
    }

    method Grab() returns (a: GrabAnswer)
      modifies this
      ensures a == FirstGrab(old(script.grabs))
      ensures script == old(script).(grabs := LaterGrabs(old(script.grabs)))
      ensures heard == old(heard) + ["stream grab"]
    {
      heard := heard + ["stream grab"];
      if script.grabs == [] { return BrokenGrab; }
      a := script.grabs[0];
      script := script.(grabs := script.grabs[1..]);
    }

    method NextRecovery() returns (r: Recovery)
      modifies this
      ensures r == FirstRecovery(old(script.recoveries))
      ensures script == old(script).(recoveries := LaterRecoveries(old(script.recoveries))) && heard == old(heard)
    {
      if script.recoveries == [] { return Recovery(NoSerial, false, Button, [], true); }
      r := script.recoveries[0];
      script := script.(recoveries := script.recoveries[1..]);
    }
  }

  // ------------------------------------------------------------------------
  // Board and log
  // ------------------------------------------------------------------------

  /** What the board will still answer, what it has heard and what has been said. */
  datatype State = State(script: Script, heard: seq<string>, said: seq<Line>)

  ghost function Now(board: Board, log: Log): State
    reads board, log
  {
    State(board.script, board.heard, log.said)
  }

  function Logged(s: State, dir: Dir, block: string, text: string): State {
    s.(said := s.said + [Line(dir, block, text)])
  }

  /** The lines of a reply, received in turn. */
  function Received(s: State, block: string, lines: seq<string>): State {
    if lines == [] then s else Logged(Received(s, block, lines[..|lines| - 1]), RX, block, lines[|lines| - 1])
  }

  function Mark(ok: bool): string { if ok then "[ACK]" else "[NAK]" }

  /** One command: logged, its reply logged line by line, then ACK or NAK. */
  function Sent(s: State, block: string, command: string): State {
    var a := FirstAnswer(s.script.answers);
    var asked := Logged(s, TX, block, command).(script := s.script.(answers := LaterAnswers(s.script.answers)),
                                                heard := s.heard + [command]);
    if a.Reply? then Logged(Received(asked, block, a.lines), RX, block, Mark(a.ok)) else asked
  }

  method LogLine(board: Board, log: Log, dir: Dir, block: string, text: string)
    requires log.Valid() && IsToken(block)
    modifies log
    ensures log.Valid() && Now(board, log) == Logged(old(Now(board, log)), dir, block, text)
  {
    log.Add(dir, block, text);
  }

  method LogReply(board: Board, log: Log, block: string, lines: seq<string>)
    requires log.Valid() && IsToken(block)
    modifies log
    ensures log.Valid() && Now(board, log) == Received(old(Now(board, log)), block, lines)
  {
    assert lines[..0] == [];
    for i := 0 to |lines|
      invariant log.Valid() && Now(board, log) == Received(old(Now(board, log)), block, lines[..i])
    {
      LogLine(board, log, RX, block, lines[i]);
      assert lines[..i + 1][..i] == lines[..i];
    }
    assert lines[..|lines|] == lines;
  }

  method Send(board: Board, log: Log, block: string, command: string) returns (a: Answer)
    requires log.Valid() && IsToken(block)
    modifies log, board
    ensures log.Valid() && Now(board, log) == Sent(old(Now(board, log)), block, command)
    ensures a == FirstAnswer(old(board.script.answers))
  {
    hide Received;
    LogLine(board, log, TX, block, command);
    a := board.Cmd(command);
    if a.Reply? {
      LogReply(board, log, block, a.lines);
      LogLine(board, log, RX, block, Mark(a.ok));
    }
  }

  // ------------------------------------------------------------------------
  // Resets
  // ------------------------------------------------------------------------

  function WithoutCr(s: string): string { if s != [] && s[|s| - 1] == '\r' then WithoutCr(s[..|s| - 1]) else s }

  /** A boot banner: the lines that are not blank. */
  function Booted(s: State, block: string, lines: seq<string>): State {
    if lines == [] then s
    else
      var before, l := Booted(s, block, lines[..|lines| - 1]), lines[|lines| - 1];
      if Strip(l) != "" then Logged(before, RX, block, WithoutCr(l)) else before
  }

  function Noted(s: State, block: string, text: string): State { Logged(s, EV, block, "reset: " + text) }

  /** The board's own reset command, if it still takes it. */
  function CliReseted(s: State, block: string, cli: CliReset): State {
    match cli
    case NoSerial => s
    case CannotReset(name) => Noted(s, block, "cli reset not possible (" + name + ")")
    case NoBanner => Noted(s, block, "cli reset - no answer")
    case Banner(lines) => Booted(Noted(s, block, "cli reset - boot banner seen"), block, lines)
  }

  /** Reset from outside. */
  function Pressed(s: State, block: string, way: Way): State {
    match way
    case Remote => Noted(s, block, "remote programmer reset")
    case Drive => Noted(s, block, "CMD:RESET on the CURIOSITY drive")
    case Button => Logged(s, EV, block, "reset requested")
  }

  function CapturedText(banner: seq<string>): string {
    if banner == [] then "no banner captured" else "boot banner captured (" + Decimal(|banner|) + " lines)"
  }

  function ReadyText(ready: bool): string {
    if ready then "board ready again" else "board still not ready - continuing anyway"
  }

  function ResetOutside(s: State, block: string, r: Recovery): State {
    var booted := Booted(Pressed(s, block, r.way), block, r.banner);
    Noted(Noted(booted, block, CapturedText(r.banner)), block, ReadyText(r.ready))
  }

  /** What is logged when a command got no reply in time and the board is reset. */
  function Recovered(s: State, block: string, r: Recovery): State {
    var cli := CliReseted(Logged(s, EV, block, "timeout"), block, r.cli);
    if r.cli.Banner? && r.readyAfterCli then Noted(cli, block, "board ready again")
    else if r.cli.Banner? then
      ResetOutside(Noted(cli, block, "cli reset answered but no prompt - falling back"), block, r)
    else ResetOutside(cli, block, r)
  }

  function Reset(s: State, block: string): State {
    Recovered(s.(script := s.script.(recoveries := LaterRecoveries(s.script.recoveries))), block,
              FirstRecovery(s.script.recoveries))
  }

  method NoteReset(board: Board, log: Log, block: string, text: string)
    requires log.Valid() && IsToken(block)
    modifies log
    ensures log.Valid() && Now(board, log) == Noted(old(Now(board, log)), block, text)
  {
    LogLine(board, log, EV, block, "reset: " + text);
  }

  method LogBanner(board: Board, log: Log, block: string, lines: seq<string>)
    requires log.Valid() && IsToken(block)
    modifies log
    ensures log.Valid() && Now(board, log) == Booted(old(Now(board, log)), block, lines)
  {
    assert lines[..0] == [];
    for i := 0 to |lines|
      invariant log.Valid() && Now(board, log) == Booted(old(Now(board, log)), block, lines[..i])
    {
      assert lines[..i + 1][..i] == lines[..i];
      if Strip(lines[i]) != "" { LogLine(board, log, RX, block, WithoutCr(lines[i])); }
    }
    assert lines[..|lines|] == lines;
  }

  method LogOutside(board: Board, log: Log, block: string, r: Recovery)
    requires log.Valid() && IsToken(block)
    modifies log
    ensures log.Valid() && Now(board, log) == ResetOutside(old(Now(board, log)), block, r)
  {
    hide Booted, Noted;
    match r.way {
      case Remote => NoteReset(board, log, block, "remote programmer reset");
      case Drive => NoteReset(board, log, block, "CMD:RESET on the CURIOSITY drive");
      case Button => LogLine(board, log, EV, block, "reset requested");
    }
    LogBanner(board, log, block, r.banner);
    NoteReset(board, log, block, CapturedText(r.banner));
    NoteReset(board, log, block, ReadyText(r.ready));
  }

  /** What the caller of a timed-out command does: log it, reset, carry on. */
  method HandleTimeout(board: Board, log: Log, block: string)
    requires log.Valid() && IsToken(block)
    modifies log, board
    ensures log.Valid() && Now(board, log) == Reset(old(Now(board, log)), block)
  {
    hide Booted, Noted, ResetOutside;
    LogLine(board, log, EV, block, "timeout");
    var r := board.NextRecovery();
    match r.cli {
      case NoSerial =>
      case CannotReset(name) => NoteReset(board, log, block, "cli reset not possible (" + name + ")");
      case NoBanner => NoteReset(board, log, block, "cli reset - no answer");
      case Banner(lines) =>
        NoteReset(board, log, block, "cli reset - boot banner seen");
        LogBanner(board, log, block, lines);
        if r.readyAfterCli {
          NoteReset(board, log, block, "board ready again");
          return;
        }
        NoteReset(board, log, block, "cli reset answered but no prompt - falling back");
    }
    LogOutside(board, log, block, r);
  }

  // ------------------------------------------------------------------------
  // What commands and resets add to the log
  // ------------------------------------------------------------------------

  /** One more line that is no block end. */
  lemma LoggedEffect(s: State, dir: Dir, block: string, text: string)
    requires dir == EV ==> TextEnd(block, text) == []
    ensures Effect(s.said, Logged(s, dir, block, text).said, [], block, if dir == RX then TextCount(text) else ZERO)
  {
    hide Effect, TextEnd, TextCount;
    OneLineSaid(s.said, Line(dir, block, text));
  }

  lemma {:induction false} ReceivedEffect(s: State, block: string, lines: seq<string>)
    ensures Effect(s.said, Received(s, block, lines).said, [], block, TextsCount(lines))
    ensures Received(s, block, lines).script == s.script
  {
    hide Effect, TextCount, Plus;
    if lines == [] {
      NoEffect(s.said, block);
    } else {
      var before, l := lines[..|lines| - 1], lines[|lines| - 1];
      ReceivedEffect(s, block, before);
      var mid := Received(s, block, before);
      LoggedEffect(mid, RX, block, l);
      QuietTrans(s.said, mid.said, Logged(mid, RX, block, l).said, block, TextsCount(before), TextCount(l));
    }
  }

  function LinesOf(a: Answer): seq<string> { if a.Reply? then a.lines else [] }

  /** A command counts as its reply's lines, and uses one answer. */
  lemma SentEffect(s: State, block: string, command: string)
    ensures Effect(s.said, Sent(s, block, command).said, [], block, TextsCount(LinesOf(FirstAnswer(s.script.answers))))
    ensures Sent(s, block, command).script == s.script.(answers := LaterAnswers(s.script.answers))
  {
    hide Effect, TextCount, Plus;
    var a := FirstAnswer(s.script.answers);
    var asked := Logged(s, TX, block, command);
    LoggedEffect(s, TX, block, command);
    if a.Reply? {
      var taken := asked.(script := s.script.(answers := LaterAnswers(s.script.answers)), heard := s.heard + [command]);
      var heard := Received(taken, block, a.lines);
      ReceivedEffect(taken, block, a.lines);
      QuietTrans(s.said, asked.said, heard.said, block, ZERO, TextsCount(a.lines));
      AckText(a.ok);
      LoggedEffect(heard, RX, block, Mark(a.ok));
      QuietTrans(s.said, heard.said, Logged(heard, RX, block, Mark(a.ok)).said, block, TextsCount(a.lines), ZERO);
    }
  }

  /** Lines within a block: no end, no count elsewhere. */
  ghost predicate Quiet(a: State, b: State, block: string) { Within(a.said, b.said, [], block) }

  lemma QuietSelf(s: State, block: string)
    ensures Quiet(s, s, block)
  {
  }

  lemma QuietThen(a: State, b: State, d: State, block: string)
    requires Quiet(a, b, block) && Quiet(b, d, block)
    ensures Quiet(a, d, block)
  {
    hide Within;
    WithinTrans(a.said, b.said, d.said, [], block);
  }

  lemma LoggedQuiet(s: State, dir: Dir, block: string, text: string)
    requires dir == EV ==> TextEnd(block, text) == []
    ensures Quiet(s, Logged(s, dir, block, text), block)
  {
    hide Effect, TextEnd, TextCount, Within;
    LoggedEffect(s, dir, block, text);
    EffectIsWithin(s.said, Logged(s, dir, block, text).said, [], block, if dir == RX then TextCount(text) else ZERO);
  }

  lemma NotedQuiet(s: State, block: string, text: string)
    ensures Quiet(s, Noted(s, block, text), block)
  {
    hide Quiet, TextEnd;
    assert ("reset: " + text)[0] == 'r';
    QuietText(block, "reset: " + text);
    LoggedQuiet(s, EV, block, "reset: " + text);
  }

  lemma SentQuiet(s: State, block: string, command: string)
    ensures Quiet(s, Sent(s, block, command), block)
  {
    hide Effect, Within, Sent, TextsCount;
    SentEffect(s, block, command);
    EffectIsWithin(s.said, Sent(s, block, command).said, [], block,
        TextsCount(LinesOf(FirstAnswer(s.script.answers))));
  }

  lemma {:induction false} BootedQuiet(s: State, block: string, lines: seq<string>)
    ensures Quiet(s, Booted(s, block, lines), block) && Booted(s, block, lines).script == s.script
  {
    hide Quiet, Strip, WithoutCr;
    if lines == [] {
      QuietSelf(s, block);
    } else {
      var l, mid := lines[|lines| - 1], Booted(s, block, lines[..|lines| - 1]);
      BootedQuiet(s, block, lines[..|lines| - 1]);
      LoggedQuiet(mid, RX, block, WithoutCr(l));
      QuietThen(s, mid, Logged(mid, RX, block, WithoutCr(l)), block);
    }
  }

  lemma CliQuiet(s: State, block: string, cli: CliReset)
    ensures Quiet(s, CliReseted(s, block, cli), block) && CliReseted(s, block, cli).script == s.script
  {
    hide Quiet, Booted;
    match cli
    case NoSerial => QuietSelf(s, block);
    case CannotReset(name) => NotedQuiet(s, block, "cli reset not possible (" + name + ")");
    case NoBanner => NotedQuiet(s, block, "cli reset - no answer");
    case Banner(lines) =>
      var seen := Noted(s, block, "cli reset - boot banner seen");
      NotedQuiet(s, block, "cli reset - boot banner seen");
      BootedQuiet(seen, block, lines);
      QuietThen(s, seen, Booted(seen, block, lines), block);
  }

  lemma PressedQuiet(s: State, block: string, way: Way)
    ensures Quiet(s, Pressed(s, block, way), block) && Pressed(s, block, way).script == s.script
  {
    hide Quiet, TextEnd;
    match way
    case Remote => NotedQuiet(s, block, "remote programmer reset");
    case Drive => NotedQuiet(s, block, "CMD:RESET on the CURIOSITY drive");
    case Button =>
      QuietText(block, "reset requested");
      LoggedQuiet(s, EV, block, "reset requested");
  }

  lemma RecoveredQuiet(s: State, block: string, r: Recovery)
    ensures Quiet(s, Recovered(s, block, r), block) && Recovered(s, block, r).script == s.script
  {
    hide Quiet, TextEnd, CliReseted, ResetOutside;
    QuietText(block, "timeout");
    LoggedQuiet(s, EV, block, "timeout");
    var out := Logged(s, EV, block, "timeout");
    var cli := CliReseted(out, block, r.cli);
    CliQuiet(out, block, r.cli);
    QuietThen(s, out, cli, block);
    if r.cli.Banner? && r.readyAfterCli {
      NotedQuiet(cli, block, "board ready again");
      QuietThen(s, cli, Noted(cli, block, "board ready again"), block);
    } else {
      var tried := cli;
      if r.cli.Banner? {
        tried := Noted(cli, block, "cli reset answered but no prompt - falling back");
        NotedQuiet(cli, block, "cli reset answered but no prompt - falling back");
        QuietThen(s, cli, tried, block);
      }
      OutsideQuiet(tried, block, r);
      QuietThen(s, tried, Recovered(s, block, r), block);
    }
  }

  lemma OutsideQuiet(s: State, block: string, r: Recovery)
    ensures Quiet(s, ResetOutside(s, block, r), block) && ResetOutside(s, block, r).script == s.script
  {
    hide Quiet, Pressed, Booted, CapturedText, ReadyText;
    var pressed := Pressed(s, block, r.way);
    var booted := Booted(pressed, block, r.banner);
    var captured := Noted(booted, block, CapturedText(r.banner));
    PressedQuiet(s, block, r.way);
    BootedQuiet(pressed, block, r.banner);
    NotedQuiet(booted, block, CapturedText(r.banner));
    NotedQuiet(captured, block, ReadyText(r.ready));
    QuietThen(s, pressed, booted, block);
    QuietThen(s, booted, captured, block);
    QuietThen(s, captured, Noted(captured, block, ReadyText(r.ready)), block);
  }

  /** A reset, however it goes, ends no block and counts in its own only. */
  lemma ResetQuiet(s: State, block: string)
    ensures Quiet(s, Reset(s, block), block)
    ensures Reset(s, block).script == s.script.(recoveries := LaterRecoveries(s.script.recoveries))
  {
    hide Quiet, Recovered;
    var later := s.(script := s.script.(recoveries := LaterRecoveries(s.script.recoveries)));
    RecoveredQuiet(later, block, FirstRecovery(s.script.recoveries));
    SameSaid(s, later, Reset(s, block), block);
  }

  lemma SameSaid(a: State, b: State, d: State, block: string)
    requires a.said == b.said && Quiet(b, d, block)
    ensures Quiet(a, d, block)
  {
  }

  // ------------------------------------------------------------------------
  // The end of a block
  // ------------------------------------------------------------------------

  function OkOrFail(ok: bool): string { if ok then "ok" else "fail" }

  /** How a block's commands went: to the end, or cut short by an answer that is no reply. */
  datatype Ending = Ended(ok: bool) | Cut(a: Answer)

  /** The verdict; none if the session stops with an exception no block catches. */
  function VerdictOf(e: Ending): Option<string> {
    match e
    case Ended(ok) => Some(OkOrFail(ok))
    case Cut(a) => if a.Broken? then None else Some("timeout")
  }

  /** The block's last lines: a reset after a timeout, then its end. */
  function Closed(s: State, block: string, e: Ending): State {
    match e
    case Ended(ok) => Logged(s, EV, block, "block end " + OkOrFail(ok))
    case Cut(a) => if a.Broken? then s else Logged(Reset(s, block), EV, block, "block end timeout")
  }

  method CloseBlock(board: Board, log: Log, block: string, e: Ending) returns (verdict: Option<string>)
    requires log.Valid() && IsToken(block)
    modifies log, board
    ensures log.Valid() && Now(board, log) == Closed(old(Now(board, log)), block, e) && verdict == VerdictOf(e)
  {
    hide Reset;
    match e {
      case Ended(ok) =>
        LogLine(board, log, EV, block, "block end " + OkOrFail(ok));
        verdict := Some(OkOrFail(ok));
      case Cut(a) =>
        if a.Broken? { return None; }
        HandleTimeout(board, log, block);
        LogLine(board, log, EV, block, "block end timeout");
        verdict := Some("timeout");
    }
  }

  lemma Verdicts()
    ensures IsToken("ok") && IsToken("fail") && IsToken("timeout") && IsToken("not_available")
  {
  }

  /** The end of a block, seen from its start. */
  lemma EndLogged(a: State, s: State, block: string, verdict: string)
    requires Quiet(a, s, block) && IsToken(verdict)
    ensures Within(a.said, Logged(s, EV, block, "block end " + verdict).said, [(block, verdict)], block)
    ensures forall c :: LogCount(Logged(s, EV, block, "block end " + verdict).said, c) == LogCount(s.said, c)
  {
    hide Effect, TextEnd;
    var b := Logged(s, EV, block, "block end " + verdict);
    OneLineSaid(s.said, Line(EV, block, "block end " + verdict));
    EndText(block, verdict);
    EffectIsWithin(s.said, b.said, [(block, verdict)], block, ZERO);
    NoCount(s.said, b.said, [(block, verdict)], block);
    hide Within;
    WithinTrans(a.said, s.said, b.said, [(block, verdict)], block);
  }

  lemma NoCount(a: seq<Line>, b: seq<Line>, ends: seq<(string, string)>, block: string)
    requires Effect(a, b, ends, block, ZERO)
    ensures forall c :: LogCount(b, c) == LogCount(a, c)
  {
    hide LogCount, Plus, LogEnds;
    PlusAssoc(LogCount(a, block), ZERO, ZERO);
  }

  /** A block that ends has exactly one end, with its verdict. */
  lemma ClosedOnce(a: State, s: State, block: string, e: Ending)
    requires Quiet(a, s, block)
    ensures VerdictOf(e).Some? ==> Within(a.said, Closed(s, block, e).said, [(block, VerdictOf(e).value)], block)
    ensures Closed(s, block, e).script.answers == s.script.answers
    ensures Closed(s, block, e).script.grabs == s.script.grabs
  {
    hide Quiet, Within, Reset, IsToken, LogCount;
    Verdicts();
    match e
    case Ended(ok) => EndLogged(a, s, block, OkOrFail(ok));
    case Cut(x) =>
      ResetQuiet(s, block);
      QuietThen(a, s, Reset(s, block), block);
      EndLogged(a, Reset(s, block), block, "timeout");
      assert "block end " + "timeout" == "block end timeout";
  }

  // ------------------------------------------------------------------------
  // Single-command blocks
  // ------------------------------------------------------------------------

  /** A block: its verdict, if it has one, and the state after it. */
  datatype Block = Block(verdict: Option<string>, state: State)

  function Started(s: State, block: string): State { Logged(s, EV, block, "block start") }

  function NotAvailable(s: State, block: string, why: string): Block {
    Block(Some("not_available"),
          Logged(Logged(s, EV, block, "not_available " + why), EV, block, "block end not_available"))
  }

  function BlockEnd(s: State, block: string, e: Ending): Block { Block(VerdictOf(e), Closed(s, block, e)) }

  method LogUnavailable(board: Board, log: Log, block: string, why: string) returns (verdict: Option<string>)
    requires log.Valid() && IsToken(block)
    modifies log
    ensures log.Valid() && Block(verdict, Now(board, log)) == NotAvailable(old(Now(board, log)), block, why)
  {
    LogLine(board, log, EV, block, "not_available " + why);
    LogLine(board, log, EV, block, "block end not_available");
    verdict := Some("not_available");
  }

  function OneEnding(a: Answer, good: bool): Ending { if a.Reply? then Ended(a.ok && good) else Cut(a) }

  /** R1, R3, R6 and R7: one command, unless the board has no such command or it is to be skipped. */
  function SimpleOf(s: State, block: string, capName: string, command: string, caps: set<string>, skip: set<string>)
    : Block
  {
    if block in skip then NotAvailable(Started(s, block), block, "skipped by --skip")
    else if capName !in caps then NotAvailable(Started(s, block), block, capName)
    else
      BlockEnd(Sent(Started(s, block), block, command), block, OneEnding(FirstAnswer(s.script.answers), true))
  }

  method RunSimpleBlock(board: Board, log: Log, block: string, capName: string, command: string, skip: set<string>)
    returns (verdict: Option<string>)
    requires log.Valid() && IsToken(block)
    modifies log, board
    ensures log.Valid()
    ensures Block(verdict, Now(board, log))
            == SimpleOf(old(Now(board, log)), block, capName, command, board.info.caps, skip)
    ensures verdict == CommandVerdict(block !in skip && capName in board.info.caps,
                                      FirstAnswer(old(board.script.answers)), true)
  {
    hide Sent, Closed, CommandVerdict, Proper;
    SimpleProper(Now(board, log), block, capName, command, board.info.caps, skip);
    LogLine(board, log, EV, block, "block start");
    if block in skip {
      verdict := LogUnavailable(board, log, block, "skipped by --skip");
      return;
    }
    if capName !in board.info.caps {
      verdict := LogUnavailable(board, log, block, capName);
      return;
    }
    var a := Send(board, log, block, command);
    verdict := CloseBlock(board, log, block, OneEnding(a, true));
  }

  predicate HasEnd(lines: seq<string>) { exists i :: 0 <= i < |lines| && "@END" <= Strip(lines[i]) }

  /** R2: the chain test's reply must show its end, too. */
  function R2Of(s: State, caps: set<string>): Block {
    if "chain" !in caps then NotAvailable(Started(s, "R2"), "R2", "chain")
    else
      var a, asked := FirstAnswer(s.script.answers), Sent(Started(s, "R2"), "R2", "chain all");
      var ended := HasEnd(LinesOf(a));
      var told := if a.Reply? && a.ok && !ended then Logged(asked, EV, "R2", "chain all: no @END in the reply")
                  else asked;
      BlockEnd(told, "R2", OneEnding(a, ended))
  }

  method RunR2(board: Board, log: Log) returns (verdict: Option<string>)
    requires log.Valid()
    modifies log, board
    ensures log.Valid() && Block(verdict, Now(board, log)) == R2Of(old(Now(board, log)), board.info.caps)
    ensures verdict == CommandVerdict("chain" in board.info.caps, FirstAnswer(old(board.script.answers)),
                                      HasEnd(LinesOf(FirstAnswer(old(board.script.answers)))))
  {
    hide Sent, Closed, HasEnd, CommandVerdict, Proper;
    R2Proper(Now(board, log), board.info.caps);
    assert IsToken("R2");
    LogLine(board, log, EV, "R2", "block start");
    if "chain" !in board.info.caps {
      verdict := LogUnavailable(board, log, "R2", "chain");
      return;
    }
    var a := Send(board, log, "R2", "chain all");
    var ended := HasEnd(LinesOf(a));
    if a.Reply? && a.ok && !ended { LogLine(board, log, EV, "R2", "chain all: no @END in the reply"); }
    verdict := CloseBlock(board, log, "R2", OneEnding(a, ended));
  }

  /** The verdict of a block of one command; `good` is what else its reply must show. */
  function CommandVerdict(available: bool, a: Answer, good: bool): Option<string> {
    if !available then Some("not_available")
    else
      match a
      case Broken => None
      case Silent => Some("timeout")
      case Reply(ok, _) => Some(OkOrFail(ok && good))
  }

  /** A block seen from its start: one end with the verdict, and `n` answers used. */
  ghost predicate Proper(s: State, block: string, b: Block, n: nat) {
    && (b.verdict.Some? ==> Within(s.said, b.state.said, [(block, b.verdict.value)], block))
    && b.state.script.answers == Dropped(s.script.answers, n)
    && b.state.script.grabs == s.script.grabs
  }

  lemma NotAvailableProper(s: State, a: State, block: string, why: string)
    requires Quiet(s, a, block) && a.script == s.script
    ensures Proper(s, block, NotAvailable(a, block, why), 0)
  {
    hide Quiet, Within, TextEnd, IsToken, LogCount;
    Verdicts();
    var t := "not_available " + why;
    assert t[0] == 'n';
    QuietText(block, t);
    var b := Logged(a, EV, block, t);
    LoggedQuiet(a, EV, block, t);
    QuietThen(s, a, b, block);
    EndLogged(s, b, block, "not_available");
    assert "block end " + "not_available" == "block end not_available";
  }

  lemma StartedQuiet(s: State, block: string)
    ensures Quiet(s, Started(s, block), block) && Started(s, block).script == s.script
    ensures Effect(s.said, Started(s, block).said, [], block, ZERO)
  {
    hide Quiet, TextEnd, Effect;
    QuietText(block, "block start");
    LoggedQuiet(s, EV, block, "block start");
    LoggedEffect(s, EV, block, "block start");
  }

  /** One answer decides a block of one command, which is used only if the command was sent. */
  lemma SimpleProper(s: State, block: string, capName: string, command: string, caps: set<string>, skip: set<string>)
    ensures var b := SimpleOf(s, block, capName, command, caps, skip);
            var available := block !in skip && capName in caps;
            && b.verdict == CommandVerdict(available, FirstAnswer(s.script.answers), true)
            && Proper(s, block, b, if available then 1 else 0)
  {
    hide Quiet, Within, Sent, Closed, NotAvailable, Effect;
    StartedQuiet(s, block);
    var start := Started(s, block);
    if block in skip {
      NotAvailableProper(s, start, block, "skipped by --skip");
      UnavailableVerdict(start, block, "skipped by --skip");
    } else if capName !in caps {
      NotAvailableProper(s, start, block, capName);
      UnavailableVerdict(start, block, capName);
    } else {
      SentQuiet(start, block, command);
      SentEffect(start, block, command);
      QuietThen(s, start, Sent(start, block, command), block);
      ClosedOnce(s, Sent(start, block, command), block, OneEnding(FirstAnswer(s.script.answers), true));
    }
  }

  lemma UnavailableVerdict(s: State, block: string, why: string)
    ensures NotAvailable(s, block, why).verdict == Some("not_available")
  {
  }

  lemma R2Proper(s: State, caps: set<string>)
    ensures var a := FirstAnswer(s.script.answers);
            && R2Of(s, caps).verdict == CommandVerdict("chain" in caps, a, HasEnd(LinesOf(a)))
            && Proper(s, "R2", R2Of(s, caps), if "chain" in caps then 1 else 0)
  {
    hide Quiet, Within, Sent, Closed, NotAvailable, Effect, HasEnd, TextEnd;
    StartedQuiet(s, "R2");
    var start := Started(s, "R2");
    if "chain" !in caps {
      NotAvailableProper(s, start, "R2", "chain");
      UnavailableVerdict(start, "R2", "chain");
    } else {
      var a, asked := FirstAnswer(s.script.answers), Sent(start, "R2", "chain all");
      var ended := HasEnd(LinesOf(a));
      SentQuiet(start, "R2", "chain all");
      SentEffect(start, "R2", "chain all");
      QuietThen(s, start, asked, "R2");
      var told := asked;
      if a.Reply? && a.ok && !ended {
        told := Logged(asked, EV, "R2", "chain all: no @END in the reply");
        QuietText("R2", "chain all: no @END in the reply");
        LoggedQuiet(asked, EV, "R2", "chain all: no @END in the reply");
        QuietThen(s, asked, told, "R2");
      }
      ClosedOnce(s, told, "R2", OneEnding(a, ended));
    }
  }

  // ------------------------------------------------------------------------
  // R0
  // ------------------------------------------------------------------------

  /** Reached at all? A board that is not is reset. */
  function Synced(s: State, syncs: Option<bool>): State {
    match syncs
    case None => s
    case Some(true) => Logged(s, EV, "R0", "sync: ready")
    case Some(false) => Reset(s, "R0")
  }

  function Pinged(s: State, rtt: Rtt): State {
    match rtt
    case NoPing => s
    case PingSilent => Logged(s, EV, "R0", "rtt: no reply")
    case Rtt(text) => Logged(s, EV, "R0", "rtt " + text)
  }

  /** R0: no timeout of its commands is caught, so every answer but a reply stops the session. */
  function R0Of(s: State, info: Info): Block {
    var ready := Pinged(Synced(Started(s, "R0"), info.syncs), info.rtt);
    var v, s1 := FirstAnswer(ready.script.answers), Sent(ready, "R0", "version");
    if !v.Reply? then Block(None, s1)
    else
      var h, s2 := FirstAnswer(s1.script.answers), Sent(s1, "R0", "help");
      if !h.Reply? then Block(None, s2)
      else
        var t, s3 := FirstAnswer(s2.script.answers), Sent(s2, "R0", "status");
        if !t.Reply? then Block(None, s3)
        else BlockEnd(Logged(s3, EV, "R0", "capabilities: " + info.capsText), "R0", Ended(v.ok && h.ok && t.ok))
  }

  method GetReady(board: Board, log: Log)
    requires log.Valid()
    modifies log, board
    ensures log.Valid()
    ensures Now(board, log) == Pinged(Synced(Started(old(Now(board, log)), "R0"), board.info.syncs), board.info.rtt)
  {
    hide Reset;
    assert IsToken("R0");
    LogLine(board, log, EV, "R0", "block start");
    if board.info.syncs == Some(true) {
      LogLine(board, log, EV, "R0", "sync: ready");
    } else if board.info.syncs == Some(false) {
      HandleTimeout(board, log, "R0");
    }
    match board.info.rtt {
      case NoPing =>
      case PingSilent => LogLine(board, log, EV, "R0", "rtt: no reply");
      case Rtt(text) => LogLine(board, log, EV, "R0", "rtt " + text);
    }
  }

  method RunR0(board: Board, log: Log) returns (verdict: Option<string>)
    requires log.Valid()
    modifies log, board
    ensures log.Valid()
    ensures Block(verdict, Now(board, log)) == R0Of(old(Now(board, log)), board.info)
    ensures verdict == R0Verdict(old(board.script.answers))
  {
    R0Proper(Now(board, log), board.info);
    hide R0Verdict, Proper;
    hide Sent, Closed, Pinged, Synced, Started;
    assert IsToken("R0");
    GetReady(board, log);
    var v := Send(board, log, "R0", "version");
    if !v.Reply? { return None; }
    var h := Send(board, log, "R0", "help");
    if !h.Reply? { return None; }
    var s := Send(board, log, "R0", "status");
    if !s.Reply? { return None; }
    LogLine(board, log, EV, "R0", "capabilities: " + board.info.capsText);
    verdict := CloseBlock(board, log, "R0", Ended(v.ok && h.ok && s.ok));
  }

  /** R0 needs three replies, and all of them accepted. */
  function R0Verdict(answers: seq<Answer>): Option<string> {
    var v, h, s := NthAnswer(answers, 0), NthAnswer(answers, 1), NthAnswer(answers, 2);
    if v.Reply? && h.Reply? && s.Reply? then Some(OkOrFail(v.ok && h.ok && s.ok)) else None
  }

  lemma ReadyQuiet(s: State, syncs: Option<bool>, rtt: Rtt)
    ensures var ready := Pinged(Synced(Started(s, "R0"), syncs), rtt);
            && Quiet(s, ready, "R0")
            && ready.script.answers == s.script.answers && ready.script.grabs == s.script.grabs
  {
    hide Quiet, Reset, Effect, TextEnd;
    StartedQuiet(s, "R0");
    var start := Started(s, "R0");
    var synced := Synced(start, syncs);
    match syncs {
      case None => QuietSelf(start, "R0");
      case Some(true) =>
        QuietText("R0", "sync: ready");
        LoggedQuiet(start, EV, "R0", "sync: ready");
      case Some(false) => ResetQuiet(start, "R0");
    }
    QuietThen(s, start, synced, "R0");
    match rtt {
      case NoPing => QuietSelf(synced, "R0");
      case PingSilent =>
        QuietText("R0", "rtt: no reply");
        LoggedQuiet(synced, EV, "R0", "rtt: no reply");
      case Rtt(text) =>
        assert ("rtt " + text)[0] == 'r';
        QuietText("R0", "rtt " + text);
        LoggedQuiet(synced, EV, "R0", "rtt " + text);
    }
    QuietThen(s, synced, Pinged(synced, rtt), "R0");
  }

  lemma R0Proper(s: State, info: Info)
    ensures var b := R0Of(s, info);
            b.verdict == R0Verdict(s.script.answers) && (b.verdict.Some? ==> Proper(s, "R0", b, 3))
  {
    hide Quiet, Within, Sent, Closed, Effect, TextEnd, Pinged, Synced;
    ReadyQuiet(s, info.syncs, info.rtt);
    var ready := Pinged(Synced(Started(s, "R0"), info.syncs), info.rtt);
    var s1 := Sent(ready, "R0", "version");
    var s2 := Sent(s1, "R0", "help");
    var s3 := Sent(s2, "R0", "status");
    SentEffect(ready, "R0", "version");
    SentEffect(s1, "R0", "help");
    SentEffect(s2, "R0", "status");
    SentQuiet(ready, "R0", "version");
    SentQuiet(s1, "R0", "help");
    SentQuiet(s2, "R0", "status");
    QuietThen(s, ready, s1, "R0");
    QuietThen(s, s1, s2, "R0");
    QuietThen(s, s2, s3, "R0");
    var t := "capabilities: " + info.capsText;
    assert t[0] == 'c';
    QuietText("R0", t);
    LoggedQuiet(s3, EV, "R0", t);
    var told := Logged(s3, EV, "R0", t);
    QuietThen(s, s3, told, "R0");
    if R0Of(s, info).verdict.Some? {
      ClosedOnce(s, told, "R0", Ended(FirstAnswer(ready.script.answers).ok && FirstAnswer(s1.script.answers).ok
          && FirstAnswer(s2.script.answers).ok));
    }
  }
}
