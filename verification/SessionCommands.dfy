/** What a session sends to its board (tools/board_run.py): the commands of every
    block, up to the first one that is not answered, and that the log's TX lines
    are exactly what the board heard. */
module SessionCommands {
  import opened Common
  import opened Text
  import opened RunLog
  import opened BoardRun
  import opened Session
  import opened StreamBlocks
  import opened RateBlocks
  import opened FullSession

  // ------------------------------------------------------------------------
  // What is sent
  // ------------------------------------------------------------------------

  /** A command or a grab, under the name of the block it is logged in. */
  type Call = (string, string)

  /** The log's TX lines. */
  function TxLines(said: seq<Line>): seq<Call> {
    if said == [] then []
    else
      var l := said[|said| - 1];
      TxLines(said[..|said| - 1]) + if l.dir == TX then [(l.block, l.text)] else []
  }

  function Texts(calls: seq<Call>): (t: seq<string>)
    ensures |t| == |calls|
  {
    seq(|calls|, i requires 0 <= i < |calls| => calls[i].1)
  }

  lemma TextsConcat(x: seq<Call>, y: seq<Call>)
    ensures Texts(x + y) == Texts(x) + Texts(y)
  {
  }

  /** From s to t the board hears these calls, and they are the TX lines logged. */
  ghost predicate Calls(s: State, t: State, calls: seq<Call>) {
    t.heard == s.heard + Texts(calls) && TxLines(t.said) == TxLines(s.said) + calls
  }

  lemma NoCalls(s: State, t: State)
    requires t.heard == s.heard && t.said == s.said
    ensures Calls(s, t, [])
  {
  }

  lemma CallsThen(s: State, t: State, u: State, x: seq<Call>, y: seq<Call>)
    requires Calls(s, t, x) && Calls(t, u, y)
    ensures Calls(s, u, x + y)
  {
    TextsConcat(x, y);
    hide Texts, TxLines;
    assert TxLines(s.said) + (x + y) == (TxLines(s.said) + x) + y;
    assert s.heard + (Texts(x) + Texts(y)) == (s.heard + Texts(x)) + Texts(y);
  }

  lemma NothingSent(s: State, t: State, u: State, x: seq<Call>)
    ensures Calls(s, t, x) && Calls(t, u, []) ==> Calls(s, u, x)
    ensures Calls(s, t, []) && Calls(t, u, x) ==> Calls(s, u, x)
  {
    assert x + [] == x && [] + x == x;
    if Calls(s, t, x) && Calls(t, u, []) { CallsThen(s, t, u, x, []); }
    if Calls(s, t, []) && Calls(t, u, x) { CallsThen(s, t, u, [], x); }
  }

  lemma LoggedCalls(s: State, dir: Dir, block: string, text: string)
    requires dir != TX
    ensures Calls(s, Logged(s, dir, block, text), [])
  {
    var l := Line(dir, block, text);
    assert (s.said + [l])[..|s.said|] == s.said;
  }

  lemma {:induction false} ReceivedCalls(s: State, block: string, lines: seq<string>)
    ensures Calls(s, Received(s, block, lines), [])
  {
    hide Calls, Logged;
    if lines == [] {
      NoCalls(s, s);
    } else {
      var mid := Received(s, block, lines[..|lines| - 1]);
      ReceivedCalls(s, block, lines[..|lines| - 1]);
      LoggedCalls(mid, RX, block, lines[|lines| - 1]);
      NothingSent(s, mid, Received(s, block, lines), []);
    }
  }

  lemma TxCalls(s: State, t: State, block: string, text: string)
    requires t.heard == s.heard + [text] && t.said == s.said + [Line(TX, block, text)]
    ensures Calls(s, t, [(block, text)])
  {
    assert t.said[..|s.said|] == s.said;
  }

  /** A command is heard and logged once. */
  lemma SentCalls(s: State, block: string, command: string)
    ensures Calls(s, Sent(s, block, command), [(block, command)])
  {
    var a := FirstAnswer(s.script.answers);
    var asked := Logged(s, TX, block, command).(script := s.script.(answers := LaterAnswers(s.script.answers)),
                                                heard := s.heard + [command]);
    TxCalls(s, asked, block, command);
    if a.Reply? {
      hide Calls, Received;
      var heard := Received(asked, block, a.lines);
      ReceivedCalls(asked, block, a.lines);
      LoggedCalls(heard, RX, block, Mark(a.ok));
      NothingSent(s, asked, heard, [(block, command)]);
      NothingSent(s, heard, Sent(s, block, command), [(block, command)]);
    }
  }

  // ------------------------------------------------------------------------
  // Resets and ends send nothing
  // ------------------------------------------------------------------------

  lemma {:induction false} BootedCalls(s: State, block: string, lines: seq<string>)
    ensures Calls(s, Booted(s, block, lines), [])
  {
    hide Calls, Logged, Strip, WithoutCr;
    if lines == [] {
      NoCalls(s, s);
    } else {
      var l, mid := lines[|lines| - 1], Booted(s, block, lines[..|lines| - 1]);
      BootedCalls(s, block, lines[..|lines| - 1]);
      LoggedCalls(mid, RX, block, WithoutCr(l));
      NothingSent(s, mid, Booted(s, block, lines), []);
    }
  }

  lemma CliCalls(s: State, block: string, cli: CliReset)
    ensures Calls(s, CliReseted(s, block, cli), [])
  {
    hide Calls, Logged, Booted;
    match cli
    case NoSerial => NoCalls(s, s);
    case CannotReset(name) => LoggedCalls(s, EV, block, "reset: " + ("cli reset not possible (" + name + ")"));
    case NoBanner => LoggedCalls(s, EV, block, "reset: " + "cli reset - no answer");
    case Banner(lines) =>
      var seen := Noted(s, block, "cli reset - boot banner seen");
      LoggedCalls(s, EV, block, "reset: " + "cli reset - boot banner seen");
      BootedCalls(seen, block, lines);
      NothingSent(s, seen, Booted(seen, block, lines), []);
  }

  lemma OutsideCalls(s: State, block: string, r: Recovery)
    ensures Calls(s, ResetOutside(s, block, r), [])
  {
    hide Calls, Logged, Booted, CapturedText, ReadyText;
    var pressed := Pressed(s, block, r.way);
    match r.way {
      case Remote => LoggedCalls(s, EV, block, "reset: " + "remote programmer reset");
      case Drive => LoggedCalls(s, EV, block, "reset: " + "CMD:RESET on the CURIOSITY drive");
      case Button => LoggedCalls(s, EV, block, "reset requested");
    }
    var booted := Booted(pressed, block, r.banner);
    BootedCalls(pressed, block, r.banner);
    NothingSent(s, pressed, booted, []);
    var captured := Noted(booted, block, CapturedText(r.banner));
    LoggedCalls(booted, EV, block, "reset: " + CapturedText(r.banner));
    NothingSent(s, booted, captured, []);
    LoggedCalls(captured, EV, block, "reset: " + ReadyText(r.ready));
    NothingSent(s, captured, ResetOutside(s, block, r), []);
  }

  lemma RecoveredCalls(s: State, block: string, r: Recovery)
    ensures Calls(s, Recovered(s, block, r), [])
  {
    hide Calls, Logged, CliReseted, ResetOutside;
    var out := Logged(s, EV, block, "timeout");
    LoggedCalls(s, EV, block, "timeout");
    var cli := CliReseted(out, block, r.cli);
    CliCalls(out, block, r.cli);
    NothingSent(s, out, cli, []);
    if r.cli.Banner? && r.readyAfterCli {
      LoggedCalls(cli, EV, block, "reset: " + "board ready again");
      NothingSent(s, cli, Recovered(s, block, r), []);
    } else {
      var tried := cli;
      if r.cli.Banner? {
        tried := Noted(cli, block, "cli reset answered but no prompt - falling back");
        LoggedCalls(cli, EV, block, "reset: " + "cli reset answered but no prompt - falling back");
        NothingSent(s, cli, tried, []);
      }
      OutsideCalls(tried, block, r);
      NothingSent(s, tried, Recovered(s, block, r), []);
    }
  }

  lemma ResetCalls(s: State, block: string)
    ensures Calls(s, Reset(s, block), [])
  {
    hide Calls, Recovered;
    var later := s.(script := s.script.(recoveries := LaterRecoveries(s.script.recoveries)));
    NoCalls(s, later);
    RecoveredCalls(later, block, FirstRecovery(s.script.recoveries));
    NothingSent(s, later, Reset(s, block), []);
  }

  lemma ClosedCalls(s: State, block: string, e: Ending)
    ensures Calls(s, Closed(s, block, e), [])
  {
    hide Calls, Logged, Reset;
    match e
    case Ended(ok) => LoggedCalls(s, EV, block, "block end " + OkOrFail(ok));
    case Cut(a) =>
      NoCalls(s, s);
      ResetCalls(s, block);
      LoggedCalls(Reset(s, block), EV, block, "block end timeout");
      NothingSent(s, Reset(s, block), Logged(Reset(s, block), EV, block, "block end timeout"), []);
  }

  lemma UnavailableCalls(s: State, block: string, why: string)
    ensures Calls(s, NotAvailable(Started(s, block), block, why).state, [])
  {
    hide Calls, Logged;
    var start := Started(s, block);
    LoggedCalls(s, EV, block, "block start");
    var told := Logged(start, EV, block, "not_available " + why);
    LoggedCalls(start, EV, block, "not_available " + why);
    LoggedCalls(told, EV, block, "block end not_available");
    NothingSent(s, start, told, []);
    NothingSent(s, told, NotAvailable(start, block, why).state, []);
  }

  // ------------------------------------------------------------------------
  // Requests: commands and grab loops in turn
  // ------------------------------------------------------------------------

  datatype Request = Ask(block: string, command: string) | Grabs(block: string, n: nat)

  function Repeated(c: Call, n: nat): seq<Call> { if n == 0 then [] else Repeated(c, n - 1) + [c] }

  /** How many answers and grabs the requests use. */
  function AskTotal(items: seq<Request>): nat {
    if items == [] then 0 else AskTotal(items[..|items| - 1]) + if items[|items| - 1].Ask? then 1 else 0
  }

  function GrabTotal(items: seq<Request>): nat {
    if items == [] then 0
    else GrabTotal(items[..|items| - 1]) + if items[|items| - 1].Grabs? then items[|items| - 1].n else 0
  }

  /** A command is replied to, or all grabs come. */
  predicate Comes(r: Request, a: seq<Answer>, g: seq<GrabAnswer>) {
    match r
    case Ask(_, _) => FirstAnswer(a).Reply?
    case Grabs(_, n) => Taken(g, n) == n
  }

  /** The grabs that come and, if the loop is cut short, the one more that was asked for. */
  function Made(r: Request, g: seq<GrabAnswer>): seq<Call> {
    match r
    case Ask(block, command) => [(block, command)]
    case Grabs(block, n) => var k := Taken(g, n); Repeated((block, "stream grab"), if k == n then n else k + 1)
  }

  predicate AllCome(items: seq<Request>, a: seq<Answer>, g: seq<GrabAnswer>) {
    items == []
    || (var before := items[..|items| - 1];
        && AllCome(before, a, g)
        && Comes(items[|items| - 1], Dropped(a, AskTotal(before)), Dropped(g, GrabTotal(before))))
  }

  /** What is sent: each request if all before it came. */
  function Sends(items: seq<Request>, a: seq<Answer>, g: seq<GrabAnswer>): seq<Call> {
    if items == [] then []
    else
      var before := items[..|items| - 1];
      Sends(before, a, g)
      + if AllCome(before, a, g) then Made(items[|items| - 1], Dropped(g, GrabTotal(before))) else []
  }

  /** All of it. */
  function Whole(items: seq<Request>): seq<Call> {
    if items == [] then []
    else
      Whole(items[..|items| - 1])
      + match items[|items| - 1]
        case Ask(block, command) => [(block, command)]
        case Grabs(block, n) => Repeated((block, "stream grab"), n)
  }

  lemma {:induction false} AllSent(items: seq<Request>, a: seq<Answer>, g: seq<GrabAnswer>)
    requires AllCome(items, a, g)
    ensures Sends(items, a, g) == Whole(items)
  {
    if items != [] { AllSent(items[..|items| - 1], a, g); }
  }

  /** A part that makes these requests from `start` on. */
  ghost predicate Makes(start: State, p: Part, items: seq<Request>) {
    var a, g := start.script.answers, start.script.grabs;
    && Calls(start, p.state, Sends(items, a, g))
    && (p.end.Ended? <==> AllCome(items, a, g))
    && (p.end.Ended? ==>
          p.state.script.answers == Dropped(a, AskTotal(items)) && p.state.script.grabs == Dropped(g, GrabTotal(items)))
  }

  lemma BegunMakes(start: State, s: State)
    requires Calls(start, s, []) && s.script.answers == start.script.answers && s.script.grabs == start.script.grabs
    ensures Makes(start, Begun(s), [])
  {
  }

  lemma OneMore(items: seq<Request>, r: Request, a: seq<Answer>, g: seq<GrabAnswer>)
    ensures var all, u, v := items + [r], Dropped(a, AskTotal(items)), Dropped(g, GrabTotal(items));
            && AskTotal(all) == AskTotal(items) + (if r.Ask? then 1 else 0)
            && GrabTotal(all) == GrabTotal(items) + (if r.Grabs? then r.n else 0)
            && (AllCome(all, a, g) <==> AllCome(items, a, g) && Comes(r, u, v))
            && Sends(all, a, g) == Sends(items, a, g) + if AllCome(items, a, g) then Made(r, v) else []
  {
    assert (items + [r])[..|items + [r]| - 1] == items;
    hide Comes, Made;
  }

  lemma CutMakes(start: State, p: Part, items: seq<Request>, r: Request)
    requires Makes(start, p, items) && p.end.Cut?
    ensures Makes(start, p, items + [r])
  {
    var a, g := start.script.answers, start.script.grabs;
    OneMore(items, r, a, g);
    hide Calls, Sends, AllCome, AskTotal, GrabTotal, Dropped;
    assert Sends(items, a, g) + [] == Sends(items, a, g);
  }

  /** p goes on to q with one more request. */
  ghost predicate GoesOn(p: Part, q: Part, r: Request) {
    var a, g := p.state.script.answers, p.state.script.grabs;
    && Calls(p.state, q.state, Made(r, g)) && (q.end.Ended? <==> Comes(r, a, g))
    && (q.end.Ended? ==>
          && q.state.script.answers == Dropped(a, if r.Ask? then 1 else 0)
          && q.state.script.grabs == Dropped(g, if r.Grabs? then r.n else 0))
  }

  lemma MoreMakes(start: State, p: Part, q: Part, items: seq<Request>, r: Request)
    requires Makes(start, p, items) && p.end.Ended? && GoesOn(p, q, r)
    ensures Makes(start, q, items + [r])
  {
    hide Calls, Sends, AllCome, AskTotal, GrabTotal, Dropped, Made, Comes;
    var a, g := start.script.answers, start.script.grabs;
    OneMore(items, r, a, g);
    NthDropped(a, AskTotal(items), if r.Ask? then 1 else 0);
    DroppedTwice(g, GrabTotal(items), if r.Grabs? then r.n else 0);
    CallsThen(start, p.state, q.state, Sends(items, a, g), Made(r, p.state.script.grabs));
  }

  lemma ToldGoes(p: Part, sub: string, command: string, judged: bool)
    requires p.end.Ended?
    ensures GoesOn(p, Told(p, sub, command, judged), Ask(sub, command))
  {
    SentCalls(p.state, sub, command);
    SentEffect(p.state, sub, command);
    assert Dropped(p.state.script.answers, 0) == p.state.script.answers;
    NextAnswer(p.state.script.answers, 0);
    hide Calls, Sent, Effect, TextsCount;
  }

  lemma ToldMakes(start: State, p: Part, items: seq<Request>, sub: string, command: string, judged: bool)
    requires Makes(start, p, items)
    ensures Makes(start, Told(p, sub, command, judged), items + [Ask(sub, command)])
  {
    hide Makes, GoesOn;
    if p.end.Cut? {
      CutMakes(start, p, items, Ask(sub, command));
    } else {
      ToldGoes(p, sub, command, judged);
      MoreMakes(start, p, Told(p, sub, command, judged), items, Ask(sub, command));
    }
  }

  lemma GrabLoggedCalls(s: State, block: string, i: nat, a: GrabAnswer, check: bool)
    requires a.Grabbed?
    ensures Calls(s, GrabLogged(s, block, i, a, check), [])
  {
    hide Calls, Logged, GrabSummary, GrabNote, NoteText;
    var summed, note := Logged(s, RX, block, GrabSummary(a.frame)), GrabNote(a, check);
    LoggedCalls(s, RX, block, GrabSummary(a.frame));
    if note.Some? {
      LoggedCalls(summed, EV, block, NoteText(i, note.value));
      NothingSent(s, summed, GrabLogged(s, block, i, a, check), []);
    }
  }

  lemma StepCalls(s: State, before: State, block: string, i: nat, k: nat, a: GrabAnswer, check: bool)
    requires a.Grabbed? && Calls(s, before, Repeated((block, "stream grab"), k))
    ensures Calls(s, GrabLogged(GrabAsked(before, block), block, i, a, check), Repeated((block, "stream grab"), k + 1))
  {
    var c, asked := (block, "stream grab"), GrabAsked(before, block);
    TxCalls(before, asked, block, "stream grab");
    hide Calls, GrabLogged, GrabAsked;
    CallsThen(s, before, asked, Repeated(c, k), [c]);
    GrabLoggedCalls(asked, block, i, a, check);
    NothingSent(s, asked, GrabLogged(asked, block, i, a, check), Repeated(c, k + 1));
  }

  lemma {:induction false} StepsCalls(s: State, block: string, k: nat, check: bool)
    requires k <= |s.script.grabs| && forall i :: 0 <= i < k ==> s.script.grabs[i].Grabbed?
    ensures Calls(s, GrabSteps(s, block, k, check), Repeated((block, "stream grab"), k))
  {
    hide Calls, GrabLogged, GrabAsked;
    if k == 0 {
      NoCalls(s, s);
    } else {
      StepsCalls(s, block, k - 1, check);
      StepCalls(s, GrabSteps(s, block, k - 1, check), block, k - 1, k - 1, s.script.grabs[k - 1], check);
    }
  }

  lemma LoopedCalls(s: State, block: string, n: nat, check: bool)
    ensures var k := Taken(s.script.grabs, n);
            Calls(s, Looped(s, block, n, check), Repeated((block, "stream grab"), if k == n then n else k + 1))
  {
    var c, k := (block, "stream grab"), Taken(s.script.grabs, n);
    var after := GrabSteps(s, block, k, check);
    StepsCalls(s, block, k, check);
    if k < n {
      TxCalls(after, GrabAsked(after, block), block, "stream grab");
      hide Calls, GrabSteps, GrabAsked;
      CallsThen(s, after, GrabAsked(after, block), Repeated(c, k), [c]);
    }
  }

  lemma GrabbingGoes(p: Part, sub: string, n: nat, check: bool)
    requires p.end.Ended?
    ensures var q, g := Grabbing(p, sub, n, check), p.state.script.grabs;
            && q.state == Looped(p.state, sub, n, check) && (q.end.Ended? <==> Taken(g, n) == n)
            && (q.end.Ended? ==>
                  q.state.script.answers == p.state.script.answers && q.state.script.grabs == Dropped(g, n))
  {
    hide Looped, Effect, Taken, GoodGrabs, AllGood, Records, SumOf, Dropped, LeftGrabs;
    LoopEffect(p.state, sub, n, check);
    GoodGrabsIff(p.state.script.grabs, n, check);
  }

  lemma LoopGoes(p: Part, sub: string, n: nat, check: bool)
    requires p.end.Ended?
    ensures GoesOn(p, Grabbing(p, sub, n, check), Grabs(sub, n))
  {
    LoopedCalls(p.state, sub, n, check);
    GrabbingGoes(p, sub, n, check);
    assert Dropped(p.state.script.answers, 0) == p.state.script.answers;
    hide Calls, Looped, Grabbing, Repeated, Dropped, Taken;
  }

  lemma GrabbingMakes(start: State, p: Part, items: seq<Request>, sub: string, n: nat, check: bool)
    requires Makes(start, p, items)
    ensures Makes(start, Grabbing(p, sub, n, check), items + [Grabs(sub, n)])
  {
    hide Makes, GoesOn;
    if p.end.Cut? {
      CutMakes(start, p, items, Grabs(sub, n));
    } else {
      LoopGoes(p, sub, n, check);
      hide Grabbing;
      MoreMakes(start, p, Grabbing(p, sub, n, check), items, Grabs(sub, n));
    }
  }

  // ------------------------------------------------------------------------
  // Every block's requests
  // ------------------------------------------------------------------------

  /** A stream: on, the grabs if that is accepted, off. */
  function StreamItems(sub: string, command: string, n: nat, on: Answer): seq<Request> {
    [Ask(sub, command)] + (if Accepted(on) then [Grabs(sub, n)] else []) + [Ask(sub, "stream off")]
  }

  lemma StreamMakes(start: State, s: State, sub: string, command: string, n: nat, check: bool)
    requires Calls(start, s, []) && s.script.answers == start.script.answers && s.script.grabs == start.script.grabs
    ensures Makes(start, StreamOf(s, sub, command, n, check),
                  StreamItems(sub, command, n, NthAnswer(s.script.answers, 0)))
  {
    var on := Told(Begun(s), sub, command, true);
    BegunMakes(start, s);
    ToldMakes(start, Begun(s), [], sub, command, true);
    assert [] + [Ask(sub, command)] == [Ask(sub, command)];
    assert [Ask(sub, command)] + [] == [Ask(sub, command)];
    OnEnds(s, sub, command);
    hide Makes, Calls, Told, Grabbing;
    if on.end == Ended(true) {
      GrabbingMakes(start, on, [Ask(sub, command)], sub, n, check);
      ToldMakes(start, Grabbing(on, sub, n, check), [Ask(sub, command)] + [Grabs(sub, n)], sub, "stream off", true);
    } else {
      ToldMakes(start, on, [Ask(sub, command)], sub, "stream off", true);
    }
  }

  lemma OnEnds(s: State, sub: string, command: string)
    ensures Told(Begun(s), sub, command, true).end == Ended(true) <==> Accepted(NthAnswer(s.script.answers, 0))
  {
    hide Sent;
  }

  /** The GUI's: the size asked and set, a stream of 4000 ksps, the DAC's triangle, ten grabs, the size asked again,
      the DAC and the stream off, the first size set again. */
  function GuiItems(a: seq<Answer>): seq<Request> {
    var orig := BufHalf(LinesOf(NthAnswer(a, 0)));
    [Ask("R4.gui", "buf"), Ask("R4.gui", "buf 512"), Ask("R4.gui", "stream on 4000")]
    + (if Accepted(NthAnswer(a, 2)) then
         [Ask("R4.gui", "dac 2 on 256 3000 39"), Grabs("R4.gui", 10), Ask("R4.gui", "buf")]
       else [])
    + [Ask("R4.gui", "dac 2 off"), Ask("R4.gui", "stream off")]
    + if orig.Some? then [Ask("R4.gui", "buf " + Decimal(orig.value))] else []
  }

  lemma GuiStartMakes(s: State)
    ensures Makes(s, GuiStart(s, "R4.gui"),
                  [Ask("R4.gui", "buf"), Ask("R4.gui", "buf 512"), Ask("R4.gui", "stream on 4000")])
  {
    var sub := "R4.gui";
    var p1 := Told(Begun(s), sub, "buf", true);
    var p2 := Told(p1, sub, "buf 512", true);
    NoCalls(s, s);
    BegunMakes(s, s);
    assert "buf " + Decimal(GUI_BUF) == "buf 512" by { Decimals512(); }
    hide Makes, Told, Decimal;
    var b, b512, on := Ask(sub, "buf"), Ask(sub, "buf 512"), Ask(sub, "stream on 4000");
    ToldMakes(s, Begun(s), [], sub, "buf", true);
    ToldMakes(s, p1, [] + [b], sub, "buf 512", true);
    ToldMakes(s, p2, [] + [b] + [b512], sub, "stream on 4000", true);
    assert [] + [b] + [b512] + [on] == [b, b512, on];
  }

  lemma Decimals512()
    ensures Decimal(512) == "512"
  {
    assert Decimal(5) == "5" && Decimal(51) == "51";
  }

  lemma GuiMakes(s: State)
    ensures Makes(s, GuiOf(s, "R4.gui"), GuiItems(s.script.answers))
  {
    var sub, a := "R4.gui", s.script.answers;
    var start, orig := GuiStart(s, sub), BufHalf(LinesOf(NthAnswer(a, 0)));
    var items := [Ask(sub, "buf"), Ask(sub, "buf 512"), Ask(sub, "stream on 4000")];
    GuiStartMakes(s);
    GuiStreamMakes(s, start, items);
    var streamed := if Accepted(NthAnswer(a, 2)) then GuiStream(start, sub) else start;
    var more: seq<Request> := if Accepted(NthAnswer(a, 2)) then
        [Ask(sub, "dac 2 on 256 3000 39"), Grabs(sub, 10), Ask(sub, "buf")] else [];
    assert items + [] == items;
    hide Makes, GuiStart, GuiStream, BufHalf, GuiStop, InEffect;
    GuiStopMakes(s, streamed, items + more, orig);
    var stopped := GuiStop(streamed, sub, orig);
    JudgedMakes(s, stopped, GuiItems(a), orig, GuiHalf(a));
  }

  lemma GuiStreamMakes(s: State, p: Part, items: seq<Request>)
    requires Makes(s, p, items)
    ensures Makes(s, GuiStream(p, "R4.gui"),
                  items + [Ask("R4.gui", "dac 2 on 256 3000 39"), Grabs("R4.gui", 10), Ask("R4.gui", "buf")])
  {
    hide Makes, Told, Grabbing;
    var sub := "R4.gui";
    var dac, ten, buf := Ask(sub, "dac 2 on 256 3000 39"), Grabs(sub, 10), Ask(sub, "buf");
    var p1 := Told(p, sub, "dac 2 on 256 3000 39", true);
    ToldMakes(s, p, items, sub, "dac 2 on 256 3000 39", true);
    GrabbingMakes(s, p1, items + [dac], sub, GUI_GRABS, false);
    ToldMakes(s, Grabbing(p1, sub, GUI_GRABS, false), items + [dac] + [ten], sub, "buf", false);
    assert items + [dac] + [ten] + [buf] == items + [dac, ten, buf];
  }

  lemma GuiStopMakes(s: State, p: Part, items: seq<Request>, orig: Option<nat>)
    requires Makes(s, p, items)
    ensures Makes(s, GuiStop(p, "R4.gui", orig),
                  items + [Ask("R4.gui", "dac 2 off"), Ask("R4.gui", "stream off")]
                  + if orig.Some? then [Ask("R4.gui", "buf " + Decimal(orig.value))] else [])
  {
    hide Makes, Told, Decimal;
    var sub := "R4.gui";
    var dac, off := Ask(sub, "dac 2 off"), Ask(sub, "stream off");
    var p1 := Told(p, sub, "dac 2 off", true);
    ToldMakes(s, p, items, sub, "dac 2 off", true);
    ToldMakes(s, p1, items + [dac], sub, "stream off", true);
    assert items + [dac] + [off] == items + [dac, off];
    if orig.Some? {
      ToldMakes(s, Told(p1, sub, "stream off", true), items + [dac, off], sub, "buf " + Decimal(orig.value), true);
    } else {
      assert items + [dac, off] + [] == items + [dac, off];
    }
  }

  lemma JudgedMakes(s: State, p: Part, items: seq<Request>, orig: Option<nat>, half: Option<nat>)
    requires Makes(s, p, items)
    ensures Makes(s, Judged(p, "R4.gui", orig, half), items)
  {
    hide Calls, InEffect, Sends, AllCome, AskTotal, GrabTotal, Dropped;
    var q := Judged(p, "R4.gui", orig, half);
    LoggedCalls(p.state, EV, "R4.gui", "buf 512 not in effect");
    if q.state != p.state {
      NothingSent(s, p.state, q.state, Sends(items, s.script.answers, s.script.grabs));
    }
  }

  // ------------------------------------------------------------------------
  // R4
  // ------------------------------------------------------------------------

  /** The same of several sub-blocks. */
  ghost predicate RatesMake(start: State, r: Rates, items: seq<Request>) {
    var a, g := start.script.answers, start.script.grabs;
    && Calls(start, r.state, Sends(items, a, g))
    && (r.end.Ended? <==> AllCome(items, a, g))
    && (r.end.Ended? ==>
          r.state.script.answers == Dropped(a, AskTotal(items)) && r.state.script.grabs == Dropped(g, GrabTotal(items)))
  }

  /** Requests after others. */
  ghost predicate Follows(x: seq<Request>, y: seq<Request>, a: seq<Answer>, g: seq<GrabAnswer>) {
    var u, v := Dropped(a, AskTotal(x)), Dropped(g, GrabTotal(x));
    && AskTotal(x + y) == AskTotal(x) + AskTotal(y) && GrabTotal(x + y) == GrabTotal(x) + GrabTotal(y)
    && (AllCome(x + y, a, g) <==> AllCome(x, a, g) && AllCome(y, u, v))
    && Sends(x + y, a, g) == Sends(x, a, g) + if AllCome(x, a, g) then Sends(y, u, v) else []
  }

  lemma {:induction false} Concat(x: seq<Request>, y: seq<Request>, a: seq<Answer>, g: seq<GrabAnswer>)
    ensures Follows(x, y, a, g)
  {
    if y == [] {
      assert x + y == x;
    } else {
      hide Follows, Sends, AllCome, AskTotal, GrabTotal, Dropped;
      var n := |y| - 1;
      Concat(x, y[..n], a, g);
      FollowsMore(x, y[..n], y[n], a, g);
      assert y == y[..n] + [y[n]];
    }
  }

  lemma FollowsMore(x: seq<Request>, y: seq<Request>, r: Request, a: seq<Answer>, g: seq<GrabAnswer>)
    requires Follows(x, y, a, g)
    ensures Follows(x, y + [r], a, g)
  {
    hide Sends, AllCome, AskTotal, GrabTotal, Dropped, Made, Comes;
    assert x + (y + [r]) == (x + y) + [r];
    var u, v := Dropped(a, AskTotal(x)), Dropped(g, GrabTotal(x));
    OneMore(x + y, r, a, g);
    OneMore(y, r, u, v);
    NthDropped(a, AskTotal(x), AskTotal(y));
    DroppedTwice(g, GrabTotal(x), GrabTotal(y));
    var m := Made(r, Dropped(v, GrabTotal(y)));
    assert (Sends(x, a, g) + Sends(y, u, v)) + m == Sends(x, a, g) + (Sends(y, u, v) + m);
  }

  lemma JoinedMakes(start: State, r: Rates, items: seq<Request>, sub: string, p: Part, more: seq<Request>)
    requires RatesMake(start, r, items)
    requires r.end.Ended? && Makes(r.state, p, more)
    ensures RatesMake(start, Joined(r, sub, p), items + more)
  {
    var a, g := start.script.answers, start.script.grabs;
    Concat(items, more, a, g);
    NthDropped(a, AskTotal(items), AskTotal(more));
    DroppedTwice(g, GrabTotal(items), GrabTotal(more));
    hide Sends, AllCome, AskTotal, GrabTotal, Dropped, Calls, Comes;
    CallsThen(start, r.state, p.state, Sends(items, a, g), Sends(more, r.state.script.answers, r.state.script.grabs));
  }

  lemma CutRatesMake(start: State, r: Rates, items: seq<Request>, more: seq<Request>)
    requires RatesMake(start, r, items) && r.end.Cut?
    ensures RatesMake(start, r, items + more)
  {
    var a, g := start.script.answers, start.script.grabs;
    Concat(items, more, a, g);
    hide Sends, AllCome, AskTotal, GrabTotal, Dropped, Calls;
    assert Sends(items, a, g) + [] == Sends(items, a, g);
  }

  /** One more rate. */
  lemma RatedMakes(start: State, r: Rates, items: seq<Request>, rate: string)
    requires RatesMake(start, r, items)
    ensures RatesMake(start, Rated(r, rate), items + StreamItems(SubBlock(rate), "stream on " + rate, 50,
                NthAnswer(start.script.answers, AskTotal(items))))
  {
    var sub, a := SubBlock(rate), start.script.answers;
    var more := StreamItems(sub, "stream on " + rate, 50, NthAnswer(a, AskTotal(items)));
    if r.end.Cut? {
      CutRatesMake(start, r, items, more);
    } else {
      NoCalls(r.state, r.state);
      StreamMakes(r.state, r.state, sub, "stream on " + rate, 50, true);
      NthDropped(a, AskTotal(items), 0);
      assert RateOf(r.state, rate) == StreamOf(r.state, sub, "stream on " + rate, 50, true);
      hide RatesMake, Makes, StreamOf, StreamItems;
      AnswerAt(start, r, items);
      JoinedMakes(start, r, items, sub, RateOf(r.state, rate), more);
    }
  }

  lemma AnswerAt(start: State, r: Rates, items: seq<Request>)
    requires RatesMake(start, r, items) && r.end.Ended?
    ensures NthAnswer(r.state.script.answers, 0) == NthAnswer(start.script.answers, AskTotal(items))
  {
    NthDropped(start.script.answers, AskTotal(items), 0);
    hide Calls, Sends, AllCome;
  }

  lemma StreamAsks(sub: string, command: string, n: nat, on: Answer)
    ensures AskTotal(StreamItems(sub, command, n, on)) == 2
  {
    var first, off := Ask(sub, command), Ask(sub, "stream off");
    assert [first][..0] == [] && [first] + [] == [first];
    OneMore([first], off, [], []);
    OneMore([first], Grabs(sub, n), [], []);
    OneMore([first] + [Grabs(sub, n)], off, [], []);
    assert AskTotal([]) == 0;
    OneMore([], first, [], []);
    assert [] + [first] == [first];
    hide AskTotal, AllCome, Sends;
  }

  /** A stream of 50 grabs at each rate. */
  function ThreeRates(a: seq<Answer>): seq<Request> {
    StreamItems("R4.1000", "stream on 1000", 50, NthAnswer(a, 0))
    + StreamItems("R4.4000", "stream on 4000", 50, NthAnswer(a, 2))
    + StreamItems("R4.8000", "stream on 8000", 50, NthAnswer(a, 4))
  }

  /** And what the GUI's buttons send, if the board has their commands. */
  function R4Items(caps: set<string>, a: seq<Answer>): seq<Request> {
    ThreeRates(a) + if "buf" in caps && "dac" in caps then GuiItems(Dropped(a, 6)) else []
  }

  lemma ThreeRatesMake(start: State, s: State)
    requires Calls(start, s, []) && s.script == start.script
    ensures RatesMake(start, RatesUpTo(s, 3), ThreeRates(start.script.answers))
    ensures AskTotal(ThreeRates(start.script.answers)) == 6
  {
    var a, g := start.script.answers, start.script.grabs;
    var i1 := StreamItems("R4.1000", "stream on 1000", 50, NthAnswer(a, 0));
    var i2 := StreamItems("R4.4000", "stream on 4000", 50, NthAnswer(a, 2));
    var i3 := StreamItems("R4.8000", "stream on 8000", 50, NthAnswer(a, 4));
    StreamAsks("R4.1000", "stream on 1000", 50, NthAnswer(a, 0));
    StreamAsks("R4.4000", "stream on 4000", 50, NthAnswer(a, 2));
    StreamAsks("R4.8000", "stream on 8000", 50, NthAnswer(a, 4));
    assert RatesMake(start, RatesUpTo(s, 0), []);
    assert SubBlock("1000") == "R4.1000" && SubBlock("4000") == "R4.4000" && SubBlock("8000") == "R4.8000";
    assert "stream on " + "1000" == "stream on 1000" && "stream on " + "4000" == "stream on 4000";
    assert "stream on " + "8000" == "stream on 8000";
    Concat(i1, i2, a, g);
    Concat(i1 + i2, i3, a, g);
    assert AskTotal([]) == 0 && [] + i1 == i1;
    RatesInTurn(s);
    hide RatesMake, Rated, StreamItems, RatesUpTo, AskTotal, Sends, AllCome, GrabTotal, SubBlock;
    RatedMakes(start, RatesUpTo(s, 0), [], "1000");
    RatedMakes(start, RatesUpTo(s, 1), i1, "4000");
    RatedMakes(start, RatesUpTo(s, 2), i1 + i2, "8000");
  }

  lemma RatesInTurn(s: State)
    ensures RatesUpTo(s, 1) == Rated(RatesUpTo(s, 0), "1000")
    ensures RatesUpTo(s, 2) == Rated(RatesUpTo(s, 1), "4000")
    ensures RatesUpTo(s, 3) == Rated(RatesUpTo(s, 2), "8000")
  {
    hide Rated;
  }

  lemma R4RatesMake(s: State, caps: set<string>)
    ensures RatesMake(s, R4Rates(s, caps), R4Items(caps, s.script.answers))
  {
    var a, start := s.script.answers, Started(s, "R4");
    LoggedCalls(s, EV, "R4", "block start");
    ThreeRatesMake(s, start);
    var r, three := RatesUpTo(start, 3), ThreeRates(a);
    var more := if "buf" in caps && "dac" in caps then GuiItems(Dropped(a, 6)) else [];
    assert R4Items(caps, a) == three + more;
    GuiMakes(r.state);
    FourthAnswers(s, r, three);
    hide Makes, GuiOf, GuiItems, RatesUpTo, ThreeRates;
    if r.end.Cut? {
      CutRatesMake(s, r, three, more);
    } else if "buf" in caps && "dac" in caps {
      hide RatesMake;
      JoinedMakes(s, r, three, "R4.gui", GuiOf(r.state, "R4.gui"), more);
    } else {
      assert three + [] == three;
      NotedMakes(s, r, three);
    }
  }

  lemma FourthAnswers(s: State, r: Rates, items: seq<Request>)
    requires RatesMake(s, r, items) && AskTotal(items) == 6
    ensures r.end.Ended? ==> r.state.script.answers == Dropped(s.script.answers, 6)
  {
    hide Calls, Sends, AllCome;
  }

  lemma NotedMakes(s: State, r: Rates, items: seq<Request>)
    requires RatesMake(s, r, items)
    ensures RatesMake(s, r.(state := Logged(r.state, EV, "R4", "not_available buf/dac")), items)
  {
    hide Sends, AllCome, AskTotal, GrabTotal, Dropped, Calls;
    LoggedCalls(r.state, EV, "R4", "not_available buf/dac");
    NothingSent(s, r.state, Logged(r.state, EV, "R4", "not_available buf/dac"),
                Sends(items, s.script.answers, s.script.grabs));
  }

  // ------------------------------------------------------------------------
  // The blocks of a session
  // ------------------------------------------------------------------------

  /** What a block sends, as long as it is answered. */
  function ItemsOf(i: nat, caps: set<string>, host: Host, a: seq<Answer>): seq<Request>
    requires i < 8
  {
    match i
    case 0 => [Ask("R0", "version"), Ask("R0", "help"), Ask("R0", "status")]
    case 1 => if "regs" in caps then [Ask("R1", "regs")] else []
    case 2 => if "chain" in caps then [Ask("R2", "chain all")] else []
    case 3 => if "R3" !in host.skip && "test" in caps then [Ask("R3", "test all")] else []
    case 4 => if "stream" in caps then R4Items(caps, a) else []
    case 5 => if "stream" in caps then StreamItems("R5", "stream on " + host.r5Input, 10, NthAnswer(a, 0)) else []
    case 6 => if "route" in caps then [Ask("R6", "route list")] else []
    case _ => if "status" in caps then [Ask("R7", "status")] else []
  }

  /** The block sends these requests, and has a verdict other than "timeout" exactly if all are answered. */
  ghost predicate BlockMakes(s: State, b: Block, items: seq<Request>) {
    var a, g := s.script.answers, s.script.grabs;
    && Calls(s, b.state, Sends(items, a, g))
    && (b.verdict.Some? && b.verdict != Some("timeout") <==> AllCome(items, a, g))
  }

  lemma UnavailableMakes(s: State, block: string, why: string)
    ensures BlockMakes(s, NotAvailable(Started(s, block), block, why), [])
  {
    UnavailableCalls(s, block, why);
    UnavailableVerdict(Started(s, block), block, why);
    hide Calls;
    assert "not_available"[0] != "timeout"[0];
  }

  lemma EndMakes(s: State, t: State, items: seq<Request>, block: string, e: Ending)
    requires Calls(s, t, Sends(items, s.script.answers, s.script.grabs))
    requires e.Ended? <==> AllCome(items, s.script.answers, s.script.grabs)
    ensures BlockMakes(s, BlockEnd(t, block, e), items)
  {
    hide Calls, Sends, AllCome;
    ClosedCalls(t, block, e);
    NothingSent(s, t, Closed(t, block, e), Sends(items, s.script.answers, s.script.grabs));
    assert "ok"[0] != "timeout"[0] && "fail"[0] != "timeout"[0];
  }

  lemma OneAsk(s: State, block: string, command: string)
    ensures var items, a := [Ask(block, command)], s.script.answers;
            && Sends(items, a, s.script.grabs) == [(block, command)]
            && (AllCome(items, a, s.script.grabs) <==> FirstAnswer(a).Reply?)
            && Calls(s, Sent(Started(s, block), block, command), [(block, command)])
  {
    assert [Ask(block, command)][..0] == [];
    assert AskTotal([]) == 0 && Dropped(s.script.answers, 0) == s.script.answers;
    assert [] + [(block, command)] == [(block, command)];
    LoggedCalls(s, EV, block, "block start");
    SentCalls(Started(s, block), block, command);
    hide Calls, Sent;
    NothingSent(s, Started(s, block), Sent(Started(s, block), block, command), [(block, command)]);
  }

  lemma SimpleMakes(s: State, block: string, capName: string, command: string, caps: set<string>, skip: set<string>)
    ensures BlockMakes(s, SimpleOf(s, block, capName, command, caps, skip),
                       if block !in skip && capName in caps then [Ask(block, command)] else [])
  {
    hide BlockMakes, Sent, BlockEnd, NotAvailable, Calls, AllCome, Sends;
    UnavailableMakes(s, block, "skipped by --skip");
    UnavailableMakes(s, block, capName);
    OneAsk(s, block, command);
    EndMakes(s, Sent(Started(s, block), block, command), [Ask(block, command)], block,
             OneEnding(FirstAnswer(s.script.answers), true));
  }

  lemma R2Makes(s: State, caps: set<string>)
    ensures BlockMakes(s, R2Of(s, caps), if "chain" in caps then [Ask("R2", "chain all")] else [])
  {
    hide BlockMakes, Sent, BlockEnd, NotAvailable, Calls, AllCome, Sends, HasEnd, Logged;
    UnavailableMakes(s, "R2", "chain");
    OneAsk(s, "R2", "chain all");
    var a, asked := FirstAnswer(s.script.answers), Sent(Started(s, "R2"), "R2", "chain all");
    var told := Logged(asked, EV, "R2", "chain all: no @END in the reply");
    LoggedCalls(asked, EV, "R2", "chain all: no @END in the reply");
    NothingSent(s, asked, told, [("R2", "chain all")]);
    var e := OneEnding(a, HasEnd(LinesOf(a)));
    EndMakes(s, asked, [Ask("R2", "chain all")], "R2", e);
    EndMakes(s, told, [Ask("R2", "chain all")], "R2", e);
  }

  lemma ReadyCalls(s: State, info: Info)
    ensures var ready := Pinged(Synced(Started(s, "R0"), info.syncs), info.rtt);
            && Calls(s, ready, [])
            && ready.script.answers == s.script.answers && ready.script.grabs == s.script.grabs
  {
    ReadyQuiet(s, info.syncs, info.rtt);
    hide Calls, Logged, Quiet, Reset;
    var start := Started(s, "R0");
    LoggedCalls(s, EV, "R0", "block start");
    var synced := Synced(start, info.syncs);
    match info.syncs {
      case None => NoCalls(start, start);
      case Some(true) => LoggedCalls(start, EV, "R0", "sync: ready");
      case Some(false) => ResetCalls(start, "R0");
    }
    NothingSent(s, start, synced, []);
    match info.rtt {
      case NoPing => NoCalls(synced, synced);
      case PingSilent => LoggedCalls(synced, EV, "R0", "rtt: no reply");
      case Rtt(text) => LoggedCalls(synced, EV, "R0", "rtt " + text);
    }
    NothingSent(s, synced, Pinged(synced, info.rtt), []);
  }

  lemma R0Makes(s: State, info: Info)
    ensures BlockMakes(s, R0Of(s, info), [Ask("R0", "version"), Ask("R0", "help"), Ask("R0", "status")])
  {
    var ready := Pinged(Synced(Started(s, "R0"), info.syncs), info.rtt);
    var v, h, t := Ask("R0", "version"), Ask("R0", "help"), Ask("R0", "status");
    ReadyCalls(s, info);
    BegunMakes(s, ready);
    var p1 := Told(Begun(ready), "R0", "version", false);
    var p2 := Told(p1, "R0", "help", false);
    var p3 := Told(p2, "R0", "status", false);
    R0Parts(s, info, ready, p1, p2, p3);
    hide Makes, Told, Calls, Pinged, Synced, R0Of;
    ToldMakes(s, Begun(ready), [], "R0", "version", false);
    ToldMakes(s, p1, [] + [v], "R0", "help", false);
    ToldMakes(s, p2, [] + [v] + [h], "R0", "status", false);
    assert [] + [v] + [h] + [t] == [v, h, t];
    R0Closes(s, p3, [v, h, t], R0Of(s, info), "capabilities: " + info.capsText);
  }

  lemma R0Parts(s: State, info: Info, ready: State, p1: Part, p2: Part, p3: Part)
    requires ready == Pinged(Synced(Started(s, "R0"), info.syncs), info.rtt)
    requires p1 == Told(Begun(ready), "R0", "version", false) && p2 == Told(p1, "R0", "help", false)
    requires p3 == Told(p2, "R0", "status", false)
    ensures p3.end.Cut? ==> R0Of(s, info) == Block(None, p3.state)
    ensures p3.end.Ended? ==>
              exists ok ::
                R0Of(s, info) == BlockEnd(Logged(p3.state, EV, "R0", "capabilities: " + info.capsText), "R0", Ended(ok))
  {
    hide Sent, Pinged, Synced, Started, BlockEnd, Logged;
  }

  lemma R0Closes(s: State, p: Part, items: seq<Request>, b: Block, caps: string)
    requires Makes(s, p, items)
    requires p.end.Cut? ==> b == Block(None, p.state)
    requires p.end.Ended? ==> exists ok :: b == BlockEnd(Logged(p.state, EV, "R0", caps), "R0", Ended(ok))
    ensures BlockMakes(s, b, items)
  {
    hide Calls, Sends, AllCome, Logged, BlockEnd, Dropped;
    if p.end.Ended? {
      var ok :| b == BlockEnd(Logged(p.state, EV, "R0", caps), "R0", Ended(ok));
      LoggedCalls(p.state, EV, "R0", caps);
      NothingSent(s, p.state, Logged(p.state, EV, "R0", caps), Sends(items, s.script.answers, s.script.grabs));
      EndMakes(s, Logged(p.state, EV, "R0", caps), items, "R0", Ended(ok));
    }
  }

  lemma R4Makes(s: State, caps: set<string>)
    ensures BlockMakes(s, R4Of(s, caps), if "stream" in caps then R4Items(caps, s.script.answers) else [])
  {
    hide BlockMakes, BlockEnd, NotAvailable, R4Rates, R4Items, Calls, Sends, AllCome;
    UnavailableMakes(s, "R4", "stream");
    R4RatesMake(s, caps);
    var r := R4Rates(s, caps);
    EndMakes(s, r.state, R4Items(caps, s.script.answers), "R4", r.end);
  }

  lemma R5Makes(s: State, caps: set<string>, input: string)
    ensures BlockMakes(s, R5Of(s, caps, input),
                       if "stream" in caps then
                         StreamItems("R5", "stream on " + input, 10, NthAnswer(s.script.answers, 0))
                       else [])
  {
    UnavailableMakes(s, "R5", "stream");
    LoggedCalls(s, EV, "R5", "block start");
    var start := Started(s, "R5");
    StreamMakes(s, start, "R5", "stream on " + input, 10, false);
    hide BlockMakes, BlockEnd, NotAvailable, StreamOf, StreamItems, Calls, Sends, AllCome;
    var p := R5Part(s, input);
    EndMakes(s, p.state, StreamItems("R5", "stream on " + input, 10, NthAnswer(s.script.answers, 0)), "R5", p.end);
  }

  /** Every block, on every board, hears exactly this, up to and including the
      first request that is not answered, and logs it in this order. */
  lemma BlockSends(s: State, i: nat, info: Info, host: Host)
    requires i < 8
    ensures BlockMakes(s, BlockOf(s, i, info, host), ItemsOf(i, info.caps, host, s.script.answers))
  {
    hide BlockMakes, R0Of, R2Of, SimpleOf, R4Of, R5Of, R4Items, StreamItems;
    match i
    case 0 => R0Makes(s, info);
    case 1 => SimpleMakes(s, "R1", "regs", "regs", info.caps, {});
    case 2 => R2Makes(s, info.caps);
    case 3 => SimpleMakes(s, "R3", "test", "test all", info.caps, host.skip);
    case 4 => R4Makes(s, info.caps);
    case 5 => R5Makes(s, info.caps, host.r5Input);
    case 6 => SimpleMakes(s, "R6", "route", "route list", info.caps, {});
    case _ => SimpleMakes(s, "R7", "status", "status", info.caps, {});
  }
}
