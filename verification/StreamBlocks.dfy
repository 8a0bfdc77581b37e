/** The blocks that grab from the stream (tools/board_run.py): the grab loop, the
    frames stored for bad grabs, a stream from "on" to "off", and R5. */
module StreamBlocks {
  import opened Common
  import opened Text
  import opened GrabFrame
  import opened RunLog
  import opened BoardRun
  import opened Session

  const GRABS_PER_RATE: nat := 50
  const GRABS_R5: nat := 10
  const GUI_GRABS: nat := 10
  const GUI_BUF: nat := 512

  // ------------------------------------------------------------------------
  // Grabs and stored frames
  // ------------------------------------------------------------------------

  /** One grab: the triangle's verdict if it was checked. */
  datatype GrabRecord = GrabRecord(frame: Frame, pass: Option<bool>)

  /** What is kept of a grab; the triangle is checked in a good frame that carries one. */
  function RecordOf(a: GrabAnswer, check: bool): GrabRecord
    requires a.Grabbed?
  {
    GrabRecord(a.frame, if a.frame.ok && check && a.frame.meta.slpdat > 0 then Some(a.gridOk) else None)
  }

  predicate Bad(g: GrabRecord) { !g.frame.ok || g.pass == Some(false) }

  function SumOf(grabs: seq<GrabRecord>): Counters {
    if grabs == [] then ZERO else Plus(SumOf(grabs[..|grabs| - 1]), OfGrab(grabs[|grabs| - 1].frame))
  }

  predicate AllGood(grabs: seq<GrabRecord>) { forall i :: 0 <= i < |grabs| ==> !Bad(grabs[i]) }

  /** The frames stored for the run: a name and the frame. */
  type Stored = seq<(string, Frame)>

  function FrameName(tag: string, n: nat): string { tag + "-grab-" + Decimal(n) + ".bin" }

  /** What bad grabs add to the stored frames. */
  function AfterGrabs(stored: Stored, tag: string, grabs: seq<GrabRecord>): Stored {
    if grabs == [] then stored
    else
      var n := |grabs| - 1;
      var before := AfterGrabs(stored, tag, grabs[..n]);
      if Bad(grabs[n]) then before + [(FrameName(tag, |before| + 1), grabs[n].frame)] else before
  }

  predicate InOrder(stored: Stored, tag: string) {
    forall i :: 0 <= i < |stored| ==> stored[i].0 == FrameName(tag, i + 1)
  }

  function BadCount(grabs: seq<GrabRecord>): nat {
    if grabs == [] then 0 else BadCount(grabs[..|grabs| - 1]) + if Bad(grabs[|grabs| - 1]) then 1 else 0
  }

  /** One stored frame for each bad grab, and the names stay in order. */
  lemma {:induction false} StoredForBad(stored: Stored, tag: string, grabs: seq<GrabRecord>)
    ensures |AfterGrabs(stored, tag, grabs)| == |stored| + BadCount(grabs)
    ensures stored <= AfterGrabs(stored, tag, grabs)
    ensures InOrder(stored, tag) ==> InOrder(AfterGrabs(stored, tag, grabs), tag)
  {
    hide FrameName, Bad;
    if grabs != [] { StoredForBad(stored, tag, grabs[..|grabs| - 1]); }
  }

  lemma NamesDiffer(tag: string, m: nat, n: nat)
    requires FrameName(tag, m) == FrameName(tag, n)
    ensures m == n
  {
    var p, s := tag + "-grab-", ".bin";
    assert FrameName(tag, m)[|p|..|FrameName(tag, m)| - |s|] == Decimal(m);
    assert FrameName(tag, n)[|p|..|FrameName(tag, n)| - |s|] == Decimal(n);
    DecimalInjective(m, n);
  }

  /** No two stored frames have the same name. */
  lemma StoredNamesUnique(stored: Stored, tag: string)
    requires InOrder(stored, tag)
    ensures forall i, j :: 0 <= i < j < |stored| ==> stored[i].0 != stored[j].0
  {
    hide FrameName;
    forall i, j | 0 <= i < j < |stored| ensures stored[i].0 != stored[j].0 {
      if stored[i].0 == stored[j].0 { NamesDiffer(tag, i + 1, j + 1); }
    }
  }

  class FailFrames {
    var items: Stored

    constructor ()
      ensures items == []
    {
      items := [];
    }
  }

  // ------------------------------------------------------------------------
  // The grab loop
  // ------------------------------------------------------------------------

  /** How many of the next n grabs come before one that does not. */
  function Taken(grabs: seq<GrabAnswer>, n: nat): (k: nat)
    ensures k <= n && k <= |grabs| && forall i :: 0 <= i < k ==> grabs[i].Grabbed?
    ensures k < n ==> !FirstGrab(grabs[k..]).Grabbed?
  {
    if n == 0 || grabs == [] || !grabs[0].Grabbed? then 0
    else
      var k := 1 + Taken(grabs[1..], n - 1);
      assert grabs[k..] == grabs[1..][k - 1..];
      assert forall i :: 1 <= i < k ==> grabs[i] == grabs[1..][i - 1];
      k
  }

  function Records(grabs: seq<GrabAnswer>, k: nat, check: bool): seq<GrabRecord>
    requires k <= |grabs| && forall i :: 0 <= i < k ==> grabs[i].Grabbed?
  {
    seq(k, i requires 0 <= i < k => RecordOf(grabs[i], check))
  }

  datatype Grabs = Done(grabs: seq<GrabRecord>, okAll: bool) | Lost(a: Answer)

  /** What the loop returns: all n grabs, or why one did not come. */
  function GrabsOf(grabs: seq<GrabAnswer>, n: nat, check: bool): Grabs {
    var k := Taken(grabs, n);
    if k == n then Done(Records(grabs, n, check), AllGood(Records(grabs, n, check)))
    else Lost(if FirstGrab(grabs[k..]).SilentGrab? then Silent else Broken)
  }

  /** The grabs that came, whether the loop ends or not. */
  function Came(grabs: seq<GrabAnswer>, n: nat, check: bool): seq<GrabRecord> { Records(grabs, Taken(grabs, n), check) }

  function GrabNote(a: GrabAnswer, check: bool): Option<string>
    requires a.Grabbed?
  {
    if a.frame.ok && check && a.frame.meta.slpdat > 0 then
      Some((if a.gridOk then "triangle PASS " else "triangle FAIL ") + a.figures)
    else if a.frame.ok && check then Some("no triangle check (slp=0)")
    else if a.frame.ok then None
    else Some(if a.frame.error.Some? then ErrorText(a.frame.error.value) else "None")
  }

  function GrabAsked(s: State, block: string): State {
    Logged(s, TX, block, "stream grab").(script := s.script.(grabs := LaterGrabs(s.script.grabs)),
                                         heard := s.heard + ["stream grab"])
  }

  function NoteText(i: nat, note: string): string { "grab " + (Decimal(i) + (": " + note)) }

  /** A grab's lines: its summary, and the triangle's verdict or the error. */
  function GrabLogged(s: State, block: string, i: nat, a: GrabAnswer, check: bool): State
    requires a.Grabbed?
  {
    var summed, note := Logged(s, RX, block, GrabSummary(a.frame)), GrabNote(a, check);
    if note.Some? then Logged(summed, EV, block, NoteText(i, note.value)) else summed
  }

  /** After k grabs, all of which came. */
  function GrabSteps(s: State, block: string, k: nat, check: bool): State
    requires k <= |s.script.grabs| && forall i :: 0 <= i < k ==> s.script.grabs[i].Grabbed?
  {
    if k == 0 then s
    else
      GrabLogged(GrabAsked(GrabSteps(s, block, k - 1, check), block), block, k - 1, s.script.grabs[k - 1], check)
  }

  /** After the loop: n grabs, or those that came and one more that was asked for. */
  function Looped(s: State, block: string, n: nat, check: bool): State {
    var k := Taken(s.script.grabs, n);
    var after := GrabSteps(s, block, k, check);
    if k == n then after else GrabAsked(after, block)
  }

  method LogGrab(board: Board, log: Log, block: string, i: nat, a: GrabAnswer, check: bool) returns (g: GrabRecord)
    requires log.Valid() && IsToken(block) && a.Grabbed?
    modifies log
    ensures log.Valid() && Now(board, log) == GrabLogged(old(Now(board, log)), block, i, a, check)
    ensures g == RecordOf(a, check)
  {
    hide GrabSummary, NoteText, ErrorText;
    var f := a.frame;
    LogLine(board, log, RX, block, GrabSummary(f));
    var pass := None;
    if f.ok && check && f.meta.slpdat > 0 {
      pass := Some(a.gridOk);
      var result := if a.gridOk then "triangle PASS " else "triangle FAIL ";
      LogLine(board, log, EV, block, NoteText(i, result + a.figures));
    } else if f.ok && check {
      LogLine(board, log, EV, block, NoteText(i, "no triangle check (slp=0)"));
    } else if !f.ok {
      LogLine(board, log, EV, block, NoteText(i, if f.error.Some? then ErrorText(f.error.value) else "None"));
    }
    g := GrabRecord(f, pass);
  }

  /** The grab loop of R4 and R5: each grab is logged, kept and, if it is bad, stored. */
  method StreamGrabs(board: Board, log: Log, block: string, tag: string, n: nat, check: bool, fail: FailFrames)
    returns (r: Grabs)
    requires log.Valid() && IsToken(block)
    modifies log, board, fail
    ensures log.Valid() && Now(board, log) == Looped(old(Now(board, log)), block, n, check)
    ensures r == GrabsOf(old(board.script.grabs), n, check)
    ensures fail.items == AfterGrabs(old(fail.items), tag, Came(old(board.script.grabs), n, check))
  {
    hide GrabLogged, FrameName, RecordOf, AllGood, AfterGrabs;
    ghost var s, all := Now(board, log), board.script.grabs;
    NoGrabs(fail.items, tag);
    var grabs, okAll := [], true;
    for i := 0 to n
      invariant log.Valid() && i <= |all| && forall j :: 0 <= j < i ==> all[j].Grabbed?
      invariant board.script.grabs == all[i..] && Now(board, log) == GrabSteps(s, block, i, check)
      invariant grabs == Records(all, i, check) && okAll == AllGood(grabs)
      invariant fail.items == AfterGrabs(old(fail.items), tag, grabs)
    {
      LogLine(board, log, TX, block, "stream grab");
      var a := board.Grab();
      if !a.Grabbed? {
        TakenIs(all, n, i);
        return Lost(if a.SilentGrab? then Silent else Broken);
      }
      assert a == all[i] && all[i..][1..] == all[i + 1..];
      var g := LogGrab(board, log, block, i, a, check);
      GrabsNext(old(fail.items), tag, grabs, g);
      if !g.frame.ok || g.pass == Some(false) {
        okAll := false;
        fail.items := fail.items + [(FrameName(tag, |fail.items| + 1), a.frame)];
      }
      RecordFrame(a, check);
      RecordsNext(all, i, check);
      grabs := grabs + [g];
    }
    TakenIs(all, n, n);
    r := Done(grabs, okAll);
  }

  lemma RecordFrame(a: GrabAnswer, check: bool)
    requires a.Grabbed?
    ensures RecordOf(a, check).frame == a.frame
  {
  }

  lemma RecordsNext(grabs: seq<GrabAnswer>, k: nat, check: bool)
    requires k < |grabs| && forall i :: 0 <= i <= k ==> grabs[i].Grabbed?
    ensures Records(grabs, k + 1, check) == Records(grabs, k, check) + [RecordOf(grabs[k], check)]
  {
    hide RecordOf;
  }

  lemma {:induction false} TakenIs(grabs: seq<GrabAnswer>, n: nat, k: nat)
    requires k <= n && k <= |grabs| && forall i :: 0 <= i < k ==> grabs[i].Grabbed?
    requires k < n ==> !FirstGrab(grabs[k..]).Grabbed?
    ensures Taken(grabs, n) == k
  {
    if k > 0 {
      assert grabs[1..][k - 1..] == grabs[k..];
      TakenIs(grabs[1..], n - 1, k - 1);
    }
  }

  lemma NoGrabs(stored: Stored, tag: string)
    ensures AllGood([]) && SumOf([]) == ZERO && AfterGrabs(stored, tag, []) == stored
  {
  }

  lemma GrabsNext(stored: Stored, tag: string, grabs: seq<GrabRecord>, g: GrabRecord)
    ensures AllGood(grabs + [g]) == (AllGood(grabs) && !Bad(g))
    ensures SumOf(grabs + [g]) == Plus(SumOf(grabs), OfGrab(g.frame))
    ensures AfterGrabs(stored, tag, grabs + [g]) ==
              var before := AfterGrabs(stored, tag, grabs);
              if Bad(g) then before + [(FrameName(tag, |before| + 1), g.frame)] else before
  {
    hide Plus, OfGrab, FrameName, Bad;
    var all := grabs + [g];
    assert all[..|all| - 1] == grabs && all[|grabs|] == g;
    assert forall i :: 0 <= i < |grabs| ==> all[i] == grabs[i];
  }

  // ------------------------------------------------------------------------
  // What the loop adds to the log
  // ------------------------------------------------------------------------

  lemma NoteQuiet(block: string, i: nat, note: string)
    ensures TextEnd(block, NoteText(i, note)) == []
  {
    assert NoteText(i, note)[0] == 'g';
    QuietText(block, NoteText(i, note));
  }

  /** A grab counts for what it was. */
  lemma GrabEffect(s: State, block: string, i: nat, a: GrabAnswer, check: bool)
    requires a.Grabbed?
    ensures Effect(s.said, GrabLogged(GrabAsked(s, block), block, i, a, check).said, [], block, OfGrab(a.frame))
  {
    hide Effect, TextCount, TextEnd, OfGrab, GrabSummary, NoteText, GrabNote, Plus;
    var asked := GrabAsked(s, block);
    LoggedEffect(s, TX, block, "stream grab");
    var summed := Logged(asked, RX, block, GrabSummary(a.frame));
    LoggedEffect(asked, RX, block, GrabSummary(a.frame));
    SummaryText(a.frame);
    QuietTrans(s.said, asked.said, summed.said, block, ZERO, OfGrab(a.frame));
    var note := GrabNote(a, check);
    if note.Some? {
      NoteQuiet(block, i, note.value);
      LoggedEffect(summed, EV, block, NoteText(i, note.value));
      QuietTrans(s.said, summed.said, Logged(summed, EV, block, NoteText(i, note.value)).said, block,
          OfGrab(a.frame), ZERO);
    }
  }

  lemma {:induction false} StepsEffect(s: State, block: string, k: nat, check: bool)
    requires k <= |s.script.grabs| && forall i :: 0 <= i < k ==> s.script.grabs[i].Grabbed?
    ensures Effect(s.said, GrabSteps(s, block, k, check).said, [], block, SumOf(Records(s.script.grabs, k, check)))
    ensures GrabSteps(s, block, k, check).script == s.script.(grabs := s.script.grabs[k..])
  {
    hide Effect, OfGrab, Plus, GrabSummary, NoteText, GrabNote, RecordOf;
    NoGrabs([], "");
    if k == 0 {
      NoEffect(s.said, block);
    } else {
      var grabs, mid := s.script.grabs, GrabSteps(s, block, k - 1, check);
      StepsEffect(s, block, k - 1, check);
      GrabEffect(mid, block, k - 1, grabs[k - 1], check);
      QuietTrans(s.said, mid.said, GrabSteps(s, block, k, check).said, block, SumOf(Records(grabs, k - 1, check)),
          OfGrab(grabs[k - 1].frame));
      RecordsNext(grabs, k - 1, check);
      RecordFrame(grabs[k - 1], check);
      hide SumOf;
      GrabsNext([], "", Records(grabs, k - 1, check), RecordOf(grabs[k - 1], check));
    }
  }

  /** What is left of the grabs after the loop. */
  function LeftGrabs(grabs: seq<GrabAnswer>, n: nat): seq<GrabAnswer> {
    var k := Taken(grabs, n);
    if k == n then grabs[n..] else LaterGrabs(grabs[k..])
  }

  /** The loop counts as the sum of the grabs that came. */
  lemma LoopEffect(s: State, block: string, n: nat, check: bool)
    ensures Effect(s.said, Looped(s, block, n, check).said, [], block, SumOf(Came(s.script.grabs, n, check)))
    ensures Looped(s, block, n, check).script == s.script.(grabs := LeftGrabs(s.script.grabs, n))
  {
    hide Effect, SumOf, Records, GrabSteps, TextEnd, Plus;
    var k := Taken(s.script.grabs, n);
    var after := GrabSteps(s, block, k, check);
    StepsEffect(s, block, k, check);
    if k < n {
      LoggedEffect(after, TX, block, "stream grab");
      QuietTrans(s.said, after.said, GrabAsked(after, block).said, block, SumOf(Came(s.script.grabs, n, check)), ZERO);
    }
  }

  // ------------------------------------------------------------------------
  // Stretches of commands and grabs
  // ------------------------------------------------------------------------

  /** A stretch of commands and grabs: the state after it, the board's replies in
      it, the grabs it returns, the grabs of a loop that was cut short, how it ended. */
  datatype Part = Part(state: State, replies: seq<string>, grabs: seq<GrabRecord>, lost: seq<GrabRecord>, end: Ending)

  function Begun(s: State): Part { Part(s, [], [], [], Ended(true)) }

  /** Another command; `judged` if it must be accepted. Nothing follows once a part is cut short. */
  function Told(p: Part, sub: string, command: string, judged: bool): Part {
    if p.end.Cut? then p
    else
      var a := FirstAnswer(p.state.script.answers);
      p.(state := Sent(p.state, sub, command), replies := p.replies + LinesOf(a),
         end := if a.Reply? then Ended(p.end.ok && (judged ==> a.ok)) else Cut(a))
  }

  /** A grab loop. */
  function Grabbing(p: Part, sub: string, n: nat, check: bool): Part {
    if p.end.Cut? then p
    else
      var after := Looped(p.state, sub, n, check);
      match GrabsOf(p.state.script.grabs, n, check)
      case Lost(a) => p.(state := after, lost := p.lost + Came(p.state.script.grabs, n, check), end := Cut(a))
      case Done(grabs, okAll) => p.(state := after, grabs := p.grabs + grabs, end := Ended(p.end.ok && okAll))
  }

  /** The counters a part adds to its block: those of its grabs, and of the replies that look like grab lines. */
  function PartCount(p: Part): Counters { Plus(SumOf(p.grabs + p.lost), TextsCount(p.replies)) }

  /** Nothing else was logged since `start`, and only a part that is cut short has lost grabs. */
  ghost predicate Fits(start: State, p: Part, sub: string) {
    Effect(start.said, p.state.said, [], sub, PartCount(p)) && (p.end.Ended? ==> p.lost == [])
  }

  lemma {:induction false} TextsCountConcat(a: seq<string>, b: seq<string>)
    ensures TextsCount(a + b) == Plus(TextsCount(a), TextsCount(b))
  {
    hide TextCount, Plus;
    PlusAssoc(TextsCount(a), ZERO, ZERO);
    if b == [] {
      assert a + b == a;
    } else {
      var n := |b| - 1;
      assert (a + b)[..|a + b| - 1] == a + b[..n];
      TextsCountConcat(a, b[..n]);
      PlusAssoc(TextsCount(a), TextsCount(b[..n]), TextCount(b[n]));
    }
  }

  lemma {:induction false} SumOfConcat(a: seq<GrabRecord>, b: seq<GrabRecord>)
    ensures SumOf(a + b) == Plus(SumOf(a), SumOf(b))
  {
    hide OfGrab, Plus;
    PlusAssoc(SumOf(a), ZERO, ZERO);
    if b == [] {
      assert a + b == a;
    } else {
      var n := |b| - 1;
      assert (a + b)[..|a + b| - 1] == a + b[..n];
      SumOfConcat(a, b[..n]);
      PlusAssoc(SumOf(a), SumOf(b[..n]), OfGrab(b[n].frame));
    }
  }

  lemma NothingCounts()
    ensures SumOf([]) == ZERO && TextsCount([]) == ZERO
  {
  }

  lemma PlusNothing(a: Counters, b: Counters)
    requires b == ZERO
    ensures Plus(a, b) == a
  {
  }

  lemma BegunFits(start: State, s: State, sub: string)
    requires Effect(start.said, s.said, [], sub, ZERO)
    ensures Fits(start, Begun(s), sub)
  {
    hide Effect, SumOf, TextsCount, Plus;
    var p := Begun(s);
    assert p.grabs + p.lost == [];
    NothingCounts();
    PlusNothing(SumOf(p.grabs + p.lost), TextsCount(p.replies));
  }

  lemma ToldFits(start: State, p: Part, sub: string, command: string, judged: bool)
    requires Fits(start, p, sub)
    ensures Fits(start, Told(p, sub, command, judged), sub)
  {
    hide Effect, SumOf, TextsCount, Plus, Sent;
    if p.end.Ended? {
      var next, more := Told(p, sub, command, judged), LinesOf(FirstAnswer(p.state.script.answers));
      SentEffect(p.state, sub, command);
      QuietTrans(start.said, p.state.said, next.state.said, sub, PartCount(p), TextsCount(more));
      PlusAssoc(SumOf(p.grabs + p.lost), TextsCount(p.replies), TextsCount(more));
      TextsCountConcat(p.replies, more);
    }
  }

  lemma PlusSwap(a: Counters, b: Counters, c: Counters)
    ensures Plus(Plus(a, b), c) == Plus(Plus(a, c), b)
  {
  }

  lemma GrabbingFits(start: State, p: Part, sub: string, n: nat, check: bool)
    requires Fits(start, p, sub)
    ensures Fits(start, Grabbing(p, sub, n, check), sub)
  {
    hide Effect, SumOf, TextsCount, Plus, Looped, Records, Taken, AllGood;
    if p.end.Ended? {
      var next, came := Grabbing(p, sub, n, check), Came(p.state.script.grabs, n, check);
      LoopEffect(p.state, sub, n, check);
      QuietTrans(start.said, p.state.said, next.state.said, sub, PartCount(p), SumOf(came));
      PlusSwap(SumOf(p.grabs + p.lost), TextsCount(p.replies), SumOf(came));
      SumOfConcat(p.grabs + p.lost, came);
      assert p.lost == [] && next.grabs + next.lost == p.grabs + p.lost + came;
    }
  }

  // ------------------------------------------------------------------------
  // A stream, from "on" to "off"
  // ------------------------------------------------------------------------

  /** A stream switched on, grabbed from if that was accepted, and switched off. */
  function StreamOf(s: State, sub: string, command: string, n: nat, check: bool): Part {
    var on := Told(Begun(s), sub, command, true);
    Told(if on.end == Ended(true) then Grabbing(on, sub, n, check) else on, sub, "stream off", true)
  }

  method RunStream(board: Board, log: Log, sub: string, command: string, n: nat, check: bool, tag: string,
                   fail: FailFrames)
    returns (end: Ending, grabs: seq<GrabRecord>)
    requires log.Valid() && IsToken(sub)
    modifies log, board, fail
    ensures log.Valid()
    ensures var p := StreamOf(old(Now(board, log)), sub, command, n, check);
            && Now(board, log) == p.state && end == p.end && grabs == p.grabs
            && fail.items == AfterGrabs(old(fail.items), tag, p.grabs + p.lost)
  {
    hide Sent, Looped, Taken, AfterGrabs, AllGood;
    NoGrabs(fail.items, tag);
    grabs := [];
    assert grabs + grabs == grabs;
    var on := Send(board, log, sub, command);
    if !on.Reply? { return Cut(on), []; }
    var okAll := false;
    if on.ok {
      ghost var came := Came(board.script.grabs, n, check);
      var r := StreamGrabs(board, log, sub, tag, n, check, fail);
      assert grabs + came == came && grabs + (grabs + came) == came && (grabs + came) + grabs == came;
      if r.Lost? { return Cut(r.a), []; }
      grabs, okAll := r.grabs, r.okAll;
    }
    var off := Send(board, log, sub, "stream off");
    end := if off.Reply? then Ended(okAll && off.ok) else Cut(off);
  }

  /** A stream's lines: no block end, and the counts of its grabs and replies, cut short or not. */
  lemma StreamFits(start: State, s: State, sub: string, command: string, n: nat, check: bool)
    requires Effect(start.said, s.said, [], sub, ZERO)
    ensures Fits(start, StreamOf(s, sub, command, n, check), sub)
  {
    hide Fits, Told, Grabbing, Effect;
    BegunFits(start, s, sub);
    var on := Told(Begun(s), sub, command, true);
    ToldFits(start, Begun(s), sub, command, true);
    GrabbingFits(start, on, sub, n, check);
    ToldFits(start, if on.end == Ended(true) then Grabbing(on, sub, n, check) else on, sub, "stream off", true);
  }

  predicate Accepted(a: Answer) { a.Reply? && a.ok }

  /** The next n grabs come, and none is bad. */
  predicate GoodGrabs(grabs: seq<GrabAnswer>, n: nat, check: bool) {
    n <= |grabs| && forall i :: 0 <= i < n ==> grabs[i].Grabbed? && !Bad(RecordOf(grabs[i], check))
  }

  lemma GoodGrabsIff(grabs: seq<GrabAnswer>, n: nat, check: bool)
    ensures var r := GrabsOf(grabs, n, check);
            && (r.Done? <==> Taken(grabs, n) == n)
            && (r.Done? && r.okAll <==> GoodGrabs(grabs, n, check))
            && (r.Done? ==> r.grabs == Came(grabs, n, check) && LeftGrabs(grabs, n) == Dropped(grabs, n))
            && (GoodGrabs(grabs, n, check) ==> Came(grabs, n, check) == Records(grabs, n, check))
  {
    hide Bad, RecordOf;
    if GoodGrabs(grabs, n, check) { TakenIs(grabs, n, n); }
    if Taken(grabs, n) == n {
      var r := Records(grabs, n, check);
      assert forall i :: 0 <= i < n ==> r[i] == RecordOf(grabs[i], check);
    }
  }

  /** A stream is good exactly if both commands are accepted and all its grabs
      are good; it ends exactly if both are replied to and no grab is missing.
      Its grabs and replies are then the board's. */
  lemma StreamEnds(s: State, sub: string, command: string, n: nat, check: bool)
    ensures var p, a, g := StreamOf(s, sub, command, n, check), s.script.answers, s.script.grabs;
            var on, off := NthAnswer(a, 0), NthAnswer(a, 1);
            && (p.end == Ended(true) <==> Accepted(on) && GoodGrabs(g, n, check) && Accepted(off))
            && (p.end.Ended? <==> on.Reply? && (on.ok ==> Taken(g, n) == n) && off.Reply?)
            && (p.end.Ended? ==>
                  && p.state.script.answers == Dropped(a, 2)
                  && p.state.script.grabs == (if on.ok then Dropped(g, n) else g)
                  && p.grabs == (if on.ok then Records(g, n, check) else [])
                  && p.lost == [] && p.replies == on.lines + off.lines)
  {
    hide Sent, Looped, GoodGrabs, Effect, AllGood, Records;
    var begun, a := Begun(s), s.script.answers;
    NextAnswer(a, 0);
    NextAnswer(a, 1);
    var on := Told(begun, sub, command, true);
    SentEffect(s, sub, command);
    LoopEffect(on.state, sub, n, check);
    SentEffect(on.state, sub, "stream off");
    SentEffect(Looped(on.state, sub, n, check), sub, "stream off");
    GoodGrabsIff(s.script.grabs, n, check);
    assert begun.replies + LinesOf(NthAnswer(a, 0)) == LinesOf(NthAnswer(a, 0));
    var r := GrabsOf(s.script.grabs, n, check);
    if r.Done? { assert begun.grabs + r.grabs == r.grabs; }
  }

  // ------------------------------------------------------------------------
  // R5
  // ------------------------------------------------------------------------

  function R5Part(s: State, input: string): Part {
    StreamOf(Started(s, "R5"), "R5", "stream on " + input, GRABS_R5, false)
  }

  function R5Of(s: State, caps: set<string>, input: string): Block {
    if "stream" !in caps then NotAvailable(Started(s, "R5"), "R5", "stream")
    else BlockEnd(R5Part(s, input).state, "R5", R5Part(s, input).end)
  }

  method RunR5(board: Board, log: Log, tag: string, input: string, fail: FailFrames)
    returns (verdict: Option<string>, grabs: seq<GrabRecord>)
    requires log.Valid()
    modifies log, board, fail
    ensures log.Valid() && Block(verdict, Now(board, log)) == R5Of(old(Now(board, log)), board.info.caps, input)
    ensures var p := R5Part(old(Now(board, log)), input);
            if "stream" in board.info.caps then
              grabs == p.grabs && fail.items == AfterGrabs(old(fail.items), tag, p.grabs + p.lost)
            else grabs == [] && fail.items == old(fail.items)
    ensures var a, g := old(board.script.answers), old(board.script.grabs);
            verdict == Some("ok") <==> "stream" in board.info.caps && Accepted(NthAnswer(a, 0))
                                       && GoodGrabs(g, GRABS_R5, false) && Accepted(NthAnswer(a, 1))
  {
    hide StreamOf, Closed, AfterGrabs, GoodGrabs, Accepted, Taken, SumOf, TextsCount, LogCount, Within;
    R5Proper(Now(board, log), board.info.caps, input);
    assert IsToken("R5");
    LogLine(board, log, EV, "R5", "block start");
    if "stream" !in board.info.caps {
      verdict := LogUnavailable(board, log, "R5", "stream");
      return verdict, [];
    }
    var end;
    end, grabs := RunStream(board, log, "R5", "stream on " + input, GRABS_R5, false, tag, fail);
    verdict := CloseBlock(board, log, "R5", end);
  }

  /** R5 is ok exactly if there is a stream, both commands are accepted and the
      next ten grabs are good; the block has one end. If it was completed, its
      counters are those of the board's next ten grabs (none if the stream was
      refused) and of the board's replies to both commands. */
  lemma R5Proper(s: State, caps: set<string>, input: string)
    ensures var b, p, a, g := R5Of(s, caps, input), R5Part(s, input), s.script.answers, s.script.grabs;
            var on, off := NthAnswer(a, 0), NthAnswer(a, 1);
            && (b.verdict == Some("ok") <==>
                  "stream" in caps && Accepted(on) && GoodGrabs(g, GRABS_R5, false) && Accepted(off))
            && (b.verdict.Some? ==> Within(s.said, b.state.said, [("R5", b.verdict.value)], "R5"))
            && ("stream" in caps ==> b.verdict == VerdictOf(p.end))
            && (p.end.Ended? <==> on.Reply? && (on.ok ==> Taken(g, GRABS_R5) == GRABS_R5) && off.Reply?)
            && (p.end.Ended? ==>
                  && p.grabs == (if on.ok then Records(g, GRABS_R5, false) else [])
                  && p.replies == on.lines + off.lines)
            && ("stream" in caps && p.end.Ended? ==>
                  LogCount(b.state.said, "R5")
                  == Plus(LogCount(s.said, "R5"), Plus(SumOf(p.grabs), TextsCount(p.replies))))
  {
    hide Quiet, Within, StreamOf, NotAvailable, Effect, GoodGrabs, TextsCount, SumOf, LogCount, LogEnds, Plus;
    StartedQuiet(s, "R5");
    var start := Started(s, "R5");
    StreamEnds(start, "R5", "stream on " + input, GRABS_R5, false);
    assert "ok"[0] != "fail"[0] && "ok"[0] != "timeout"[0] && "ok"[0] != "not_available"[0];
    if "stream" !in caps {
      NotAvailableProper(s, start, "R5", "stream");
      UnavailableVerdict(start, "R5", "stream");
    } else {
      var p := R5Part(s, input);
      StreamFits(s, start, "R5", "stream on " + input, GRABS_R5, false);
      PartCloses(s, p, "R5");
      if p.end.Ended? { assert p.grabs + p.lost == p.grabs; }
    }
  }

  /** The end of a block that is one part. */
  lemma PartCloses(s: State, p: Part, block: string)
    requires Fits(s, p, block)
    ensures var b := BlockEnd(p.state, block, p.end);
            && (b.verdict.Some? ==> Within(s.said, b.state.said, [(block, b.verdict.value)], block))
            && (p.end.Ended? ==> LogCount(b.state.said, block) == Plus(LogCount(s.said, block), PartCount(p)))
  {
    EffectIsWithin(s.said, p.state.said, [], block, PartCount(p));
    assert LogCount(p.state.said, block) == Plus(LogCount(s.said, block), PartCount(p));
    hide Effect, Within, PartCount, LogCount, Plus, Reset, IsToken;
    ClosedOnce(s, p.state, block, p.end);
    if p.end.Ended? {
      Verdicts();
      EndLogged(s, p.state, block, OkOrFail(p.end.ok));
    }
  }
}
