/** The commands of a whole session, read from its log (tools/board_run.py), and
    that the stand-in board (tools/adc_gui.py, class FakeTarget) streams no more
    after any block that was completed. */
module SessionStream {
  import opened Common
  import opened Text
  import opened RunLog
  import opened BoardRun
  import opened Session
  import opened StreamBlocks
  import opened RateBlocks
  import opened FullSession
  import opened SessionBoard
  import opened SessionCommands
  import FakeTarget

  // ------------------------------------------------------------------------
  // The log and the board
  // ------------------------------------------------------------------------

  /** From the start of the session on, block by block. */
  lemma OpenedCalls(s: State, host: Host)
    ensures Calls(s, Opened(s, host), [])
  {
    hide Calls, Logged, Booted, OpeningText;
    var told := Logged(s, EV, "-", OpeningText(host));
    LoggedCalls(s, EV, "-", OpeningText(host));
    if host.banner.Some? {
      BootedCalls(told, "SETUP", host.banner.value);
      NothingSent(s, told, Opened(s, host), []);
    }
  }

  /** What block i sends, from what the board still has to say when it begins. */
  function SentBy(s: State, i: nat, info: Info, host: Host): seq<Call>
    requires i < 8
  {
    var t := Through(s, i, info, host).state;
    Sends(ItemsOf(i, info.caps, host, t.script.answers), t.script.answers, t.script.grabs)
  }

  /** The first n blocks' calls, up to a block that stops the session. */
  function SentUpTo(s: State, n: nat, info: Info, host: Host): seq<Call>
    requires n <= 8
  {
    if n == 0 then []
    else
      SentUpTo(s, n - 1, info, host)
      + if Through(s, n - 1, info, host).stopped then [] else SentBy(s, n - 1, info, host)
  }

  lemma {:induction false} SessionCalls(s: State, n: nat, info: Info, host: Host)
    requires n <= 8
    ensures Calls(s, Through(s, n, info, host).state, SentUpTo(s, n, info, host))
  {
    hide Calls, BlockOf, Opened, ItemsOf, Sends;
    if n == 0 {
      OpenedCalls(s, host);
    } else {
      var p := Through(s, n - 1, info, host);
      SessionCalls(s, n - 1, info, host);
      if p.stopped {
        assert SentUpTo(s, n, info, host) == SentUpTo(s, n - 1, info, host);
      } else {
        BlockCalls(p.state, n - 1, info, host);
        CallsThen(s, p.state, Through(s, n, info, host).state, SentUpTo(s, n - 1, info, host),
                  SentBy(s, n - 1, info, host));
      }
    }
  }

  lemma BlockCalls(s: State, i: nat, info: Info, host: Host)
    requires i < 8
    ensures Calls(s, BlockOf(s, i, info, host).state,
                  Sends(ItemsOf(i, info.caps, host, s.script.answers), s.script.answers, s.script.grabs))
  {
    hide BlockOf, ItemsOf, Sends, Calls, AllCome;
    BlockSends(s, i, info, host);
  }

  /** In every session, stopped or not: the log's TX lines are what the board heard, in order. */
  lemma LogIsHeard(s: State, n: nat, info: Info, host: Host)
    requires n <= 8 && s.heard == [] && s.said == []
    ensures Through(s, n, info, host).state.heard == Texts(TxLines(Through(s, n, info, host).state.said))
  {
    hide Through, SentUpTo;
    SessionCalls(s, n, info, host);
    assert TxLines(s.said) == [];
    assert [] + SentUpTo(s, n, info, host) == SentUpTo(s, n, info, host);
  }

  // ------------------------------------------------------------------------
  // A block's TX lines
  // ------------------------------------------------------------------------

  /** The texts sent in a block. */
  function InBlock(calls: seq<Call>, c: string): seq<string> {
    if calls == [] then []
    else
      var n := |calls| - 1;
      InBlock(calls[..n], c) + if calls[n].0 == c then [calls[n].1] else []
  }

  lemma {:induction false} InBlockConcat(x: seq<Call>, y: seq<Call>, c: string)
    ensures InBlock(x + y, c) == InBlock(x, c) + InBlock(y, c)
  {
    if y == [] {
      assert x + y == x;
    } else {
      var n := |y| - 1;
      assert (x + y)[..|x + y| - 1] == x + y[..n];
      InBlockConcat(x, y[..n], c);
    }
  }

  lemma {:induction false} NoneInBlock(calls: seq<Call>, c: string)
    requires forall k :: 0 <= k < |calls| ==> calls[k].0 != c
    ensures InBlock(calls, c) == []
  {
    if calls != [] { NoneInBlock(calls[..|calls| - 1], c); }
  }

  lemma {:induction false} AllInBlock(calls: seq<Call>, c: string)
    requires forall k :: 0 <= k < |calls| ==> calls[k].0 == c
    ensures InBlock(calls, c) == Texts(calls)
  {
    if calls != [] {
      var n := |calls| - 1;
      AllInBlock(calls[..n], c);
      assert Texts(calls) == Texts(calls[..n]) + [calls[n].1];
    }
  }

  lemma {:induction false} RepeatedIs(c: Call, n: nat)
    ensures |Repeated(c, n)| == n && forall k :: 0 <= k < n ==> Repeated(c, n)[k] == c
  {
    if n > 0 { RepeatedIs(c, n - 1); }
  }

  lemma MadeBlock(r: Request, g: seq<GrabAnswer>)
    ensures forall k :: 0 <= k < |Made(r, g)| ==> Made(r, g)[k].0 == r.block
  {
    if r.Grabs? {
      var k := Taken(g, r.n);
      RepeatedIs((r.block, "stream grab"), if k == r.n then r.n else k + 1);
    }
  }

  predicate OfFamily(items: seq<Request>, f: string) { forall k :: 0 <= k < |items| ==> InFamily(items[k].block, f) }

  /** Every call is in the block of its request. */
  lemma {:induction false} SentInFamily(items: seq<Request>, a: seq<Answer>, g: seq<GrabAnswer>, f: string)
    requires OfFamily(items, f)
    ensures forall k :: 0 <= k < |Sends(items, a, g)| ==> InFamily(Sends(items, a, g)[k].0, f)
  {
    hide InFamily, Made, AllCome, Dropped;
    if items != [] {
      var n := |items| - 1;
      SentInFamily(items[..n], a, g, f);
      MadeBlock(items[n], Dropped(g, GrabTotal(items[..n])));
    }
  }

  lemma FamilyConcat(x: seq<Request>, y: seq<Request>, f: string)
    requires OfFamily(x, f) && OfFamily(y, f)
    ensures OfFamily(x + y, f)
  {
    hide InFamily;
  }

  lemma StreamInFamily(sub: string, command: string, n: nat, on: Answer, f: string)
    requires InFamily(sub, f)
    ensures OfFamily(StreamItems(sub, command, n, on), f)
  {
    hide InFamily;
  }

  lemma GuiInFamily(a: seq<Answer>)
    ensures OfFamily(GuiItems(a), "R4")
  {
    SubBlocksOfR4();
    hide InFamily, BufHalf, Decimal;
  }

  lemma R4InFamily(caps: set<string>, a: seq<Answer>)
    ensures OfFamily(R4Items(caps, a), "R4")
  {
    var i1 := StreamItems("R4.1000", "stream on 1000", 50, NthAnswer(a, 0));
    var i2 := StreamItems("R4.4000", "stream on 4000", 50, NthAnswer(a, 2));
    var i3 := StreamItems("R4.8000", "stream on 8000", 50, NthAnswer(a, 4));
    SubBlocksOfR4();
    StreamInFamily("R4.1000", "stream on 1000", 50, NthAnswer(a, 0), "R4");
    StreamInFamily("R4.4000", "stream on 4000", 50, NthAnswer(a, 2), "R4");
    StreamInFamily("R4.8000", "stream on 8000", 50, NthAnswer(a, 4), "R4");
    GuiInFamily(Dropped(a, 6));
    var gui := if "buf" in caps && "dac" in caps then GuiItems(Dropped(a, 6)) else [];
    assert OfFamily(gui, "R4");
    hide OfFamily, StreamItems, GuiItems;
    FamilyConcat(i1, i2, "R4");
    FamilyConcat(i1 + i2, i3, "R4");
    FamilyConcat(i1 + i2 + i3, gui, "R4");
  }

  lemma ItemsInFamily(i: nat, caps: set<string>, host: Host, a: seq<Answer>)
    requires i < 8
    ensures OfFamily(ItemsOf(i, caps, host, a), BLOCKS[i])
  {
    R4InFamily(caps, a);
    OwnFamily(BLOCKS[i]);
    OwnFamily("R5");
    StreamInFamily("R5", "stream on " + host.r5Input, 10, NthAnswer(a, 0), "R5");
    hide InFamily, R4Items, StreamItems;
  }

  lemma OwnFamily(f: string)
    ensures InFamily(f, f)
  {
  }

  lemma SubBlocksOfR4()
    ensures InFamily("R4.1000", "R4") && InFamily("R4.4000", "R4")
    ensures InFamily("R4.8000", "R4") && InFamily("R4.gui", "R4")
  {
    assert "R4.1000"[..3] == "R4." && "R4.4000"[..3] == "R4." && "R4.8000"[..3] == "R4." && "R4.gui"[..3] == "R4.";
  }

  /** What one block sends shows in no other block's TX lines. */
  lemma {:induction false} OnlyThere(s: State, n: nat, info: Info, host: Host, i: nat, c: string)
    requires n <= 8 && i < 8 && InFamily(c, BLOCKS[i]) && !Through(s, n, info, host).stopped
    ensures InBlock(SentUpTo(s, n, info, host), c) == if i < n then InBlock(SentBy(s, i, info, host), c) else []
  {
    hide Sends, ItemsOf, BlockOf, Opened, InFamily;
    if n > 0 {
      OnlyThere(s, n - 1, info, host, i, c);
      InBlockConcat(SentUpTo(s, n - 1, info, host), SentBy(s, n - 1, info, host), c);
      if i != n - 1 { NotThere(s, n - 1, info, host, i, c); }
    }
  }

  lemma NotThere(s: State, j: nat, info: Info, host: Host, i: nat, c: string)
    requires j < 8 && i < 8 && i != j && InFamily(c, BLOCKS[i])
    ensures InBlock(SentBy(s, j, info, host), c) == []
  {
    var t := Through(s, j, info, host).state;
    var items := ItemsOf(j, info.caps, host, t.script.answers);
    ItemsInFamily(j, info.caps, host, t.script.answers);
    SentInFamily(items, t.script.answers, t.script.grabs, BLOCKS[j]);
    FamilyPrefix(c, i);
    BlocksDiffer();
    hide InFamily, Sends, ItemsOf, Through;
    forall k | 0 <= k < |SentBy(s, j, info, host)| ensures SentBy(s, j, info, host)[k].0 != c {
      FamilyPrefix(SentBy(s, j, info, host)[k].0, j);
    }
    NoneInBlock(SentBy(s, j, info, host), c);
  }

  /** The TX lines of a block or sub-block of a completed session are what that block sent. */
  lemma SentInSession(s: State, info: Info, host: Host, i: nat, c: string)
    requires s.said == [] && OutcomeOf(s, info, host).Completed? && i < 8 && InFamily(c, BLOCKS[i])
    ensures InBlock(TxLines(Through(s, 8, info, host).state.said), c) == InBlock(SentBy(s, i, info, host), c)
  {
    hide Through, SentUpTo, SentBy, InFamily, InBlock, RatesOf, R5PartOf, Texts;
    SessionCalls(s, 8, info, host);
    OnlyThere(s, 8, info, host, i, c);
    assert TxLines(s.said) == [];
    assert [] + SentUpTo(s, 8, info, host) == SentUpTo(s, 8, info, host);
  }

  // ------------------------------------------------------------------------
  // Blocks whose requests were all answered
  // ------------------------------------------------------------------------

  /** The verdict of block i. */
  lemma {:induction false} VerdictAt(s: State, n: nat, info: Info, host: Host, i: nat)
    requires n <= 8 && i < n && !Through(s, n, info, host).stopped
    ensures |Through(s, n, info, host).verdicts| == n
    ensures !Through(s, i, info, host).stopped
    ensures BlockOf(Through(s, i, info, host).state, i, info, host).verdict
            == Some(Through(s, n, info, host).verdicts[i])
  {
    hide BlockOf, Opened;
    if n > 1 {
      if i < n - 1 { VerdictAt(s, n - 1, info, host, i); } else { VerdictAt(s, n - 1, info, host, 0); }
    }
  }

  /** A block that did not time out has sent all of it. */
  lemma AllOf(s: State, n: nat, info: Info, host: Host, i: nat)
    requires n <= 8 && i < n && !Through(s, n, info, host).stopped
    requires |Through(s, n, info, host).verdicts| == n && Through(s, n, info, host).verdicts[i] != "timeout"
    ensures SentBy(s, i, info, host)
            == Whole(ItemsOf(i, info.caps, host, Through(s, i, info, host).state.script.answers))
  {
    hide Through, BlockOf, ItemsOf, Sends, Whole, AllCome, Calls;
    VerdictAt(s, n, info, host, i);
    var t := Through(s, i, info, host).state;
    BlockSends(t, i, info, host);
    AllSent(ItemsOf(i, info.caps, host, t.script.answers), t.script.answers, t.script.grabs);
  }

  lemma WholeMore(items: seq<Request>, r: Request)
    ensures Whole(items + [r])
            == Whole(items)
               + match r
                 case Ask(block, command) => [(block, command)]
                 case Grabs(block, n) => Repeated((block, "stream grab"), n)
  {
    assert (items + [r])[..|items + [r]| - 1] == items;
  }

  lemma {:induction false} WholeConcat(x: seq<Request>, y: seq<Request>)
    ensures Whole(x + y) == Whole(x) + Whole(y)
  {
    if y == [] {
      assert x + y == x;
    } else {
      var n := |y| - 1;
      assert y == y[..n] + [y[n]] && x + y == (x + y[..n]) + [y[n]];
      WholeConcat(x, y[..n]);
      WholeMore(x + y[..n], y[n]);
      WholeMore(y[..n], y[n]);
      hide Whole, Repeated;
    }
  }

  /** The texts of a whole stream. */
  function Streamed(on: string, accepted: bool, n: nat): seq<string> {
    [on] + (if accepted then seq(n, _ => "stream grab") else []) + ["stream off"]
  }

  lemma RepeatedTexts(block: string, n: nat)
    ensures Texts(Repeated((block, "stream grab"), n)) == seq(n, _ => "stream grab")
  {
    RepeatedIs((block, "stream grab"), n);
  }

  lemma WholeOne(r: Request)
    ensures Whole([r])
            == match r
               case Ask(block, command) => [(block, command)]
               case Grabs(block, n) => Repeated((block, "stream grab"), n)
  {
    assert [] + [r] == [r] && Whole([]) == [];
    WholeMore([], r);
    hide Whole;
  }

  lemma NothingSaid()
    ensures Whole([]) == [] && Texts([]) == []
  {
  }

  /** All of one block, with these texts. */
  ghost predicate Speaks(calls: seq<Call>, c: string, texts: seq<string>) {
    Texts(calls) == texts && forall k :: 0 <= k < |calls| ==> calls[k].0 == c
  }

  lemma SaysBoth(x: seq<Call>, y: seq<Call>, c: string, u: seq<string>, v: seq<string>)
    requires Speaks(x, c, u) && Speaks(y, c, v)
    ensures Speaks(x + y, c, u + v)
  {
    TextsConcat(x, y);
  }

  lemma OneSays(c: string, x: string)
    ensures Speaks(Whole([Ask(c, x)]), c, [x])
  {
    WholeOne(Ask(c, x));
    hide Whole;
  }

  lemma GrabsSay(c: string, n: nat)
    ensures Speaks(Whole([Grabs(c, n)]), c, seq(n, _ => "stream grab"))
  {
    WholeOne(Grabs(c, n));
    RepeatedTexts(c, n);
    RepeatedIs((c, "stream grab"), n);
    hide Whole, Repeated;
  }

  lemma WholeStream(sub: string, command: string, n: nat, on: Answer)
    ensures Speaks(Whole(StreamItems(sub, command, n, on)), sub, Streamed(command, Accepted(on), n))
  {
    var first, off := [Ask(sub, command)], [Ask(sub, "stream off")];
    var grabs := if Accepted(on) then [Grabs(sub, n)] else [];
    var texts := if Accepted(on) then seq(n, _ => "stream grab") else [];
    OneSays(sub, command);
    GrabsSay(sub, n);
    OneSays(sub, "stream off");
    WholeConcat(first, grabs);
    WholeConcat(first + grabs, off);
    NothingSaid();
    hide Whole, Texts;
    assert Speaks(Whole(grabs), sub, texts);
    hide Speaks;
    SaysBoth(Whole(first), Whole(grabs), sub, [command], texts);
    SaysBoth(Whole(first) + Whole(grabs), Whole(off), sub, [command] + texts, ["stream off"]);
  }

  /** R5's TX lines in a completed session: a stream of the input asked for, ten
      grabs if it is accepted, and "stream off". */
  lemma SentInR5(s: State, info: Info, host: Host)
    requires s.said == [] && OutcomeOf(s, info, host).Completed? && "stream" in info.caps
    requires |OutcomeOf(s, info, host).verdicts| == 8 && OutcomeOf(s, info, host).verdicts[5] != "timeout"
    ensures var on := NthAnswer(Through(s, 5, info, host).state.script.answers, 0);
            InBlock(TxLines(Through(s, 8, info, host).state.said), "R5")
            == ["stream on " + host.r5Input]
               + (if Accepted(on) then seq(10, _ => "stream grab") else [])
               + ["stream off"]
  {
    var on := NthAnswer(Through(s, 5, info, host).state.script.answers, 0);
    OwnFamily("R5");
    hide Through, InFamily, Sends, Whole, StreamItems, Streamed, RatesOf, R5PartOf, InBlock, Texts;
    SentInSession(s, info, host, 5, "R5");
    AllOf(s, 8, info, host, 5);
    var command := "stream on " + host.r5Input;
    WholeStream("R5", command, 10, on);
    AllInBlock(Whole(StreamItems("R5", command, 10, on)), "R5");
    StreamedIs(command, Accepted(on), 10);
  }

  lemma StreamedIs(on: string, accepted: bool, n: nat)
    ensures Streamed(on, accepted, n) == [on] + (if accepted then seq(n, _ => "stream grab") else []) + ["stream off"]
  {
  }

  lemma WholeTwo(r1: Request, r2: Request)
    ensures Whole([r1, r2]) == Whole([r1]) + Whole([r2])
  {
    assert [r1] + [r2] == [r1, r2];
    WholeConcat([r1], [r2]);
    hide Whole;
  }

  lemma WholeThree(r1: Request, r2: Request, r3: Request)
    ensures Whole([r1, r2, r3]) == Whole([r1]) + Whole([r2]) + Whole([r3])
  {
    assert [r1, r2] + [r3] == [r1, r2, r3];
    WholeTwo(r1, r2);
    WholeConcat([r1, r2], [r3]);
    hide Whole;
  }

  /** The GUI's sub-block, command by command. */
  function GuiTexts(a: seq<Answer>): seq<string> {
    var orig := BufHalf(LinesOf(NthAnswer(a, 0)));
    ["buf", "buf 512", "stream on 4000"]
    + (if Accepted(NthAnswer(a, 2)) then ["dac 2 on 256 3000 39"] + seq(10, _ => "stream grab") + ["buf"] else [])
    + ["dac 2 off", "stream off"]
    + if orig.Some? then ["buf " + Decimal(orig.value)] else []
  }

  lemma SaysIn(calls: seq<Call>, c: string, texts: seq<string>)
    requires Speaks(calls, c, texts)
    ensures InBlock(calls, c) == texts
    ensures forall d :: d != c ==> InBlock(calls, d) == []
  {
    AllInBlock(calls, c);
    forall d | d != c ensures InBlock(calls, d) == [] { NoneInBlock(calls, d); }
  }

  lemma WholeGui(a: seq<Answer>)
    ensures Speaks(Whole(GuiItems(a)), "R4.gui", GuiTexts(a))
  {
    var c, orig := "R4.gui", BufHalf(LinesOf(NthAnswer(a, 0)));
    var start := [Ask(c, "buf"), Ask(c, "buf 512"), Ask(c, "stream on 4000")];
    var mid := if Accepted(NthAnswer(a, 2)) then [Ask(c, "dac 2 on 256 3000 39"), Grabs(c, 10), Ask(c, "buf")] else [];
    var stop := [Ask(c, "dac 2 off"), Ask(c, "stream off")];
    var back := if orig.Some? then [Ask(c, "buf " + Decimal(orig.value))] else [];
    var grabs := ["dac 2 on 256 3000 39"] + seq(10, _ => "stream grab") + ["buf"];
    var texts := if Accepted(NthAnswer(a, 2)) then grabs else [];
    var last := if orig.Some? then ["buf " + Decimal(orig.value)] else [];
    WholeConcat(start + mid + stop, back);
    WholeConcat(start + mid, stop);
    WholeConcat(start, mid);
    AsksSay(c, "buf", "buf 512", "stream on 4000");
    StopSays(c, "dac 2 off", "stream off");
    TenSay(c);
    hide BufHalf, Decimal, Repeated;
    assert Whole([]) == [];
    if orig.Some? { OneSays(c, "buf " + Decimal(orig.value)); }
    hide Whole;
    SaysBoth(Whole(start), Whole(mid), c, ["buf", "buf 512", "stream on 4000"], texts);
    SaysBoth(Whole(start) + Whole(mid), Whole(stop), c, ["buf", "buf 512", "stream on 4000"] + texts,
             ["dac 2 off", "stream off"]);
    SaysBoth(Whole(start) + Whole(mid) + Whole(stop), Whole(back), c,
             ["buf", "buf 512", "stream on 4000"] + texts + ["dac 2 off", "stream off"], last);
  }

  lemma StopSays(c: string, x: string, y: string)
    ensures Speaks(Whole([Ask(c, x), Ask(c, y)]), c, [x, y])
  {
    WholeTwo(Ask(c, x), Ask(c, y));
    WholeOne(Ask(c, x));
    WholeOne(Ask(c, y));
    hide Whole;
  }

  lemma AsksSay(c: string, x: string, y: string, z: string)
    ensures Speaks(Whole([Ask(c, x), Ask(c, y), Ask(c, z)]), c, [x, y, z])
  {
    WholeThree(Ask(c, x), Ask(c, y), Ask(c, z));
    WholeOne(Ask(c, x));
    WholeOne(Ask(c, y));
    WholeOne(Ask(c, z));
    hide Whole;
  }

  lemma TenSay(c: string)
    ensures Speaks(Whole([Ask(c, "dac 2 on 256 3000 39"), Grabs(c, 10), Ask(c, "buf")]), c,
                  ["dac 2 on 256 3000 39"] + seq(10, _ => "stream grab") + ["buf"])
  {
    var dac, ten, buf := Ask(c, "dac 2 on 256 3000 39"), Grabs(c, 10), Ask(c, "buf");
    WholeThree(dac, ten, buf);
    WholeOne(ten);
    RepeatedTexts(c, 10);
    RepeatedIs((c, "stream grab"), 10);
    OneSays(c, "dac 2 on 256 3000 39");
    OneSays(c, "buf");
    hide Whole, Repeated;
    SaysBoth(Whole([dac]), Whole([ten]), c, ["dac 2 on 256 3000 39"], seq(10, _ => "stream grab"));
    SaysBoth(Whole([dac]) + Whole([ten]), Whole([buf]), c,
             ["dac 2 on 256 3000 39"] + seq(10, _ => "stream grab"), ["buf"]);
  }

  lemma R4WholeIs(caps: set<string>, a: seq<Answer>)
    ensures Whole(R4Items(caps, a))
            == Whole(StreamItems("R4.1000", "stream on 1000", 50, NthAnswer(a, 0)))
               + Whole(StreamItems("R4.4000", "stream on 4000", 50, NthAnswer(a, 2)))
               + Whole(StreamItems("R4.8000", "stream on 8000", 50, NthAnswer(a, 4)))
               + Whole(if "buf" in caps && "dac" in caps then GuiItems(Dropped(a, 6)) else [])
  {
    var i1 := StreamItems("R4.1000", "stream on 1000", 50, NthAnswer(a, 0));
    var i2 := StreamItems("R4.4000", "stream on 4000", 50, NthAnswer(a, 2));
    var i3 := StreamItems("R4.8000", "stream on 8000", 50, NthAnswer(a, 4));
    hide Whole, StreamItems, GuiItems;
    WholeConcat(i1, i2);
    WholeConcat(i1 + i2, i3);
    WholeConcat(ThreeRates(a), if "buf" in caps && "dac" in caps then GuiItems(Dropped(a, 6)) else []);
  }

  lemma FourSay(w: seq<Call>, x: seq<Call>, y: seq<Call>, z: seq<Call>, t: seq<string>, u: seq<string>, v: seq<string>,
                last: seq<string>)
    requires Speaks(w, "R4.1000", t) && Speaks(x, "R4.4000", u) && Speaks(y, "R4.8000", v) && Speaks(z, "R4.gui", last)
    ensures var calls := w + x + y + z;
            && InBlock(calls, "R4.1000") == t && InBlock(calls, "R4.4000") == u
            && InBlock(calls, "R4.8000") == v && InBlock(calls, "R4.gui") == last
  {
    hide InBlock, Speaks;
    SubBlocksDiffer();
    SaysIn(w, "R4.1000", t);
    SaysIn(x, "R4.4000", u);
    SaysIn(y, "R4.8000", v);
    SaysIn(z, "R4.gui", last);
    FourIn(w, x, y, z, "R4.1000");
    FourIn(w, x, y, z, "R4.4000");
    FourIn(w, x, y, z, "R4.8000");
    FourIn(w, x, y, z, "R4.gui");
  }

  /** What these calls say in the sub-blocks of R4. */
  ghost predicate R4Sent(calls: seq<Call>, caps: set<string>, a: seq<Answer>) {
    && InBlock(calls, "R4.1000") == Streamed("stream on 1000", Accepted(NthAnswer(a, 0)), 50)
    && InBlock(calls, "R4.4000") == Streamed("stream on 4000", Accepted(NthAnswer(a, 2)), 50)
    && InBlock(calls, "R4.8000") == Streamed("stream on 8000", Accepted(NthAnswer(a, 4)), 50)
    && InBlock(calls, "R4.gui") == if "buf" in caps && "dac" in caps then GuiTexts(Dropped(a, 6)) else []
  }

  /** R4's TX lines: a stream of its own rate and 50 grabs in each rate's
      sub-block, and the GUI's eight commands and ten grabs in the last one. */
  lemma R4In(caps: set<string>, a: seq<Answer>)
    ensures R4Sent(Whole(R4Items(caps, a)), caps, a)
  {
    var w4 := Whole(if "buf" in caps && "dac" in caps then GuiItems(Dropped(a, 6)) else []);
    R4WholeIs(caps, a);
    WholeStream("R4.1000", "stream on 1000", 50, NthAnswer(a, 0));
    WholeStream("R4.4000", "stream on 4000", 50, NthAnswer(a, 2));
    WholeStream("R4.8000", "stream on 8000", 50, NthAnswer(a, 4));
    WholeGui(Dropped(a, 6));
    assert Whole([]) == [] && Texts([]) == [];
    hide Whole, StreamItems, GuiItems, R4Items, GuiTexts, Streamed, InBlock, Texts, Dropped;
    FourSay(Whole(StreamItems("R4.1000", "stream on 1000", 50, NthAnswer(a, 0))),
            Whole(StreamItems("R4.4000", "stream on 4000", 50, NthAnswer(a, 2))),
            Whole(StreamItems("R4.8000", "stream on 8000", 50, NthAnswer(a, 4))), w4,
            Streamed("stream on 1000", Accepted(NthAnswer(a, 0)), 50),
            Streamed("stream on 4000", Accepted(NthAnswer(a, 2)), 50),
            Streamed("stream on 8000", Accepted(NthAnswer(a, 4)), 50),
            if "buf" in caps && "dac" in caps then GuiTexts(Dropped(a, 6)) else []);
  }

  lemma SubBlocksDiffer()
    ensures "R4.1000" != "R4.4000" && "R4.1000" != "R4.8000" && "R4.4000" != "R4.8000"
    ensures "R4.1000" != "R4.gui" && "R4.4000" != "R4.gui" && "R4.8000" != "R4.gui"
  {
    assert "R4.1000"[3] == '1' && "R4.4000"[3] == '4' && "R4.8000"[3] == '8' && "R4.gui"[3] == 'g';
  }

  lemma FourIn(w: seq<Call>, x: seq<Call>, y: seq<Call>, z: seq<Call>, c: string)
    ensures InBlock(w + x + y + z, c) == InBlock(w, c) + InBlock(x, c) + InBlock(y, c) + InBlock(z, c)
  {
    hide InBlock;
    InBlockConcat(w, x, c);
    InBlockConcat(w + x, y, c);
    InBlockConcat(w + x + y, z, c);
  }

  /** The same of a completed session's log. */
  lemma SentInR4(s: State, info: Info, host: Host)
    requires s.said == [] && OutcomeOf(s, info, host).Completed? && "stream" in info.caps
    requires |OutcomeOf(s, info, host).verdicts| == 8 && OutcomeOf(s, info, host).verdicts[4] != "timeout"
    ensures R4Sent(TxLines(Through(s, 8, info, host).state.said), info.caps,
                   Through(s, 4, info, host).state.script.answers)
  {
    var a := Through(s, 4, info, host).state.script.answers;
    SubBlocksOfR4();
    R4In(info.caps, a);
    hide Through, InFamily, Whole, R4Items, Streamed, GuiTexts, RatesOf, R5PartOf, InBlock, Dropped, SentBy, NthAnswer,
      Accepted;
    AllOfR4(s, info, host);
    SentInSession(s, info, host, 4, "R4.1000");
    SentInSession(s, info, host, 4, "R4.4000");
    SentInSession(s, info, host, 4, "R4.8000");
    SentInSession(s, info, host, 4, "R4.gui");
  }

  lemma AllOfR4(s: State, info: Info, host: Host)
    requires OutcomeOf(s, info, host).Completed? && "stream" in info.caps
    requires |OutcomeOf(s, info, host).verdicts| == 8 && OutcomeOf(s, info, host).verdicts[4] != "timeout"
    ensures SentBy(s, 4, info, host)
            == Whole(R4Items(info.caps, Through(s, 4, info, host).state.script.answers))
  {
    hide Through, Whole, R4Items, RatesOf, R5PartOf, SentBy;
    AllOf(s, 8, info, host, 4);
  }

  /** R0 sends three commands, and every other block one, if the board has it. */
  lemma SentInOthers(s: State, info: Info, host: Host)
    requires s.said == [] && OutcomeOf(s, info, host).Completed?
    ensures var tx, caps := TxLines(Through(s, 8, info, host).state.said), info.caps;
            && InBlock(tx, "R0") == ["version", "help", "status"]
            && InBlock(tx, "R1") == (if "regs" in caps then ["regs"] else [])
            && InBlock(tx, "R2") == (if "chain" in caps then ["chain all"] else [])
            && InBlock(tx, "R3") == (if "R3" !in host.skip && "test" in caps then ["test all"] else [])
            && InBlock(tx, "R6") == (if "route" in caps then ["route list"] else [])
            && InBlock(tx, "R7") == (if "status" in caps then ["status"] else [])
  {
    hide Through, InBlock, SentBy, RatesOf, R5PartOf;
    ThreeSent(s, info, host);
    OneSent(s, info, host, 1, "R1", "regs", "regs" in info.caps);
    OneSent(s, info, host, 2, "R2", "chain all", "chain" in info.caps);
    OneSent(s, info, host, 3, "R3", "test all", "R3" !in host.skip && "test" in info.caps);
    OneSent(s, info, host, 6, "R6", "route list", "route" in info.caps);
    OneSent(s, info, host, 7, "R7", "status", "status" in info.caps);
  }

  lemma OneSent(s: State, info: Info, host: Host, i: nat, block: string, command: string, there: bool)
    requires s.said == [] && OutcomeOf(s, info, host).Completed? && i < 8 && BLOCKS[i] == block
    requires forall a :: ItemsOf(i, info.caps, host, a) == if there then [Ask(block, command)] else []
    ensures InBlock(TxLines(Through(s, 8, info, host).state.said), block) == if there then [command] else []
  {
    OwnFamily(block);
    var t := Through(s, i, info, host).state;
    OneAsk(t, block, command);
    SaysOne(block, command);
    hide Through, InFamily, ItemsOf, RatesOf, R5PartOf;
    SentInSession(s, info, host, i, block);
    assert !there ==> SentBy(s, i, info, host) == [];
  }

  lemma SaysOne(block: string, command: string)
    ensures InBlock([(block, command)], block) == [command] && InBlock([], block) == []
  {
    assert [(block, command)][..0] == [];
  }

  lemma ThreeSent(s: State, info: Info, host: Host)
    requires s.said == [] && OutcomeOf(s, info, host).Completed?
    ensures InBlock(TxLines(Through(s, 8, info, host).state.said), "R0") == ["version", "help", "status"]
  {
    OwnFamily("R0");
    var t := Through(s, 0, info, host).state;
    var items := [Ask("R0", "version"), Ask("R0", "help"), Ask("R0", "status")];
    R0Whole(s, info, host);
    AsksSay("R0", "version", "help", "status");
    hide Through, InFamily, ItemsOf, RatesOf, R5PartOf, Whole, InBlock, Sends;
    SentInSession(s, info, host, 0, "R0");
    SaysIn(Whole(items), "R0", ["version", "help", "status"]);
  }

  lemma R0Whole(s: State, info: Info, host: Host)
    requires OutcomeOf(s, info, host).Completed?
    ensures SentBy(s, 0, info, host) == Whole([Ask("R0", "version"), Ask("R0", "help"), Ask("R0", "status")])
  {
    var t := Through(s, 0, info, host).state;
    VerdictAt(s, 8, info, host, 0);
    R0Proper(t, info);
    assert "ok"[0] != "timeout"[0] && "fail"[0] != "timeout"[0];
    hide Through, BlockOf, Whole, RatesOf, R5PartOf, Sends, Proper;
    BlockIs(t, info, host);
    AllOf(s, 8, info, host, 0);
  }

  lemma BlockIs(t: State, info: Info, host: Host)
    ensures BlockOf(t, 0, info, host) == R0Of(t, info)
  {
  }

  // ------------------------------------------------------------------------
  // The stand-in's stream
  // ------------------------------------------------------------------------

  /** What a text makes of the stand-in: "stream off", "stream on" with some
      input, a grab, or any other command. */
  ghost predicate Plays(b: FakeTarget.Board, text: string, c: FakeTarget.Board) {
    if text == "stream off" then c == FakeTarget.After(b, FakeTarget.StreamOff).1
    else if "stream on " <= text then exists input :: c == FakeTarget.After(b, FakeTarget.StreamOn(input)).1
    else if text == "stream grab" then c == FakeTarget.AfterGrab(b)
    else exists other :: !FakeTarget.IsStreamCommand(other) && c == FakeTarget.After(b, other).1
  }

  /** The stand-in's states while it hears these texts. */
  ghost predicate Played(texts: seq<string>, boards: seq<FakeTarget.Board>) {
    |boards| == |texts| + 1 && forall k :: 0 <= k < |texts| ==> Plays(boards[k], texts[k], boards[k + 1])
  }

  /** Whether the stand-in may stream after these texts. */
  function MayStream(on: bool, texts: seq<string>): bool {
    if texts == [] then on
    else
      var n := |texts| - 1;
      if texts[n] == "stream off" then false else "stream on " <= texts[n] || MayStream(on, texts[..n])
  }

  lemma OnOrOff(b: FakeTarget.Board, text: string, c: FakeTarget.Board, on: bool)
    requires Plays(b, text, c) && (b.chainOn ==> on)
    ensures c.chainOn ==> text != "stream off" && ("stream on " <= text || on)
  {
    hide FakeTarget.Applied, FakeTarget.GoodInput;
    if text != "stream off" && !("stream on " <= text) {
      if text == "stream grab" {
        FakeTargetGrab(b);
      } else {
        var other :| !FakeTarget.IsStreamCommand(other) && c == FakeTarget.After(b, other).1;
        FakeTarget.StreamUntouched(b, other);
      }
    }
  }

  lemma FakeTargetGrab(b: FakeTarget.Board)
    ensures FakeTarget.AfterGrab(b).chainOn == b.chainOn
  {
  }

  lemma {:induction false} StreamsOnlyIf(texts: seq<string>, boards: seq<FakeTarget.Board>)
    requires Played(texts, boards)
    ensures boards[|texts|].chainOn ==> MayStream(boards[0].chainOn, texts)
  {
    if texts != [] {
      var n := |texts| - 1;
      StreamsOnlyIf(texts[..n], boards[..n + 1]);
      hide Plays;
      OnOrOff(boards[n], texts[n], boards[n + 1], MayStream(boards[0].chainOn, texts[..n]));
    }
  }

  lemma {:induction false} MayStreamConcat(on: bool, x: seq<string>, y: seq<string>)
    ensures MayStream(on, x + y) == MayStream(MayStream(on, x), y)
  {
    if y == [] {
      assert x + y == x;
    } else {
      var n := |y| - 1;
      assert (x + y)[..|x + y| - 1] == x + y[..n];
      MayStreamConcat(on, x, y[..n]);
    }
  }

  lemma {:induction false} NoStart(on: bool, texts: seq<string>)
    requires forall k :: 0 <= k < |texts| ==> !("stream on " <= texts[k])
    ensures MayStream(on, texts) ==> on
  {
    if texts != [] { NoStart(on, texts[..|texts| - 1]); }
  }

  /** Once a stream is switched off, it is off. */
  lemma OffAfter(on: bool, texts: seq<string>, later: seq<string>)
    requires texts != [] && texts[|texts| - 1] == "stream off"
    requires forall k :: 0 <= k < |later| ==> !("stream on " <= later[k])
    ensures !MayStream(on, texts + later)
  {
    MayStreamConcat(on, texts, later);
    NoStart(false, later);
  }

  lemma OffAfterStream(on: bool, command: string, accepted: bool, n: nat)
    ensures !MayStream(on, Streamed(command, accepted, n))
  {
    var texts := Streamed(command, accepted, n);
    OffAfter(on, texts, []);
    assert texts + [] == texts;
  }

  lemma OffAfterGui(on: bool, a: seq<Answer>)
    ensures !MayStream(on, GuiTexts(a))
  {
    var orig := BufHalf(LinesOf(NthAnswer(a, 0)));
    var back := if orig.Some? then ["buf " + Decimal(orig.value)] else [];
    assert "stream on "[0] == 's';
    OffAfter(on, GuiTexts(a)[..|GuiTexts(a)| - |back|], back);
    assert GuiTexts(a) == GuiTexts(a)[..|GuiTexts(a)| - |back|] + back;
  }

  lemma OffAfterR4(on: bool, caps: set<string>, a: seq<Answer>)
    ensures !MayStream(on, Texts(Whole(R4Items(caps, a))))
  {
    var w1 := Whole(StreamItems("R4.1000", "stream on 1000", 50, NthAnswer(a, 0)));
    var w2 := Whole(StreamItems("R4.4000", "stream on 4000", 50, NthAnswer(a, 2)));
    var w3 := Whole(StreamItems("R4.8000", "stream on 8000", 50, NthAnswer(a, 4)));
    var w4 := Whole(if "buf" in caps && "dac" in caps then GuiItems(Dropped(a, 6)) else []);
    R4WholeIs(caps, a);
    WholeStream("R4.8000", "stream on 8000", 50, NthAnswer(a, 4));
    WholeGui(Dropped(a, 6));
    assert Whole([]) == [] && Texts([]) == [];
    hide Whole, StreamItems, GuiItems, R4Items, GuiTexts, Streamed, Texts;
    TextsConcat(w1 + w2, w3);
    TextsConcat(w1 + w2 + w3, w4);
    MayStreamConcat(on, Texts(w1 + w2), Texts(w3));
    MayStreamConcat(on, Texts(w1 + w2 + w3), Texts(w4));
    OffAfterStream(MayStream(on, Texts(w1 + w2)), "stream on 8000", Accepted(NthAnswer(a, 4)), 50);
    if "buf" in caps && "dac" in caps {
      OffAfterGui(MayStream(on, Texts(w1 + w2 + w3)), Dropped(a, 6));
    } else {
      assert Texts(w1 + w2 + w3) + [] == Texts(w1 + w2 + w3);
    }
  }

  predicate Plain(items: seq<Request>) {
    forall k :: 0 <= k < |items| ==> items[k].Ask? && !("stream on " <= items[k].command)
  }

  lemma {:induction false} PlainSends(items: seq<Request>, a: seq<Answer>, g: seq<GrabAnswer>)
    requires Plain(items)
    ensures forall k :: 0 <= k < |Sends(items, a, g)| ==> !("stream on " <= Sends(items, a, g)[k].1)
  {
    if items != [] { PlainSends(items[..|items| - 1], a, g); }
  }

  lemma OthersPlain(i: nat, caps: set<string>, host: Host, a: seq<Answer>)
    requires i < 8 && i != 4 && i != 5
    ensures Plain(ItemsOf(i, caps, host, a))
  {
    var on := "stream on ";
    assert on[0] == 's' && on[1] == 't' && on[2] == 'r';
    assert "status"[2] == 'a' && "version"[0] == 'v' && "help"[0] == 'h' && "regs"[0] == 'r' && "chain all"[0] == 'c';
    assert "test all"[0] == 't' && "route list"[0] == 'r';
  }

  /** A block of R4 or R5 that did not time out leaves the stream off, and every other block does not start it. */
  lemma BlockLeavesOff(s: State, n: nat, info: Info, host: Host, i: nat)
    requires n <= 8 && i < n && !Through(s, n, info, host).stopped && |Through(s, n, info, host).verdicts| == n
    requires i == 4 || i == 5 ==> Through(s, n, info, host).verdicts[i] != "timeout"
    ensures !MayStream(false, Texts(SentBy(s, i, info, host)))
  {
    var t := Through(s, i, info, host).state;
    var a := t.script.answers;
    hide Through, Whole, Sends, MayStream, StreamItems, R4Items;
    if i == 4 || i == 5 {
      AllOf(s, n, info, host, i);
      NothingSaid();
      NoStart(false, []);
      hide Texts;
      if "stream" in info.caps && i == 4 { OffAfterR4(false, info.caps, a); }
      if "stream" in info.caps && i == 5 {
        WholeStream("R5", "stream on " + host.r5Input, 10, NthAnswer(a, 0));
        OffAfterStream(false, "stream on " + host.r5Input, Accepted(NthAnswer(a, 0)), 10);
      }
    } else {
      OthersPlain(i, info.caps, host, a);
      hide ItemsOf;
      PlainSends(ItemsOf(i, info.caps, host, a), a, t.script.grabs);
      NoStart(false, Texts(SentBy(s, i, info, host)));
    }
  }

  lemma {:induction false} OffSoFar(s: State, n: nat, info: Info, host: Host, m: nat)
    requires m <= n <= 8 && !Through(s, n, info, host).stopped && |Through(s, n, info, host).verdicts| == n
    requires forall i :: 4 <= i < 6 && i < n ==> Through(s, n, info, host).verdicts[i] != "timeout"
    ensures !MayStream(false, Texts(SentUpTo(s, m, info, host)))
  {
    hide Through, SentBy, MayStream, Texts;
    NothingSaid();
    NoStart(false, []);
    if m > 0 {
      OffSoFar(s, n, info, host, m - 1);
      VerdictAt(s, n, info, host, m - 1);
      BlockLeavesOff(s, n, info, host, m - 1);
      TextsConcat(SentUpTo(s, m - 1, info, host), SentBy(s, m - 1, info, host));
      MayStreamConcat(false, Texts(SentUpTo(s, m - 1, info, host)), Texts(SentBy(s, m - 1, info, host)));
    }
  }

  /** After any number of blocks of which neither R4 nor R5 timed out, a stand-in
      that has heard the session, and was idle before it, streams no more. */
  lemma StreamLeftOff(s: State, n: nat, info: Info, host: Host, boards: seq<FakeTarget.Board>)
    requires s.heard == [] && n <= 8 && !Through(s, n, info, host).stopped
    requires |Through(s, n, info, host).verdicts| == n
    requires forall i :: 4 <= i < 6 && i < n ==> Through(s, n, info, host).verdicts[i] != "timeout"
    requires Played(Through(s, n, info, host).state.heard, boards) && !boards[0].chainOn
    ensures !boards[|boards| - 1].chainOn
  {
    hide Through, SentUpTo, MayStream, Plays, TxLines;
    var heard := Through(s, n, info, host).state.heard;
    OffSoFar(s, n, info, host, n);
    SessionCalls(s, n, info, host);
    assert heard == Texts(SentUpTo(s, n, info, host));
    StreamsOnlyIf(heard, boards);
  }
}
