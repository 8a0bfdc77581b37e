/** The stand-in board (tools/adc_gui.py, class FakeTarget): the two DACs, the
    signal generator and the streaming chain share DAC2. `After` and `AfterGrab`
    say what each command and grab does to the board; the class does it. */
module FakeTarget {
  import opened Common
  import opened Text
  import opened Crc
  import opened GrabFrame
  import opened FrameRoundTrip

  // ------------------------------------------------------------------------
  // The board
  // ------------------------------------------------------------------------

  datatype DacUnit = DacUnit(on: bool, low: int, high: int, slp: int)

  /** An input as the client asks for it. */
  datatype Config = TestInput(ksps: int) | CustomInput(ksps: int, core: int, pinsel: int, samc: int)

  /** What the chain runs with. */
  datatype Stream = Stream(test: bool, ksps: int, core: int, pinsel: int, samc: int)

  datatype Board = Board(
    dac: map<int, DacUnit>, bufSize: int, bufHalfMax: int,
    chainOn: bool, stream: Stream, dac2User: bool, readyHalf: int, grabs: int,
    sgOn: bool, sgDac: int, sgLo: int, sgHi: int)

  /** The nearest integer to p/q, halves to the even one. */
  function Rounded(p: nat, q: nat): (r: nat)
    requires q > 0
  {
    var d, m := p / q, p % q;
    if 2 * m < q || (2 * m == q && d % 2 == 0) then d else d + 1
  }

  /** The nearest 160 MHz / N to the wanted rate, N at least 4. */
  function ActualKsps(want: int): int {
    var n := Rounded(160000, if want > 1 then want else 1);
    Rounded(160000, if n > 4 then n else 4)
  }

  /** A sampling time that is not printed as digits counts as none. */
  function SamcOf(samc: int): int { if samc < 0 then 0 else samc }

  function Applied(c: Config): Stream {
    match c
    case TestInput(ksps) => Stream(true, ActualKsps(ksps), 5, 3, 0)
    case CustomInput(ksps, core, pinsel, samc) => Stream(false, ActualKsps(ksps), core, pinsel, SamcOf(samc))
  }

  const BOOT_STREAM := Stream(true, 0, 5, 3, 0)

  const DAC_CODE_MIN := 0xCD
  const DAC_CODE_MAX := 0xF32

  // ------------------------------------------------------------------------
  // Commands
  // ------------------------------------------------------------------------

  /** The arguments of "dac <unit> on"; None if one is no number. */
  datatype DacVerb = DacOff | DacOn(levels: Option<(int, int, int)>, force: bool) | DacOther

  datatype Command =
    | Dac(unit: int, verb: DacVerb)
    | Buf(half: Option<int>)
    | SiggenOn(unit: int, n: int, hz: int, force: bool, makesTable: bool)
    | SiggenOff
    | SiggenLimits(lo: int, hi: int)
    | StreamOn(input: Config)
    | StreamOff
    | Unrelated(accepted: bool)

  predicate IsStreamCommand(c: Command) { c.StreamOn? || c.StreamOff? }

  predicate GoodLevels(low: int, high: int, slp: int, force: bool) {
    && 0 <= low <= 4095 && 0 <= high <= 4095
    && (if force then 0 <= slp <= 65535 else 1 <= slp <= 255 && low < high)
    && (force || (DAC_CODE_MIN + slp <= low && high <= DAC_CODE_MAX - slp))
  }

  predicate GoodInput(c: Config) {
    && 1 <= c.ksps <= 40000
    && (c.CustomInput? ==> 1 <= c.core <= 5 && 0 <= c.pinsel <= 15 && c.samc <= 31)
  }

  /** Any "dac" command to the generator's own DAC stops the generator. */
  function Released(b: Board, unit: int): Board {
    if b.sgOn && b.sgDac == unit then b.(sgOn := false, sgDac := 0) else b
  }

  function WithDac(b: Board, unit: int, d: DacUnit): Board {
    b.(dac := b.dac[unit := d], dac2User := b.dac2User || (unit == 2 && b.chainOn && b.stream.test))
  }

  function Started(b: Board, s: Stream): Board {
    b.(chainOn := true, stream := s, dac2User := false, readyHalf := 0, grabs := 0)
  }

  /** Whether a command is accepted, and the board after it. */
  function After(b: Board, c: Command): (bool, Board) {
    match c
    case Dac(unit, verb) =>
      if unit !in {1, 2} || unit !in b.dac then (false, b)
      else
        var r := Released(b, unit);
        (match verb
         case DacOther => (false, r)
         case DacOff => (true, WithDac(r, unit, r.dac[unit].(on := false)))
         case DacOn(levels, force) =>
           if levels.None? || !GoodLevels(levels.value.0, levels.value.1, levels.value.2, force) then (false, r)
           else (true, WithDac(r, unit, DacUnit(true, levels.value.0, levels.value.1, levels.value.2))))
    case Buf(half) =>
      if half.None? then (true, b)
      else if half.value < 16 || half.value > b.bufHalfMax || half.value % 2 != 0 || b.chainOn then (false, b)
      else (true, b.(bufSize := 2 * half.value))
    case SiggenOn(unit, n, hz, force, makesTable) =>
      if unit !in {1, 2} || unit !in b.dac || !(2 <= n <= 8192) || !(100 <= hz <= 1000000) then (false, b)
      else
        var s := b.(sgOn := false);
        if (s.chainOn && s.stream.test && unit == 2) || s.sgHi > 4095 || (!force && (s.sgLo < 205 || s.sgHi > 3890))
           || s.sgLo >= s.sgHi || !makesTable
        then (false, s)
        else (true, s.(dac := s.dac[unit := s.dac[unit].(on := false)], sgOn := true, sgDac := unit))
    case SiggenOff => (true, b.(sgOn := false, sgDac := 0))
    case SiggenLimits(lo, hi) =>
      if 0 <= lo <= 4095 && 0 <= hi <= 4095 then (true, b.(sgLo := lo, sgHi := hi)) else (false, b)
    case StreamOn(input) =>
      if !GoodInput(input) || (input.TestInput? && b.sgOn && b.sgDac == 2) then (false, b)
      else (true, Started(b, Applied(input)))
    case StreamOff =>
      (true, b.(chainOn := false, dac2User := false, stream := Stream(true, b.stream.ksps, 5, 3, 0)))
    case Unrelated(accepted) => (accepted, b)
  }

  lemma StreamOnIs(b: Board, input: Config)
    ensures !GoodInput(input) || (input.TestInput? && b.sgOn && b.sgDac == 2) ==>
              After(b, StreamOn(input)) == (false, b)
    ensures GoodInput(input) && input.TestInput? && !(b.sgOn && b.sgDac == 2) ==>
              After(b, StreamOn(input)) == (true, Started(b, Stream(true, ActualKsps(input.ksps), 5, 3, 0)))
    ensures GoodInput(input) && input.CustomInput? ==>
              After(b, StreamOn(input))
              == (true, Started(b, Stream(false, ActualKsps(input.ksps), input.core, input.pinsel, SamcOf(input.samc))))
  {
  }

  lemma DacIs(b: Board, unit: int, verb: DacVerb)
    requires 1 in b.dac && 2 in b.dac
    ensures unit !in {1, 2} ==> After(b, Dac(unit, verb)) == (false, b)
    ensures unit in {1, 2} ==>
              var r := Released(b, unit);
              After(b, Dac(unit, verb))
              == match verb
                 case DacOther => (false, r)
                 case DacOff => (true, WithDac(r, unit, r.dac[unit].(on := false)))
                 case DacOn(levels, force) =>
                   if levels.Some? && GoodLevels(levels.value.0, levels.value.1, levels.value.2, force) then
                     (true, WithDac(r, unit, DacUnit(true, levels.value.0, levels.value.1, levels.value.2)))
                   else (false, r)
  {
    hide GoodLevels, Released, WithDac;
  }

  function AfterGrab(b: Board): Board {
    if b.chainOn then b.(grabs := b.grabs + 1, readyHalf := 1 - b.readyHalf) else b
  }

  /** What the board streams, if it streams. */
  function Streaming(b: Board): Option<Stream> { if b.chainOn then Some(b.stream) else None }

  // ------------------------------------------------------------------------
  // The class
  // ------------------------------------------------------------------------

  const NO_STREAM := Header(0, 0, 0, 0, 0, 0, 0, 0, 0, 0, None, None, None, [])

  /** The header of a window; the other fields are the signal's. */
  function WindowHeader(b: Board, n: nat, signal: Header): Header {
    signal.(n := n, from_ := if b.readyHalf == 0 then 0 else n, ksps := if b.stream.ksps > 0 then b.stream.ksps else 0,
            halves := 2, xfer := 2 * n)
  }

  function BadFirstByte(payload: seq<byte>): seq<byte> {
    if payload == [] then [] else [payload[0] ^ 0xFF] + payload[1..]
  }

  class FakeTarget {
    var dac: map<int, DacUnit>
    var bufSize: int
    var bufHalfMax: int
    var chainOn: bool
    var chainKsps: int
    var chainCore: int
    var chainPinsel: int
    var chainSamc: int
    var chainTest: bool
    var chainDac2User: bool
    var chainReadyHalf: int
    var chainGrabs: int
    var sgOn: bool
    var sgDac: int
    var sgLo: int
    var sgHi: int

    function State(): Board
      reads this
    {
      Board(dac, bufSize, bufHalfMax, chainOn, Stream(chainTest, chainKsps, chainCore, chainPinsel, chainSamc),
            chainDac2User, chainReadyHalf, chainGrabs, sgOn, sgDac, sgLo, sgHi)
    }

    constructor (halfMax: int)
      ensures State() == Boot(halfMax)
    {
      dac := map[1 := DacUnit(false, 0x100, 0xF00, 8), 2 := DacUnit(false, 0x100, 0xF00, 8)];
      bufSize, bufHalfMax := 4096, halfMax;
      chainOn, chainKsps, chainCore, chainPinsel, chainSamc, chainTest := false, 0, 5, 3, 0, true;
      chainDac2User, chainReadyHalf, chainGrabs := false, 0, 0;
      sgOn, sgDac, sgLo, sgHi := false, 0, 205, 3890;
    }

    /** The triangle's levels, if they are allowed. */
    method SetDac(unit: int, low: int, high: int, slp: int, force: bool) returns (ok: bool)
      modifies this`dac
      ensures ok == GoodLevels(low, high, slp, force)
      ensures dac == if ok then old(dac)[unit := DacUnit(true, low, high, slp)] else old(dac)
    {
      if !(0 <= low <= 4095) || !(0 <= high <= 4095)
         || !((if force then 0 else 1) <= slp <= (if force then 65535 else 255)) || (!force && high <= low) {
        return false;
      }
      if !force && low < DAC_CODE_MIN + slp { return false; }
      if !force && high > DAC_CODE_MAX - slp { return false; }
      dac := dac[unit := DacUnit(true, low, high, slp)];
      ok := true;
    }

    method DacCommand(unit: int, verb: DacVerb) returns (ok: bool)
      requires 1 in dac && 2 in dac
      modifies this
      ensures (ok, State()) == After(old(State()), Dac(unit, verb))
    {
      DacIs(State(), unit, verb);
      hide After, GoodLevels;
      if unit !in {1, 2} { return false; }
      if sgOn && sgDac == unit {
        sgOn := false;
        sgDac := 0;
      }
      match verb {
        case DacOff =>
          dac := dac[unit := dac[unit].(on := false)];
        case DacOther =>
          return false;
        case DacOn(levels, force) =>
          if levels.None? { return false; }
          var allowed := SetDac(unit, levels.value.0, levels.value.1, levels.value.2, force);
          if !allowed { return false; }
      }
      if unit == 2 && chainOn && chainTest { chainDac2User := true; }
      ok := true;
    }

    method BufCommand(half: Option<int>) returns (ok: bool)
      modifies this`bufSize
      ensures (ok, State()) == After(old(State()), Buf(half))
    {
      if half.Some? {
        if half.value < 16 || half.value > bufHalfMax { return false; }
        if half.value % 2 != 0 || chainOn { return false; }
        bufSize := 2 * half.value;
      }
      ok := true;
    }

    method SiggenStart(unit: int, n: int, hz: int, force: bool, makesTable: bool) returns (ok: bool)
      requires 1 in dac && 2 in dac
      modifies this
      ensures (ok, State()) == After(old(State()), SiggenOn(unit, n, hz, force, makesTable))
    {
      if unit !in {1, 2} || !(2 <= n <= 8192) || !(100 <= hz <= 1000000) { return false; }
      sgOn := false;
      if chainOn && chainTest && unit == 2 { return false; }
      if sgHi > 4095 || (!force && (sgLo < 205 || sgHi > 3890)) { return false; }
      if sgLo >= sgHi || !makesTable { return false; }
      dac := dac[unit := dac[unit].(on := false)];
      sgOn, sgDac := true, unit;
      ok := true;
    }

    method StreamStop() returns (ok: bool)
      modifies this
      ensures (ok, State()) == After(old(State()), StreamOff)
    {
      chainOn := false;
      chainDac2User := false;
      chainCore, chainPinsel, chainSamc, chainTest := 5, 3, 0, true;
      ok := true;
    }

    method StreamStart(input: Config) returns (ok: bool)
      modifies this
      ensures (ok, State()) == After(old(State()), StreamOn(input))
    {
      StreamOnIs(State(), input);
      hide After, Applied, ActualKsps;
      if !(1 <= input.ksps <= 40000) { return false; }
      var core, pinsel, samc, test;
      match input {
        case TestInput(_) =>
          if sgOn && sgDac == 2 { return false; }
          core, pinsel, samc, test := 5, 3, 0, true;
        case CustomInput(_, c, p, s) =>
          core, pinsel, samc, test := c, p, if s < 0 then 0 else s, false;
          if !(1 <= core <= 5) || !(0 <= pinsel <= 15) || !(0 <= samc <= 31) { return false; }
      }
      chainOn := true;
      chainKsps := ActualKsps(input.ksps);
      chainCore, chainPinsel, chainSamc, chainTest := core, pinsel, samc, test;
      chainDac2User := false;
      chainReadyHalf := 0;
      chainGrabs := 0;
      ok := true;
    }

    method Cmd(c: Command) returns (ok: bool)
      requires 1 in dac && 2 in dac
      modifies this
      ensures (ok, State()) == After(old(State()), c)
    {
      match c {
        case Dac(unit, verb) => ok := DacCommand(unit, verb);
        case Buf(half) => ok := BufCommand(half);
        case SiggenOn(unit, n, hz, force, makesTable) => ok := SiggenStart(unit, n, hz, force, makesTable);
        case SiggenOff => sgOn := false; sgDac := 0; ok := true;
        case SiggenLimits(lo, hi) =>
          ok := 0 <= lo <= 4095 && 0 <= hi <= 4095;
          if ok { sgLo := lo; sgHi := hi; }
        case StreamOn(input) => ok := StreamStart(input);
        case StreamOff => ok := StreamStop();
        case Unrelated(accepted) => ok := accepted;
      }
    }

    /** One grab of the window `v`; the frame goes through the wire format. */
    method Grab(v: seq<sample>, signal: Header, corrupt: bool) returns (r: Result<Frame, FrameException>)
      requires |v| == bufSize
      modifies this`chainGrabs, this`chainReadyHalf
      ensures State() == AfterGrab(old(State()))
      ensures !old(chainOn) ==> r == ParseGrabFrame(HeaderText(NO_STREAM) + "\r\n", [], Tail(CrcOf([]), NAK))
      ensures old(chainOn) ==>
                r == ParseGrabFrame(HeaderText(WindowHeader(old(State()), |v|, signal)) + "\r\n",
                                    if corrupt then BadFirstByte(Payload(v)) else Payload(v),
                                    Tail(CrcOf(Payload(v)), ACK))
    {
      hide HeaderText, ParseGrabFrame, Tail, CrcOf, Payload;
      if !chainOn {
        r := ParseGrabFrame(HeaderText(NO_STREAM) + "\r\n", [], Tail(CrcOf([]), NAK));
        return;
      }
      var header := WindowHeader(State(), |v|, signal);
      chainGrabs := chainGrabs + 1;
      chainReadyHalf := 1 - chainReadyHalf;
      var payload := Payload(v);
      var crc := CrcOf(payload);
      if corrupt { payload := BadFirstByte(payload); }
      r := ParseGrabFrame(HeaderText(header) + "\r\n", payload, Tail(crc, ACK));
    }
  }

  function Boot(halfMax: int): Board {
    Board(map[1 := DacUnit(false, 0x100, 0xF00, 8), 2 := DacUnit(false, 0x100, 0xF00, 8)], 4096, halfMax,
          false, BOOT_STREAM, false, 0, 0, false, 0, 205, 3890)
  }

  // ------------------------------------------------------------------------
  // Every reachable board
  // ------------------------------------------------------------------------

  datatype Event = Sent(c: Command) | Grabbed

  function AfterEvent(b: Board, e: Event): Board {
    match e
    case Sent(c) => After(b, c).1
    case Grabbed => AfterGrab(b)
  }

  function AfterAll(b: Board, events: seq<Event>): Board {
    if events == [] then b else AfterEvent(AfterAll(b, events[..|events| - 1]), events[|events| - 1])
  }

  /** DAC2 has one owner, a DAC the generator plays on has no triangle, and the
      half a grab reads is the parity of the grabs so far. */
  predicate OneOwner(b: Board) {
    && 1 in b.dac && 2 in b.dac
    && (b.sgOn ==> b.sgDac in {1, 2} && !b.dac[b.sgDac].on)
    && !(b.sgOn && b.sgDac == 2 && b.chainOn && b.stream.test)
    && (b.dac2User ==> b.chainOn && b.stream.test)
    && 0 <= b.grabs && b.readyHalf == b.grabs % 2
  }

  lemma DacKeepsOwner(b: Board, unit: int, verb: DacVerb)
    requires OneOwner(b)
    ensures OneOwner(After(b, Dac(unit, verb)).1)
  {
    DacIs(b, unit, verb);
    hide After, GoodLevels;
  }

  lemma CommandKeepsOwner(b: Board, c: Command)
    requires OneOwner(b) && !c.Dac?
    ensures OneOwner(After(b, c).1)
  {
    hide ActualKsps, GoodInput;
  }

  lemma EventKeepsOwner(b: Board, e: Event)
    requires OneOwner(b)
    ensures OneOwner(AfterEvent(b, e))
  {
    match e
    case Grabbed => hide After;
    case Sent(c) =>
      hide After, OneOwner;
      if c.Dac? { DacKeepsOwner(b, c.unit, c.verb); } else { CommandKeepsOwner(b, c); }
  }

  /** Whatever is sent and grabbed since power-up, DAC2 has one owner. */
  lemma {:induction false} DacHasOneOwner(halfMax: int, events: seq<Event>)
    ensures OneOwner(AfterAll(Boot(halfMax), events))
  {
    hide AfterEvent, OneOwner;
    if events == [] {
      BootOwner(halfMax);
    } else {
      DacHasOneOwner(halfMax, events[..|events| - 1]);
      EventKeepsOwner(AfterAll(Boot(halfMax), events[..|events| - 1]), events[|events| - 1]);
    }
  }

  lemma BootOwner(halfMax: int)
    ensures OneOwner(Boot(halfMax))
  {
  }

  // ------------------------------------------------------------------------
  // The grabs of one stream
  // ------------------------------------------------------------------------

  predicate KeepsStream(e: Event) { e.Sent? ==> !IsStreamCommand(e.c) }

  /** Commands other than "stream on" and "stream off" leave the stream alone. */
  lemma StreamUntouched(b: Board, c: Command)
    requires !IsStreamCommand(c)
    ensures Streaming(After(b, c).1) == Streaming(b)
    ensures After(b, c).1.readyHalf == b.readyHalf && After(b, c).1.grabs == b.grabs
    ensures b.chainOn ==> After(b, c).1.bufSize == b.bufSize
  {
    hide GoodLevels;
  }

  /** Where the windows of the grabs in a run begin. */
  function Windows(b: Board, events: seq<Event>): seq<(nat, nat)>
    decreases |events|
  {
    if events == [] then []
    else
      (if events[0].Grabbed? && b.chainOn && b.bufSize >= 0 then
         [(WindowHeader(b, b.bufSize, NO_STREAM).from_, b.bufSize)]
       else [])
      + Windows(AfterEvent(b, events[0]), events[1..])
  }

  /** While one stream runs, whatever else is sent, its grabs take the two
      halves of a double buffer of constant size in turn. */
  lemma {:induction false} GrabsAlternate(b: Board, events: seq<Event>)
    requires OneOwner(b) && b.chainOn && b.bufSize >= 0 && forall i :: 0 <= i < |events| ==> KeepsStream(events[i])
    ensures forall k :: 0 <= k < |Windows(b, events)| ==>
              Windows(b, events)[k] == (((b.grabs + k) % 2) * b.bufSize, b.bufSize)
    decreases |events|
  {
    hide After, OneOwner;
    if events != [] {
      var next := AfterEvent(b, events[0]);
      EventKeepsOwner(b, events[0]);
      assert KeepsStream(events[0]);
      if events[0].Sent? { StreamUntouched(b, events[0].c); }
      assert next.chainOn && next.bufSize == b.bufSize;
      GrabsAlternate(next, events[1..]);
      ParityOf(b);
      var w, v := Windows(b, events), Windows(next, events[1..]);
      forall k | 0 <= k < |w| ensures w[k] == (((b.grabs + k) % 2) * b.bufSize, b.bufSize) {
        if events[0].Grabbed? {
          assert next.grabs == b.grabs + 1;
          if k > 0 { assert w[k] == v[k - 1] && next.grabs + (k - 1) == b.grabs + k; }
        } else {
          assert w == v && next.grabs == b.grabs;
        }
      }
    }
  }

  /** A buffer command on an idle board is accepted exactly for an even number of
      samples a half between 16 and the board's most; the grabs of the next
      stream are then of two halves and begin at its first one. */
  lemma BufSizesGrabs(b: Board, half: int, input: Config, events: seq<Event>)
    requires OneOwner(b) && !b.chainOn && After(b, StreamOn(input)).0
    requires forall i :: 0 <= i < |events| ==> KeepsStream(events[i])
    ensures After(b, Buf(Some(half))).0 <==> 16 <= half <= b.bufHalfMax && half % 2 == 0
    ensures After(b, Buf(Some(half))).0 ==>
              var on := After(After(b, Buf(Some(half))).1, StreamOn(input)).1;
              forall k :: 0 <= k < |Windows(on, events)| ==>
                Windows(on, events)[k] == ((k % 2) * (2 * half), 2 * half)
  {
    var sized, streams := After(b, Buf(Some(half))), After(After(b, Buf(Some(half))).1, StreamOn(input));
    StreamOnIs(b, input);
    StreamOnIs(sized.1, input);
    if sized.0 {
      CommandKeepsOwner(b, Buf(Some(half)));
      CommandKeepsOwner(sized.1, StreamOn(input));
      assert streams.1.chainOn && streams.1.bufSize == 2 * half && streams.1.grabs == 0;
      hide After, OneOwner, Windows, KeepsStream;
      GrabsAlternate(streams.1, events);
    }
  }

  /** When a triangle is played on a DAC of the board: unless it is forced, with
      both ends a slope step inside the codes 205 to 3890, and the low one first. */
  lemma DacOnIff(b: Board, unit: int, low: int, high: int, slp: int, force: bool)
    requires 1 in b.dac && 2 in b.dac && (unit == 1 || unit == 2)
    ensures var r := After(b, Dac(unit, DacOn(Some((low, high, slp)), force)));
            && (r.0 <==> 0 <= low <= 4095 && 0 <= high <= 4095
                         && if force then 0 <= slp <= 65535
                            else 1 <= slp <= 255 && low < high && low - slp >= 205 && high + slp <= 3890)
            && (r.0 ==> r.1.dac[unit] == DacUnit(true, low, high, slp))
            && r.1.dac[3 - unit] == b.dac[3 - unit]
            && (b.sgOn && b.sgDac == unit ==> !r.1.sgOn)
  {
  }

  lemma RoundedNearest(p: nat, q: nat)
    requires q > 0
    ensures var r := Rounded(p, q); 2 * (p - q * r) <= q && 2 * (q * r - p) <= q
  {
    var d, m := p / q, p % q;
    assert p == q * d + m;
    assert q * (d + 1) == q * d + q;
  }

  /** n is nearest to 160 MHz over the wanted rate, or is 4 where that is not above 4.5. */
  predicate RateBy(want: int, n: nat) {
    && n >= 4
    && ((2 * (160000 - want * n) <= want && 2 * (want * n - 160000) <= want) || (n == 4 && 2 * 160000 <= 9 * want))
  }

  lemma DivisorFits(want: int, n: nat)
    requires want >= 1 && 2 * (160000 - want * n) <= want && 2 * (want * n - 160000) <= want
    ensures RateBy(want, if n > 4 then n else 4)
  {
    if n < 4 { assert want * n <= want * 3; }
  }

  /** The rate is 160 MHz divided by the whole number that is nearest to the
      wanted division, or by 4 if that is less, rounded to the nearest. */
  lemma RateIsNearest(want: int)
    requires want >= 1
    ensures exists n: nat :: RateBy(want, n) && 2 * (160000 - n * ActualKsps(want)) <= n
                             && 2 * (n * ActualKsps(want) - 160000) <= n
  {
    var n := Rounded(160000, want);
    var divisor := if n > 4 then n else 4;
    RoundedNearest(160000, want);
    RoundedNearest(160000, divisor);
    DivisorFits(want, n);
    assert ActualKsps(want) == Rounded(160000, divisor);
    hide RateBy, ActualKsps, Rounded;
  }

  lemma UsualRates()
    ensures ActualKsps(1000) == 1000 && ActualKsps(4000) == 4000 && ActualKsps(8000) == 8000
    ensures ActualKsps(3000) == 3019 && ActualKsps(50000) == 40000
  {
  }

  lemma ParityOf(b: Board)
    requires OneOwner(b)
    ensures b.readyHalf == b.grabs % 2 && 0 <= b.grabs
  {
  }

  /** A grab of the running stream gives the window's samples, and a corrupted one never does. */
  lemma GrabReturnsWindow(b: Board, v: seq<sample>, signal: Header)
    requires b.chainOn && v != [] && Unambiguous(signal)
    ensures ParseGrabFrame(HeaderText(WindowHeader(b, |v|, signal)) + "\r\n", Payload(v), Tail(CrcOf(Payload(v)), ACK))
            == Success(Frame(true, Masked(v), MetaOf(WindowHeader(b, |v|, signal)), None))
    ensures var r := ParseGrabFrame(HeaderText(WindowHeader(b, |v|, signal)) + "\r\n", BadFirstByte(Payload(v)),
                                    Tail(CrcOf(Payload(v)), ACK));
            r.Success? && !r.value.ok && r.value.error.Some? && r.value.error.value.CrcMismatch?
  {
    var h := WindowHeader(b, |v|, signal);
    hide ParseGrabFrame, Tail, CrcOf, HeaderText;
    FrameComesBack(h, v, ACK);
    SamplesRoundTrip(v);
    FirstByteBurst(Payload(v));
    BurstRejected(HeaderText(h) + "\r\n", Payload(v), BadFirstByte(Payload(v)), Tail(CrcOf(Payload(v)), ACK), 0, 8);
  }

  lemma FlippedDiffers(b: byte)
    ensures b ^ 0xFF != b
  {
  }

  lemma {:induction false} LaterBits(p: seq<byte>, q: seq<byte>)
    requires |p| == |q| > 0 && p[1..] == q[1..]
    ensures forall i :: 8 <= i < 8 * |p| ==> BitsOf(p)[i] == BitsOf(q)[i]
  {
    hide BitsOfByte;
    var n := |p| - 1;
    if n > 0 {
      assert p[..n][1..] == p[1..][..n - 1] && q[..n][1..] == q[1..][..n - 1];
      LaterBits(p[..n], q[..n]);
      assert p[n] == p[1..][n - 1] == q[1..][n - 1] == q[n];
    }
  }

  lemma FirstByteBurst(p: seq<byte>)
    requires p != []
    ensures DifferInBurst(p, BadFirstByte(p), 0, 8)
  {
    var q := BadFirstByte(p);
    FlippedDiffers(p[0]);
    assert p[0] != q[0] && p[1..] == q[1..];
    LaterBits(p, q);
  }
}
