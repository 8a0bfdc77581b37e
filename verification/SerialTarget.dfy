/** The console over a serial port (tools/protocol.py, class Target): the bytes
    arrive in whatever chunks the port delivers, and every read loop has its
    own deadline. `Grab` reads one "stream grab" frame. */
module SerialTarget {
  import opened Common
  import opened Text
  import opened Crc
  import opened GrabFrame
  import opened FrameRoundTrip

  const LF: byte := 0x0A

  /** One pass of a read loop: the deadline has passed, or the port has up to
      `arrived` bytes for the next read (0: the read's own timeout). */
  datatype Poll = Ready(arrived: nat) | Expired

  /** The polls before the deadline at which something has arrived. */
  function Productive(polls: seq<Poll>): nat {
    if polls == [] || polls[0].Expired? then 0
    else (if polls[0].arrived > 0 then 1 else 0) + Productive(polls[1..])
  }

  /** What was read from a stream of which `left` is left. */
  function Used(stream: seq<byte>, left: seq<byte>): seq<byte>
    requires |left| <= |stream|
  {
    stream[..|stream| - |left|]
  }

  predicate LeftOf(left: seq<byte>, stream: seq<byte>) {
    |left| <= |stream| && left == stream[|stream| - |left|..]
  }

  predicate NoLineEnd(b: seq<byte>) { forall i :: 0 <= i < |b| ==> b[i] != LF }

  predicate IsLine(b: seq<byte>) { b != [] && b[|b| - 1] == LF && NoLineEnd(b[..|b| - 1]) }

  /** A reply is over when it ends with ACK or NAK. */
  predicate EndsReply(b: seq<byte>) { EndsWith(b, ACK) || EndsWith(b, NAK) }

  datatype Outcome = TimedOut | Raised(exception: FrameException) | Received(frame: Frame)

  function OutcomeOf(r: Result<Frame, FrameException>): Outcome {
    match r
    case Success(f) => Received(f)
    case Failure(e) => Raised(e)
  }

  /** The pieces a reply is cut into. */
  datatype Pieces = Pieces(echo: seq<byte>, line: seq<byte>, payload: seq<byte>, tail: seq<byte>)

  function HeaderOf(line: seq<byte>): Option<Header> { ParseHeader(Strip(Decoded(line))) }

  /** The bytes announced by the header line. */
  function Announced(line: seq<byte>): nat { if HeaderOf(line).Some? then 2 * HeaderOf(line).value.n else 0 }

  /** A reply cut at the lines' ends, after the announced bytes and at an ACK or NAK. */
  predicate CutsReply(p: Pieces) {
    IsLine(p.echo) && IsLine(p.line) && |p.payload| == Announced(p.line) && EndsReply(p.tail)
  }

  /** The reply ends where its tail does: no ACK or NAK byte inside the tail. */
  predicate OneEnd(tail: seq<byte>) {
    EndsReply(tail) && forall i :: 0 <= i < |tail| - 1 ==> tail[i] != ACK && tail[i] != NAK
  }

  /** An answer that is one complete reply and nothing after it. */
  ghost predicate WholeReply(answer: seq<byte>) {
    exists p: Pieces :: CutsReply(p) && answer == Joined(p)
  }

  function PayloadOn(p: Pieces): seq<byte> { p.payload + p.tail }

  function LineOn(p: Pieces): seq<byte> { p.line + PayloadOn(p) }

  function Joined(p: Pieces): seq<byte> { p.echo + LineOn(p) }

  /** What a grab that did not run out of time has read, and what it makes of it:
      two lines; if the second is a GRAB header, also the payload it announces
      and the rest up to an ACK or NAK. */
  predicate Explained(answer: seq<byte>, left: seq<byte>, outcome: Outcome, p: Pieces) {
    if HeaderOf(p.line).Some? then
      && CutsReply(p) && answer == Joined(p) + left
      && outcome == OutcomeOf(ParseGrabFrame(Decoded(p.line), p.payload, p.tail))
    else
      IsLine(p.echo) && IsLine(p.line) && answer == p.echo + (p.line + left) && outcome == Raised(NoHeader)
  }

  /** There is only one first line. */
  lemma OneFirstLine(a: seq<byte>, restA: seq<byte>, b: seq<byte>, restB: seq<byte>)
    requires IsLine(a) && IsLine(b) && a + restA == b + restB
    ensures a == b && restA == restB
  {
    var s := a + restA;
    assert s[|a| - 1] == LF && s[|b| - 1] == LF;
    assert a == s[..|a|] && b == s[..|b|] && restA == s[|a|..] && restB == s[|b|..];
  }

  lemma NothingRead(input: seq<byte>)
    ensures NoLineEnd([])
  {
  }

  lemma NotAllRead(buf: seq<byte>, input: seq<byte>)
    requires NoLineEnd(buf)
    ensures input == [] ==> NoLineEnd(buf + input)
  {
  }

  lemma OneByteMore(buf: seq<byte>, b: seq<byte>)
    requires NoLineEnd(buf) && |b| == 1
    ensures EndsWith(buf + b, LF) ==> IsLine(buf + b)
    ensures !EndsWith(buf + b, LF) ==> NoLineEnd(buf + b)
  {
    assert (buf + b)[..|buf + b| - 1] == buf;
  }

  lemma LineHasEnd(line: seq<byte>, rest: seq<byte>)
    requires IsLine(line)
    ensures !NoLineEnd(line + rest)
  {
    assert (line + rest)[|line| - 1] == LF;
  }

  lemma UsedAndLeft(stream: seq<byte>, left: seq<byte>)
    requires LeftOf(left, stream)
    ensures stream == Used(stream, left) + left && |Used(stream, left)| == |stream| - |left|
  {
  }

  lemma ReadSoFar(stream: seq<byte>, buf: seq<byte>, left: seq<byte>)
    requires stream == buf + left
    ensures LeftOf(left, stream) && Used(stream, left) == buf && (left == [] ==> buf == stream)
  {
  }

  /** What a complete reply leaves at each cut. */
  lemma AfterEcho(p: Pieces, echo: seq<byte>, left: seq<byte>)
    requires CutsReply(p) && IsLine(echo) && Joined(p) == echo + left
    ensures left == LineOn(p) && !NoLineEnd(left)
  {
    OneFirstLine(echo, left, p.echo, LineOn(p));
    LineHasEnd(p.line, PayloadOn(p));
  }

  lemma WholeHasEnd(p: Pieces)
    requires CutsReply(p)
    ensures !NoLineEnd(Joined(p))
  {
    LineHasEnd(p.echo, LineOn(p));
  }

  lemma AfterLine(p: Pieces, line: seq<byte>, left: seq<byte>)
    requires CutsReply(p) && IsLine(line) && LineOn(p) == line + left
    ensures line == p.line && left == PayloadOn(p) && |left| >= Announced(line) == |p.payload|
  {
    OneFirstLine(line, left, p.line, PayloadOn(p));
  }

  lemma AfterPayload(p: Pieces, payload: seq<byte>, left: seq<byte>)
    requires CutsReply(p) && PayloadOn(p) == payload + left && |payload| == |p.payload|
    ensures left == p.tail && EndsReply(left)
  {
    assert payload == (payload + left)[..|payload|] && left == (payload + left)[|payload|..];
  }

  lemma NoHeaderRead(answer: seq<byte>, p: Pieces, s1: seq<byte>, left: seq<byte>)
    requires HeaderOf(p.line).None? && IsLine(p.echo) && IsLine(p.line)
    requires answer == p.echo + s1 && s1 == p.line + left
    ensures Explained(answer, left, Raised(NoHeader), p)
  {
  }

  lemma FrameRead(answer: seq<byte>, p: Pieces, s1: seq<byte>, s2: seq<byte>, s3: seq<byte>, left: seq<byte>)
    requires HeaderOf(p.line).Some? && IsLine(p.echo) && IsLine(p.line) && EndsReply(p.tail)
    requires |p.payload| == Announced(p.line)
    requires answer == p.echo + s1 && s1 == p.line + s2 && s2 == p.payload + s3 && s3 == p.tail + left
    ensures Explained(answer, left, OutcomeOf(ParseGrabFrame(Decoded(p.line), p.payload, p.tail)), p)
  {
    hide ParseGrabFrame, Decoded, HeaderOf, Announced, IsLine, EndsReply, OutcomeOf;
  }

  ghost function Cut(answer: seq<byte>): (p: Pieces)
    requires WholeReply(answer)
    ensures CutsReply(p) && answer == Joined(p)
  {
    var p: Pieces :| CutsReply(p) && answer == Joined(p);
    p
  }

  lemma NotEmpty(b: seq<byte>)
    ensures EndsReply(b) ==> b != []
  {
  }

  lemma StillWaiting(polls: seq<Poll>)
    ensures !(polls != [] && polls[0].Ready?) ==> Productive(polls) == 0
  {
  }

  class Port {
    /** What the port delivers from now on, and the board's answer to the next line. */
    var input: seq<byte>
    var answer: seq<byte>
    var polls: seq<Poll>

    constructor (buffered: seq<byte>, reply: seq<byte>, schedule: seq<Poll>)
      ensures input == buffered && answer == reply && polls == schedule
    {
      input, answer, polls := buffered, reply, schedule;
    }

    predicate InTime()
      reads this
    {
      polls != [] && polls[0].Ready?
    }

    method Read(size: nat) returns (chunk: seq<byte>)
      requires InTime()
      modifies this`input, this`polls
      ensures chunk + input == old(input) && |chunk| <= size
      ensures polls == old(polls)[1..]
      ensures chunk != [] ==> Productive(old(polls)) == Productive(polls) + 1
      ensures chunk == [] && input != [] && size > 0 ==> Productive(old(polls)) == Productive(polls)
    {
      var most := if polls[0].arrived < size then polls[0].arrived else size;
      var k := if most < |input| then most else |input|;
      chunk := input[..k];
      input := input[k..];
      polls := polls[1..];
    }

    method ResetInputBuffer()
      modifies this`input
      ensures input == []
    {
      input := [];
    }

    method Write(line: seq<byte>)
      modifies this`input
      ensures input == old(input) + answer
    {
      input := input + answer;
    }

    /** One byte at a time, up to the line feed. */
    method ReadLine() returns (line: Option<string>)
      modifies this`input, this`polls
      ensures LeftOf(input, old(input))
      ensures line.Some? ==> IsLine(Used(old(input), input)) && line.value == Decoded(Used(old(input), input))
      ensures line.None? ==> Productive(polls) == 0 && (!NoLineEnd(old(input)) ==> input != [])
      ensures !NoLineEnd(old(input)) ==> Productive(old(polls)) <= Productive(polls) + |Used(old(input), input)|
    {
      hide IsLine, NoLineEnd, Productive, Used, LeftOf, Decoded, EndsWith;
      var buf := [];
      NothingRead(input);
      while InTime()
        invariant buf + input == old(input) && NoLineEnd(buf)
        invariant !NoLineEnd(old(input)) ==> Productive(old(polls)) <= Productive(polls) + |buf|
        decreases |polls|
      {
        NotAllRead(buf, input);
        var b := Read(1);
        ghost var was := buf;
        buf := buf + b;
        assert buf + input == old(input);
        assert b == [] ==> buf == was;
        if b != [] {
          OneByteMore(was, b);
          if EndsWith(buf, LF) {
            ReadSoFar(old(input), buf, input);
            return Some(Decoded(buf));
          }
        }
      }
      ReadSoFar(old(input), buf, input);
      line := None;
      StillWaiting(polls);
    }

    /** Exactly `n` bytes, in as many chunks as it takes. */
    method ReadExact(n: nat) returns (payload: Option<seq<byte>>)
      modifies this`input, this`polls
      ensures LeftOf(input, old(input))
      ensures payload.Some? ==> payload.value == Used(old(input), input) && |payload.value| == n
      ensures payload.None? ==> |Used(old(input), input)| < n && Productive(polls) == 0
      ensures n <= |old(input)| ==> Productive(old(polls)) <= Productive(polls) + |Used(old(input), input)|
    {
      hide Productive, Used, LeftOf;
      var buf := [];
      while |buf| < n && InTime()
        invariant buf + input == old(input) && |buf| <= n
        invariant n <= |old(input)| ==> Productive(old(polls)) <= Productive(polls) + |buf|
        decreases |polls|
      {
        var chunk := Read(n - |buf|);
        assert n <= |old(input)| && chunk == [] ==> input != [];
        buf := buf + chunk;
      }
      ReadSoFar(old(input), buf, input);
      StillWaiting(polls);
      payload := if |buf| < n then None else Some(buf);
    }

    /** Everything that comes until the bytes read so far end in ACK or NAK. */
    method ReadUntilReady() returns (reply: Option<seq<byte>>)
      modifies this`input, this`polls
      ensures LeftOf(input, old(input))
      ensures reply.Some? ==> reply.value == Used(old(input), input) && EndsReply(reply.value)
      ensures reply.None? ==> Productive(polls) == 0 && (EndsReply(old(input)) ==> input != [])
      ensures EndsReply(old(input)) ==> Productive(old(polls)) <= Productive(polls) + |Used(old(input), input)|
    {
      hide Productive, Used, LeftOf, EndsReply;
      var buf := [];
      NotEmpty(input);
      while InTime()
        invariant buf + input == old(input)
        invariant EndsReply(old(input)) ==> input != []
        invariant EndsReply(old(input)) ==> Productive(old(polls)) <= Productive(polls) + |buf|
        decreases |polls|
      {
        var chunk := Read(4096);
        buf := buf + chunk;
        ReadSoFar(old(input), buf, input);
        if chunk != [] {
          if EndsReply(buf) { return Some(buf); }
        }
      }
      ReadSoFar(old(input), buf, input);
      StillWaiting(polls);
      reply := None;
    }

    /** One "stream grab". Whatever was still in the input buffer is dropped;
        the answer is cut into its pieces and parsed. */
    method Grab() returns (outcome: Outcome, ghost p: Pieces)
      modifies this`input, this`polls
      ensures outcome.TimedOut? ==> Productive(polls) == 0
      ensures !outcome.TimedOut? ==> Explained(answer, input, outcome, p)
      ensures outcome.TimedOut? && WholeReply(answer) ==> Productive(old(polls)) < |answer|
    {
      hide IsLine, NoLineEnd, Productive, WholeReply, ParseHeader, ParseGrabFrame, Decoded, Strip, EndsReply, LeftOf;
      hide Used, Joined, LineOn, PayloadOn, CutsReply, Explained, Bytes;
      ghost var whole := WholeReply(answer);
      ghost var q := if whole then Cut(answer) else Pieces([], [], [], []);
      p := Pieces([], [], [], []);
      outcome := TimedOut;

      ResetInputBuffer();
      Write(Bytes("stream grab\r"));
      ghost var s0 := input;
      assert s0 == [] + answer == answer;
      if whole { WholeHasEnd(q); }
      var echo := ReadLine();
      ghost var s1 := input;
      UsedAndLeft(s0, s1);
      p := p.(echo := Used(s0, s1));
      if echo.None? { return; }
      if whole { AfterEcho(q, p.echo, s1); }

      var headerLine := ReadLine();
      ghost var s2 := input;
      UsedAndLeft(s1, s2);
      p := p.(line := Used(s1, s2));
      if headerLine.None? { return; }
      if whole { AfterLine(q, p.line, s2); }

      var h := ParseHeader(Strip(headerLine.value));
      if h.None? {
        NoHeaderRead(answer, p, s1, s2);
        outcome := Raised(NoHeader);
        return;
      }
      var payload := ReadExact(2 * h.value.n);
      ghost var s3 := input;
      UsedAndLeft(s2, s3);
      p := p.(payload := Used(s2, s3));
      if payload.None? { return; }
      if whole { AfterPayload(q, p.payload, s3); }

      var tail := ReadUntilReady();
      UsedAndLeft(s3, input);
      p := p.(tail := Used(s3, input));
      if tail.None? { return; }
      FrameRead(answer, p, s1, s2, s3, input);
      outcome := OutcomeOf(ParseGrabFrame(headerLine.value, payload.value, tail.value));
    }
  }

  // ------------------------------------------------------------------------
  // A frame sent by the board
  // ------------------------------------------------------------------------

  function HeaderLine(h: Header): string { HeaderText(h) + "\r\n" }

  /** The bytes of a frame, in the order they are sent. */
  function FramePieces(echo: seq<byte>, h: Header, v: seq<sample>, last: byte): Pieces {
    Pieces(echo, Bytes(HeaderLine(h)), Payload(v), Tail(CrcOf(Payload(v)), last))
  }

  predicate Plain(c: char) { ' ' <= c <= 'z' }

  predicate AllPlain(s: string) { forall i :: 0 <= i < |s| ==> Plain(s[i]) }

  lemma FieldPlain(name: string, value: nat)
    requires IsName(name)
    ensures AllPlain(Field(name, value))
  {
    DecimalValue(value);
    var d := Decimal(value);
    assert AllPlain(name);
    assert forall i :: 0 <= i < |d| ==> IsDigit(d[i]) && Plain(d[i]);
  }

  lemma {:induction false} FieldsPlain(fields: seq<(string, nat)>)
    requires Named(fields)
    ensures AllPlain(ExtFields(fields))
  {
    hide Field, IsName, Plain;
    if fields != [] {
      FieldPlain(fields[0].0, fields[0].1);
      FieldsPlain(fields[1..]);
    }
  }

  lemma HeaderPlain(h: Header)
    requires Unambiguous(h)
    ensures AllPlain(HeaderText(h))
  {
    hide ExtFields, Fields, OptionalFields, IsName;
    FixedNames();
    FixedKeyNames();
    var fixed := Zip(FixedKeys(), FixedValues(h));
    FieldsAreList(FixedKeys(), FixedValues(h));
    OptionalFieldsAreList(h);
    FieldsPlain(fixed);
    FieldsPlain(AllFields(h));
    assert AllPlain("GRAB");
  }

  lemma FixedKeyNames()
    ensures forall i :: 0 <= i < |FixedKeys()| ==> IsName(FixedKeys()[i])
  {
  }

  lemma HeaderLineBytes(h: Header)
    requires Unambiguous(h)
    ensures IsLine(Bytes(HeaderLine(h))) && Decoded(Bytes(HeaderLine(h))) == HeaderLine(h)
    ensures HeaderOf(Bytes(HeaderLine(h))) == Some(h)
  {
    hide HeaderText, ParseHeader, Unambiguous, Strip;
    HeaderPlain(h);
    assert IsAscii(HeaderLine(h));
    BytesRoundTrip(HeaderLine(h));
    StrippedLine(h);
    HeaderRoundTrip(h);
  }

  lemma HexIsNoEnd(n: bv16)
    requires n < 16
    ensures HexDigit(n) != ACK && HexDigit(n) != NAK
  {
  }

  lemma TailHasOneEnd(crc: bv16, last: byte)
    requires last == ACK || last == NAK
    ensures OneEnd(Tail(crc, last))
  {
    hide HexDigit;
    NibblesMakeWord(crc);
    HexIsNoEnd(crc >> 12);
    HexIsNoEnd((crc >> 8) & 0xF);
    HexIsNoEnd((crc >> 4) & 0xF);
    HexIsNoEnd(crc & 0xF);
  }

  lemma FrameIsWhole(echo: seq<byte>, h: Header, v: seq<sample>, last: byte)
    requires IsLine(echo) && Unambiguous(h) && h.n == |v| && (last == ACK || last == NAK)
    ensures CutsReply(FramePieces(echo, h, v, last)) && WholeReply(Joined(FramePieces(echo, h, v, last)))
  {
    hide IsLine, Payload, HeaderOf, HeaderLine, Tail, Joined;
    HeaderLineBytes(h);
    TailHasOneEnd(CrcOf(Payload(v)), last);
    SamplesRoundTrip(v);
  }

  lemma TailToItsEnd(tail: seq<byte>, left: seq<byte>, whole: seq<byte>)
    requires OneEnd(whole) && whole == tail + left && EndsReply(tail)
    ensures left == []
  {
    assert whole[|tail| - 1] == tail[|tail| - 1];
  }

  /** However the port chunks the bytes, a grab that does not run out of time
      reads exactly the frame and returns what was sent, even if the payload is
      full of ACK and NAK bytes. */
  lemma GrabReadsFrame(echo: seq<byte>, h: Header, v: seq<sample>, last: byte, left: seq<byte>, outcome: Outcome,
      p: Pieces)
    requires IsLine(echo) && Unambiguous(h) && h.n == |v| && (last == ACK || last == NAK)
    requires Explained(Joined(FramePieces(echo, h, v, last)), left, outcome, p)
    ensures left == [] && p == FramePieces(echo, h, v, last)
    ensures outcome == Received(Frame(v != [] && last == ACK, Masked(v), MetaOf(h),
                                      if v == [] then Some(NakNoStream)
                                      else if last != ACK then Some(NakAfterBlock) else None))
  {
    hide IsLine, Payload, HeaderOf, HeaderLine, Tail, ParseGrabFrame, EndsReply, Unambiguous, Decoded, MetaOf;
    var f := FramePieces(echo, h, v, last);
    FrameIsWhole(echo, h, v, last);
    HeaderLineBytes(h);
    var rest := if HeaderOf(p.line).Some? then p.line + (p.payload + p.tail) + left else p.line + left;
    assert Joined(f) == p.echo + rest;
    OneFirstLine(p.echo, rest, f.echo, f.line + (f.payload + f.tail));
    var rest2 := if HeaderOf(p.line).Some? then (p.payload + p.tail) + left else left;
    assert rest == p.line + rest2;
    OneFirstLine(p.line, rest2, f.line, f.payload + f.tail);
    assert rest2 == p.payload + (p.tail + left);
    assert p.payload == rest2[..|f.payload|] == f.payload && p.tail + left == rest2[|f.payload|..] == f.tail;
    TailHasOneEnd(CrcOf(Payload(v)), last);
    TailToItsEnd(p.tail, left, f.tail);
    FrameIsReceived(h, v, last);
  }

  lemma FrameIsReceived(h: Header, v: seq<sample>, last: byte)
    requires Unambiguous(h) && h.n == |v|
    ensures ParseGrabFrame(HeaderLine(h), Payload(v), Tail(CrcOf(Payload(v)), last))
            == Success(Frame(v != [] && last == ACK, Masked(v), MetaOf(h),
                             if v == [] then Some(NakNoStream) else if last != ACK then Some(NakAfterBlock) else None))
  {
    hide ParseGrabFrame;
    FrameComesBack(h, v, last);
  }
}
