/** Newline-delimited frames on a byte stream that arrives in chunks (memory/local_mcp/framing.py). */
module Framing {
  import opened Wrappers
  import opened LineSplit
  import opened Sequences

  const RETURN: bv8 := 13

  // ---------------------------------------------------------------------------------------------
  // Lines
  // ---------------------------------------------------------------------------------------------

  /** The first line with its newline, or all there is. */
  function FirstLine(b: Bytes): (line: Bytes)
    ensures line <= b && (b != [] ==> line != [])
  {
    if Newline(b) < |b| then b[..Newline(b) + 1] else b
  }

  function RawLines(b: Bytes): seq<Bytes>
    decreases |b|
  {
    if b == [] then [] else [FirstLine(b)] + RawLines(b[|FirstLine(b)|..])
  }

  lemma {:induction false} LinesAreTheStream(b: Bytes)
    ensures Join(RawLines(b)) == b
    decreases |b|
  {
    if b != [] {
      RawLinesStep(b);
      JoinStep(FirstLine(b), RawLines(b[|FirstLine(b)|..]));
      LinesAreTheStream(b[|FirstLine(b)|..]);
      hide *;
      assert b == FirstLine(b) + b[|FirstLine(b)|..];
    }
  }

  lemma JoinStep(line: Bytes, lines: seq<Bytes>)
    ensures Join([line] + lines) == line + Join(lines)
  {
    assert ([line] + lines)[1..] == lines;
  }

  /** What one pull delivers; the end of the stream comes after the last of them. */
  datatype Pull = Chunk(data: Bytes) | Wake

  datatype Taken = Line(bytes: Bytes) | Ended | Woken

  function Delivered(source: seq<Pull>): Bytes {
    if source == [] then []
    else (if source[0].Chunk? then source[0].data else []) + Delivered(source[1..])
  }

  function Wakes(source: seq<Pull>): nat {
    if source == [] then 0 else (if source[0].Wake? then 1 else 0) + Wakes(source[1..])
  }

  class LineBuffer {
    var pending: Bytes
    var source: seq<Pull>

    /** Only the end of the stream is an empty read. */
    ghost predicate Valid()
      reads this
    {
      forall i :: 0 <= i < |source| && source[i].Chunk? ==> source[i].data != []
    }

    /** All bytes still to come. */
    ghost function Rest(): Bytes
      reads this
    {
      pending + Delivered(source)
    }

    constructor (source: seq<Pull>)
      requires forall i :: 0 <= i < |source| && source[i].Chunk? ==> source[i].data != []
      ensures Valid() && Rest() == Delivered(source) && this.source == source
    {
      this.source, pending := source, [];
    }

    /** The next line of the stream, however it was cut; a wake takes nothing from it. */
    method TakeLine() returns (r: Taken)
      requires Valid()
      modifies this
      ensures Valid()
      ensures r.Line? ==> old(Rest()) != [] && r.bytes == FirstLine(old(Rest())) && Rest() == old(Rest())[|r.bytes|..]
      ensures r.Ended? ==> old(Rest()) == [] && Rest() == [] && Wakes(source) == 0
      ensures r.Woken? ==> Rest() == old(Rest())
      ensures Wakes(old(source)) == Wakes(source) + if r.Woken? then 1 else 0
      ensures |source| <= |old(source)| && (!r.Ended? ==> |source| + |Rest()| < |old(source)| + |old(Rest())|)
    {
      hide Newline, FirstLine, Delivered, Wakes;
      NothingLeft();
      while true
        invariant Valid() && Rest() == old(Rest()) && Wakes(source) == Wakes(old(source))
        invariant |source| <= |old(source)|
        decreases |source|
      {
        var nl := Newline(pending);
        if nl < |pending| {
          NewlineStays(pending, Delivered(source));
          DropPlus(pending, nl + 1, Delivered(source));
          r := Line(pending[..nl + 1]);
          pending := pending[nl + 1..];
          return;
        }
        if source == [] {
          if pending == [] {
            return Ended;
          }
          LastLineIsAll(pending);
          r := Line(pending);
          pending := [];
          return;
        }
        var pull := source[0];
        PullDelivers(pending, source);
        source := source[1..];
        match pull {
          case Wake => return Woken;
          case Chunk(data) => pending := pending + data;
        }
      }
    }

    /** The lines up to the end of the stream, taken up again after every wake. */
    method Drain() returns (lines: seq<Bytes>)
      requires Valid()
      modifies this
      ensures lines == RawLines(old(Rest()))
    {
      RawLinesStep([]);
      hide FirstLine, RawLines, Delivered, Wakes;
      lines := [];
      var more := true;
      while more
        invariant Valid() && lines + RawLines(Rest()) == RawLines(old(Rest()))
        invariant !more ==> Rest() == []
        decreases more, |source| + |Rest()|
      {
        ghost var rest := Rest();
        var r := TakeLine();
        match r {
          case Line(line) =>
            RawLinesStep(rest);
            assert lines + ([line] + RawLines(Rest())) == lines + [line] + RawLines(Rest());
            lines := lines + [line];
          case Ended => more := false;
          case Woken =>
        }
      }
      assert lines + [] == lines;
    }

    /** The next frame; `None` at the end of the stream and after a wake. */
    method ReadMessage() returns (frame: Option<Bytes>)
      requires Valid()
      modifies this
      ensures Valid()
      ensures frame.Some? ==> Frames(old(Rest())) == [frame.value] + Frames(Rest())
      ensures frame.None? ==> Frames(Rest()) == Frames(old(Rest()))
      ensures frame.None? && Wakes(source) == Wakes(old(source)) ==> Frames(old(Rest())) == []
      ensures |source| + |Rest()| <= |old(source)| + |old(Rest())|
    {
      hide FirstLine, Strip, Frames, Delivered, Wakes;
      while true
        invariant Valid() && Frames(Rest()) == Frames(old(Rest())) && Wakes(source) == Wakes(old(source))
        invariant |source| + |Rest()| <= |old(source)| + |old(Rest())|
        decreases |source| + |Rest()|
      {
        ghost var rest := Rest();
        var r := TakeLine();
        FramesStep(rest);
        if !r.Line? {
          return None;
        }
        if Strip(r.bytes) != [] {
          return Some(Strip(r.bytes));
        }
      }
    }
  }

  lemma RawLinesStep(b: Bytes)
    ensures RawLines(b) == if b == [] then [] else [FirstLine(b)] + RawLines(b[|FirstLine(b)|..])
  {
  }

  lemma FramesStep(b: Bytes)
    ensures b == [] ==> Frames(b) == []
    ensures b != [] ==> Frames(b) == (if Strip(FirstLine(b)) == [] then [] else [Strip(FirstLine(b))]) +
                                     Frames(b[|FirstLine(b)|..])
  {
  }

  lemma NothingLeft()
    ensures Delivered([]) == [] && Wakes([]) == 0
  {
  }

  lemma PullDelivers(b: Bytes, source: seq<Pull>)
    requires source != []
    ensures b + Delivered(source) == (if source[0].Chunk? then b + source[0].data else b) + Delivered(source[1..])
    ensures Wakes(source) == (if source[0].Wake? then 1 else 0) + Wakes(source[1..])
  {
    var first, rest := if source[0].Chunk? then source[0].data else [], Delivered(source[1..]);
    assert Delivered(source) == first + rest;
    hide Delivered;
    PlusPlus(b, first, rest);
    assert source[0].Wake? ==> b + first == b;
  }

  lemma LastLineIsAll(b: Bytes)
    requires Newline(b) == |b|
    ensures FirstLine(b) == b && b + [] == b
  {
  }

  lemma NewlineStays(b: Bytes, more: Bytes)
    requires Newline(b) < |b|
    ensures Newline(b + more) == Newline(b) && FirstLine(b + more) == b[..Newline(b) + 1]
  {
    var n := Newline(b);
    assert (b + more)[n] == NEWLINE && forall j :: 0 <= j < n ==> (b + more)[j] == b[j];
    assert (b + more)[..n + 1] == b[..n + 1];
  }

  // ---------------------------------------------------------------------------------------------
  // Frames
  // ---------------------------------------------------------------------------------------------

  function WithoutLast(b: Bytes, x: bv8): Bytes {
    if b != [] && b[|b| - 1] == x then b[..|b| - 1] else b
  }

  /** A line without its newline and without a carriage return before it. */
  function Strip(line: Bytes): Bytes {
    WithoutLast(WithoutLast(line, NEWLINE), RETURN)
  }

  /** The frames of a stream: its lines, stripped, but for the blank ones. */
  function Frames(b: Bytes): seq<Bytes>
    decreases |b|
  {
    if b == [] then []
    else
      var frame := Strip(FirstLine(b));
      (if frame == [] then [] else [frame]) + Frames(b[|FirstLine(b)|..])
  }

  datatype FramingError = EmbeddedNewline

  /** `write_frame`: the bytes put on the stream for one payload. */
  function WriteFrame(payload: Bytes): (r: Result<Bytes, FramingError>)
    ensures r.Fail? <==> exists i :: 0 <= i < |payload| && (payload[i] == 10 || payload[i] == 13)
  {
    if NEWLINE in payload || RETURN in payload then Fail(EmbeddedNewline) else Ok(payload + [NEWLINE])
  }

  predicate Writable(payloads: seq<Bytes>) {
    forall i :: 0 <= i < |payloads| ==> payloads[i] != [] && WriteFrame(payloads[i]).Ok?
  }

  function Written(payloads: seq<Bytes>): Bytes
    requires Writable(payloads)
  {
    if payloads == [] then [] else WriteFrame(payloads[0]).value + Written(payloads[1..])
  }

  lemma FirstFrame(payload: Bytes, more: Bytes)
    requires payload != [] && WriteFrame(payload).Ok?
    ensures var b := payload + [NEWLINE] + more;
            FirstLine(b) == payload + [NEWLINE] && Strip(FirstLine(b)) == payload && b[|payload| + 1..] == more
  {
    var line := payload + [NEWLINE];
    assert line[|payload|] == NEWLINE && forall j :: 0 <= j < |payload| ==> line[j] == payload[j];
    assert Newline(line) == |payload|;
    NewlineStays(line, more);
    assert line[..|payload|] == payload;
    assert payload[|payload| - 1] in payload;
  }

  /** What is written is what is read: no payload is split, joined, changed or lost. */
  lemma {:induction false} FramesRoundTrip(payloads: seq<Bytes>)
    requires Writable(payloads)
    ensures Frames(Written(payloads)) == payloads
  {
    if payloads != [] {
      FirstFrame(payloads[0], Written(payloads[1..]));
      FramesRoundTrip(payloads[1..]);
      hide FirstLine, Strip;
      assert [payloads[0]] + payloads[1..] == payloads;
    }
  }

  // ---- streams of other writers ----

  /** A line as some other program writes it: its payload, and whether a carriage return ends it. */
  datatype Sent = Sent(payload: Bytes, crlf: bool)

  /** A payload without a newline, and without a carriage return at its end unless one follows it. */
  predicate Plain(line: Sent) {
    NEWLINE !in line.payload
    && (!line.crlf && line.payload != [] ==> line.payload[|line.payload| - 1] != RETURN)
  }

  function OnStream(line: Sent): Bytes {
    line.payload + (if line.crlf then [RETURN, NEWLINE] else [NEWLINE])
  }

  function StreamOf(lines: seq<Sent>): Bytes {
    if lines == [] then [] else OnStream(lines[0]) + StreamOf(lines[1..])
  }

  function Payloads(lines: seq<Sent>): seq<Bytes> {
    if lines == [] then []
    else (if lines[0].payload == [] then [] else [lines[0].payload]) + Payloads(lines[1..])
  }

  lemma SentLine(line: Sent, more: Bytes)
    requires Plain(line)
    ensures var b := OnStream(line) + more;
            b != [] && FirstLine(b) == OnStream(line) && Strip(OnStream(line)) == line.payload
            && b[|OnStream(line)|..] == more
  {
    var whole, n := OnStream(line), |OnStream(line)| - 1;
    assert whole[n] == NEWLINE && forall j :: 0 <= j < n ==> whole[j] != NEWLINE;
    assert Newline(whole) == n;
    NewlineStays(whole, more);
    assert whole[..n + 1] == whole;
    var bare := whole[..n];
    assert bare == line.payload + if line.crlf then [RETURN] else [];
    assert line.crlf ==> bare[..|bare| - 1] == line.payload;
  }

  /**
   * Lines ended by a newline, with or without a carriage return, come out as frames without either; blank
   * lines are passed over; a last line without a newline is a frame too.
   */
  lemma {:induction false} FramesOfLines(lines: seq<Sent>, last: Bytes)
    requires (forall i :: 0 <= i < |lines| ==> Plain(lines[i])) && Plain(Sent(last, false))
    ensures Frames(StreamOf(lines) + last) == Payloads(lines) + if last == [] then [] else [last]
  {
    hide OnStream, Strip, FirstLine;
    if lines == [] {
      assert StreamOf(lines) + last == last;
      LastFrame(last);
    } else {
      var line, rest := lines[0], StreamOf(lines[1..]) + last;
      SentLine(line, rest);
      PlusPlus(OnStream(line), StreamOf(lines[1..]), last);
      FramesStep(OnStream(line) + rest);
      FramesOfLines(lines[1..], last);
      PlusPlus(if line.payload == [] then [] else [line.payload], Payloads(lines[1..]),
               if last == [] then [] else [last]);
    }
  }

  lemma LastFrame(last: Bytes)
    requires Plain(Sent(last, false))
    ensures Frames(last) == if last == [] then [] else [last]
  {
    if last != [] {
      LastLineIsAll(last);
      assert Strip(last) == last;
      assert last[|last|..] == [] && Frames([]) == [];
      FramesStep(last);
    }
  }
}
