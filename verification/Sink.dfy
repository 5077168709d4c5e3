/** Where the lines of a child process go: log file, tail, notifications (memory/local_mcp/stream.py). */
module Sink {
  import opened Sequences
  import opened Wrappers

  const TAIL_LIMIT := 8192
  const LOG_CAP := 20 * 1024 * 1024
  const NOTIFY_PER_S := 20

  // ---------------------------------------------------------------------------------------------
  // The tail window
  // ---------------------------------------------------------------------------------------------

  /** The index of the first newline, the length when there is none. */
  function FirstNewline(text: string): (r: nat)
    ensures r <= |text| && (r < |text| ==> text[r] == '\n')
    ensures forall j :: 0 <= j < r ==> text[j] != '\n'
  {
    FirstIndex(text, '\n')
  }

  /** The last `TAIL_LIMIT` characters, from the start of a line when one starts in there. */
  function BoundedTail(text: string): string {
    if |text| <= TAIL_LIMIT then text
    else
      var window := text[|text| - TAIL_LIMIT..];
      var newline := FirstNewline(window);
      if newline + 1 >= |window| then window else window[newline + 1..]
  }

  /** Old parts go while more than two windows are kept, but the newest part stays. */
  function Shed(parts: seq<string>): seq<string> {
    if |Join(parts)| > 2 * TAIL_LIMIT && |parts| > 1 then Shed(parts[1..]) else parts
  }

  /** What is kept of all the texts added so far. */
  function Retained(texts: seq<string>): seq<string> {
    if texts == [] then [] else Shed(Retained(texts[..|texts| - 1]) + [texts[|texts| - 1]])
  }

  function Tail(parts: seq<string>): string {
    BoundedTail(Join(parts))
  }

  /** One line with its newline. */
  predicate OneLine(text: string) {
    text != "" && FirstNewline(text) == |text| - 1
  }

  /** `p` is what is left of `texts`, and the text before it did not fit in two windows with it. */
  predicate LeftOf(texts: seq<string>, p: seq<string>) {
    && |p| <= |texts| && p == texts[|texts| - |p|..] && (texts != [] ==> p != [])
    && (|p| < |texts| ==> |texts[|texts| - |p| - 1]| + |Join(p)| > 2 * TAIL_LIMIT)
  }

  /** Shedding drops parts only while they do not fit in two windows. */
  lemma {:induction false} ShedLeaves(parts: seq<string>)
    ensures LeftOf(parts, Shed(parts))
    ensures |Join(Shed(parts))| <= 2 * TAIL_LIMIT || |Shed(parts)| == 1
  {
    if |Join(parts)| > 2 * TAIL_LIMIT && |parts| > 1 {
      ShedLeaves(parts[1..]);
    }
  }

  lemma LeftOfMore(texts: seq<string>, q: seq<string>, text: string, p: seq<string>)
    requires LeftOf(texts, q) && LeftOf(q + [text], p)
    ensures LeftOf(texts + [text], p)
  {
    JoinPlus(q, [text]);
    hide Join;
    var all, more, cut := texts + [text], q + [text], |texts| - |q|;
    DropPlus(texts, cut, [text]);
    assert more == all[cut..];
    DropDrop(all, cut, |more| - |p|);
    assert |all| - |p| == cut + (|more| - |p|);
    if |p| < |more| {
      assert all[|all| - |p| - 1] == more[|more| - |p| - 1];
    } else if cut > 0 {
      assert p == more;
      assert all[cut - 1] == texts[cut - 1];
    }
  }

  /** The same for everything ever added. */
  lemma {:induction false} RetainedIsLeft(texts: seq<string>)
    ensures LeftOf(texts, Retained(texts))
    ensures |Join(Retained(texts))| <= 2 * TAIL_LIMIT || |Retained(texts)| == 1
  {
    if texts != [] {
      var n := |texts| - 1;
      var init, last := texts[..n], texts[n];
      assert texts == init + [last] && Retained(texts) == Shed(Retained(init) + [last]);
      hide *;
      RetainedIsLeft(init);
      ShedLeaves(Retained(init) + [last]);
      LeftOfMore(init, Retained(init), last, Retained(texts));
    } else {
      NothingIsShort();
    }
  }

  lemma NothingIsShort()
    ensures |Join(Retained([]))| <= 2 * TAIL_LIMIT
  {
  }

  /**
   * The tail of a long text: its last 8192 characters, from behind their first newline unless there is none
   * before the last character.
   */
  lemma TailStartsAtALine(text: string)
    ensures |text| <= 8192 ==> BoundedTail(text) == text
    ensures |text| > 8192 ==>
              var window, t := text[|text| - 8192..], BoundedTail(text);
              && 0 < |t| <= 8192 && t == window[8192 - |t|..]
              && (if |t| == 8192 then forall j :: 0 <= j < 8191 ==> window[j] != '\n'
                  else window[8191 - |t|] == '\n' && forall j :: 0 <= j < 8191 - |t| ==> window[j] != '\n')
  {
  }

  lemma RetainedSplits(texts: seq<string>) returns (before: string, x: string)
    ensures |Retained(texts)| <= |texts| && Join(texts) == before + Join(Retained(texts))
    ensures |Retained(texts)| == |texts| ==> before == ""
    ensures |Retained(texts)| < |texts| ==> before == x + texts[|texts| - |Retained(texts)| - 1]
  {
    RetainedIsLeft(texts);
    hide Retained;
    var k := |texts| - |Retained(texts)|;
    before, x := Join(texts[..k]), "";
    assert texts == texts[..k] + texts[k..];
    JoinPlus(texts[..k], texts[k..]);
    if k > 0 {
      x := Join(texts[..k - 1]);
      assert texts[..k] == texts[..k - 1] + [texts[k - 1]];
      JoinPlus(texts[..k - 1], [texts[k - 1]]);
      assert Join([texts[k - 1]]) == texts[k - 1];
    }
  }

  /** Whatever is added, the tail is the end of it and fits in the window. */
  lemma TailIsSuffix(texts: seq<string>)
    ensures var t := Tail(Retained(texts));
            |t| <= TAIL_LIMIT && |t| <= |Join(texts)| && t == Join(texts)[|Join(texts)| - |t|..]
  {
    var before, x := RetainedSplits(texts);
    var p := Join(Retained(texts));
    hide Join, Retained;
    assert BoundedTail(p) == p[|p| - |BoundedTail(p)|..];
  }

  /** Enough text kept: the window sees nothing of what went before. */
  lemma LongRestDecides(before: string, rest: string)
    requires |rest| > TAIL_LIMIT
    ensures BoundedTail(before + rest) == BoundedTail(rest)
  {
    assert (before + rest)[|before + rest| - TAIL_LIMIT..] == rest[|rest| - TAIL_LIMIT..];
  }

  /** Less than a window kept after a long line: the full text is cut at the end of that line. */
  lemma ShortRestIsWhole(x: string, d: string, rest: string)
    requires OneLine(d) && rest != "" && |rest| < TAIL_LIMIT && |d| + |rest| > 2 * TAIL_LIMIT
    ensures BoundedTail(x + d + rest) == rest
  {
    var text := x + d + rest;
    var m := TAIL_LIMIT - |rest|;
    var window := text[|text| - TAIL_LIMIT..];
    assert window == d[|d| - m..] + rest;
    assert window[m - 1] == '\n' && forall j :: 0 <= j < m - 1 ==> window[j] == d[|d| - m + j];
    assert FirstNewline(window) == m - 1;
    assert window[m..] == rest;
  }

  /** Exactly a window kept: the full text loses the first of its lines, the kept text does not. */
  lemma ExactRest(before: string, rest: string)
    requires before != "" && |rest| == TAIL_LIMIT
    ensures BoundedTail(before + rest) == BoundedTail(rest) <==> FirstNewline(rest) + 1 >= |rest|
  {
    assert (before + rest)[|before + rest| - TAIL_LIMIT..] == rest;
  }

  lemma FirstLineEnds(parts: seq<string>)
    requires parts != [] && forall i :: 0 <= i < |parts| ==> OneLine(parts[i])
    ensures FirstNewline(Join(parts)) == |parts[0]| - 1
    ensures |parts| == 1 <==> |parts[0]| == |Join(parts)|
  {
    var rest := Join(parts[1..]);
    assert Join(parts) == parts[0] + rest;
    if |parts| > 1 {
      assert rest == parts[1] + Join(parts[2..]);
    }
    hide Join;
    assert forall j :: 0 <= j < |parts[0]| ==> (parts[0] + rest)[j] == parts[0][j];
  }

  /**
   * For lines, the tail of the kept parts is the tail of the whole text, except exactly when some
   * line was discarded and the kept ones, more than one, fill the window to the character.
   */
  lemma TailIsExactIff(texts: seq<string>)
    requires forall i :: 0 <= i < |texts| ==> OneLine(texts[i])
    ensures var p := Retained(texts);
            Tail(p) == BoundedTail(Join(texts)) <==>
            !(|p| < |texts| && |Join(p)| == TAIL_LIMIT && |p| > 1)
  {
    var p := Retained(texts);
    RetainedIsLeft(texts);
    var before, x := RetainedSplits(texts);
    hide Retained, BoundedTail;
    if |p| < |texts| {
      var d := texts[|texts| - |p| - 1];
      FirstLineEnds(p);
      hide Join;
      var rest := Join(p);
      if |rest| > TAIL_LIMIT {
        LongRestDecides(before, rest);
      } else if |rest| < TAIL_LIMIT {
        ShortRestIsWhole(x, d, rest);
        ShortTextIsWhole(rest);
      } else {
        ExactRest(before, rest);
      }
    }
  }

  lemma ShortTextIsWhole(text: string)
    requires |text| <= TAIL_LIMIT
    ensures BoundedTail(text) == text
  {
  }

  function LineOf(n: nat): string {
    seq(n, i => 'x') + "\n"
  }

  lemma LineOfIsOneLine(n: nat)
    ensures OneLine(LineOf(n)) && |LineOf(n)| == n + 1
  {
    assert LineOf(n)[n] == '\n' && forall j :: 0 <= j < n ==> LineOf(n)[j] != '\n';
  }

  /** Such lines exist: one of 8200 characters, then two that fill the window. */
  lemma TailCanDiffer() returns (texts: seq<string>)
    ensures forall i :: 0 <= i < |texts| ==> OneLine(texts[i])
    ensures Tail(Retained(texts)) != BoundedTail(Join(texts))
  {
    LineOfIsOneLine(8199);
    LineOfIsOneLine(4095);
    texts := [LineOf(8199), LineOf(4095), LineOf(4095)];
    hide *;
    TailDiffers(LineOf(8199), LineOf(4095));
  }

  lemma TailDiffers(a: string, b: string)
    requires OneLine(a) && |a| == 8200 && OneLine(b) && |b| == 4096
    ensures var texts := [a, b, b];
            (forall i :: 0 <= i < |texts| ==> OneLine(texts[i])) && Tail(Retained(texts)) != BoundedTail(Join(texts))
  {
    hide OneLine, BoundedTail, Join, Retained, Tail;
    ThreeTexts(a, b, b);
    TailIsExactIff([a, b, b]);
  }

  lemma ThreeTexts(a: string, b: string, c: string)
    requires |a| + |b| <= 2 * TAIL_LIMIT < |a| + |b| + |c| && |b| + |c| <= 2 * TAIL_LIMIT
    ensures Retained([a, b, c]) == [b, c] && Join([b, c]) == b + c
  {
    TwoParts(a, b);
    TwoParts(b, c);
    assert Join([a, b, c]) == a + (b + c) by { assert [a, b, c][1..] == [b, c]; }
    assert [a, b, c][..2] == [a, b] && [a, b][..1] == [a] && [a][..0] == [];
    assert Retained([a]) == Shed([] + [a]) == [a];
    assert [a] + [b] == [a, b] && [a, b] + [c] == [a, b, c];
    assert Retained([a, b]) == Shed([a, b]) == [a, b];
    assert [a, b, c][1..] == [b, c];
    assert Shed([a, b, c]) == Shed([b, c]) == [b, c];
  }

  lemma TwoParts(a: string, b: string)
    ensures Join([a, b]) == a + b
  {
    assert [a, b][1..] == [b] && [b][1..] == [];
    assert Join([b]) == b + "" == b;
  }

  // ---------------------------------------------------------------------------------------------
  // One sink as a machine
  // ---------------------------------------------------------------------------------------------

  /** A masked and redacted line: its text, its bytes on disk, and the message that would announce it. */
  datatype Line = Line(text: string, data: seq<bv8>, message: Option<string>)

  /** What the progress callback does: returns something else than False, returns False, raises. */
  datatype Reply = Wrote | NotWritten | Raised

  datatype Note = Note(amount: nat, message: Option<string>)

  /** `watched` is whether there is a progress callback, `dropped` the lines without a notification. */
  datatype State = State(watched: bool, file: seq<bv8>, truncated: bool, parts: seq<string>,
                         sent: seq<real>, pending: Option<Note>, dropped: nat)

  /** A line arrives, or a flush looks for a free slot; `now` is what the clock then shows. */
  datatype Event = Added(line: Line, now: real, reply: Reply) | Tried(now: real, reply: Reply)

  /** One call of the progress callback. */
  datatype Call = Call(now: real, note: Note, reply: Reply, flushed: bool)

  function Start(watched: bool): State {
    State(watched, [], false, [], [], None, 0)
  }

  /** The send times of the last second. */
  function Live(sent: seq<real>, now: real): seq<real> {
    if sent != [] && sent[0] <= now - 1.0 then Live(sent[1..], now) else sent
  }

  predicate SlotOpen(sent: seq<real>, now: real) {
    |Live(sent, now)| < NOTIFY_PER_S
  }

  function AfterWrite(s: State, data: seq<bv8>): State {
    if s.truncated then s
    else if LOG_CAP <= |s.file| then s.(truncated := true)
    else if |data| > LOG_CAP - |s.file| then s.(file := s.file + data[..LOG_CAP - |s.file|], truncated := true)
    else s.(file := s.file + data)
  }

  /** `_notify` after the write: announce the new byte count, or keep it for later. */
  function AfterNotify(s: State, message: Option<string>, now: real, reply: Reply): State {
    if !s.watched then s
    else
      var live := Live(s.sent, now);
      if SlotOpen(s.sent, now) && reply != NotWritten then s.(sent := live + [now], pending := None)
      else s.(sent := live, pending := Some(Note(|s.file|, message)), dropped := s.dropped + 1)
  }

  function AfterLine(s: State, line: Line, now: real, reply: Reply): State {
    AfterNotify(AfterWrite(s, line.data).(parts := Shed(s.parts + [line.text])), line.message, now, reply)
  }

  /** One round of `flush_progress`. */
  function AfterTry(s: State, now: real, reply: Reply): State {
    if !s.watched || s.pending.None? then s
    else
      var live := Live(s.sent, now);
      if SlotOpen(s.sent, now) && reply != NotWritten then
        s.(sent := live + [now], pending := None, dropped := if s.dropped > 0 then s.dropped - 1 else 0)
      else s.(sent := live)
  }

  function Step(s: State, e: Event): State {
    match e
    case Added(line, now, reply) => AfterLine(s, line, now, reply)
    case Tried(now, reply) => AfterTry(s, now, reply)
  }

  /** The calls of the callback that the event makes: none or one. */
  function CallsOf(s: State, e: Event): seq<Call> {
    match e
    case Added(line, now, reply) =>
      var note := Note(|AfterWrite(s, line.data).file|, line.message);
      if s.watched && SlotOpen(s.sent, now) then [Call(now, note, reply, false)] else []
    case Tried(now, reply) =>
      if s.watched && s.pending.Some? && SlotOpen(s.sent, now) then [Call(now, s.pending.value, reply, true)] else []
  }

  function After(s: State, events: seq<Event>): State {
    if events == [] then s else Step(After(s, events[..|events| - 1]), events[|events| - 1])
  }

  function Calls(s: State, events: seq<Event>): seq<Call> {
    if events == [] then []
    else
      var n := |events| - 1;
      Calls(s, events[..n]) + CallsOf(After(s, events[..n]), events[n])
  }

  /** The lines of the run, in order. */
  function Lines(events: seq<Event>): seq<Line> {
    if events == [] then []
    else
      var n := |events| - 1;
      Lines(events[..n]) + if events[n].Added? then [events[n].line] else []
  }

  /** The clock never goes back. */
  predicate Forward(events: seq<Event>) {
    forall i, j :: 0 <= i < j < |events| ==> events[i].now <= events[j].now
  }

  // ---------------------------------------------------------------------------------------------
  // At most twenty notifications a second
  // ---------------------------------------------------------------------------------------------

  /** The times of the calls that wrote, or that raised, which counts as written. */
  function Successes(calls: seq<Call>): seq<real> {
    if calls == [] then []
    else
      var n := |calls| - 1;
      Successes(calls[..n]) + if calls[n].reply != NotWritten then [calls[n].now] else []
  }

  /** Any twenty-one successes in a row span a second or more. */
  predicate Spaced(ok: seq<real>) {
    forall i, j :: 0 <= i && i + NOTIFY_PER_S <= j < |ok| ==> ok[j] - ok[i] >= 1.0
  }

  /** `sent` holds the latest of the successes, and the others are a second old. */
  predicate Windowed(sent: seq<real>, ok: seq<real>, last: real) {
    && |sent| <= |ok| && sent == ok[|ok| - |sent|..] && |sent| <= NOTIFY_PER_S
    && (forall k :: 0 <= k < |ok| - |sent| ==> ok[k] <= last - 1.0)
    && (forall k :: 0 <= k < |ok| ==> ok[k] <= last)
  }

  lemma {:induction false} LiveIsWindowed(sent: seq<real>, ok: seq<real>, last: real, now: real)
    requires Windowed(sent, ok, last) && last <= now
    ensures Windowed(Live(sent, now), ok, now)
  {
    if sent != [] && sent[0] <= now - 1.0 {
      assert sent[0] == ok[|ok| - |sent|];
      assert sent[1..] == ok[|ok| - |sent[1..]|..];
      LiveIsWindowed(sent[1..], ok, now, now);
    }
  }

  lemma SendIsWindowed(sent: seq<real>, ok: seq<real>, now: real)
    requires Windowed(sent, ok, now) && |sent| < NOTIFY_PER_S && Spaced(ok)
    ensures Windowed(sent + [now], ok + [now], now) && Spaced(ok + [now])
  {
  }

  lemma {:induction false} RateInvariant(watched: bool, events: seq<Event>, last: real)
    requires Forward(events) && forall e <- events :: e.now <= last
    ensures var ok := Successes(Calls(Start(watched), events));
            Windowed(After(Start(watched), events).sent, ok, last) && Spaced(ok)
  {
    if events != [] {
      var n := |events| - 1;
      var s, calls, e := After(Start(watched), events[..n]), Calls(Start(watched), events[..n]), events[n];
      assert After(Start(watched), events) == Step(s, e) && Calls(Start(watched), events) == calls + CallsOf(s, e);
      assert e in events;
      InitGoesForward(events);
      hide *;
      RateInvariant(watched, events[..n], e.now);
      StepIsWindowed(s, Successes(calls), e);
      CallsAppend(calls, s, e);
      LaterIsWindowed(Step(s, e).sent, Successes(calls + CallsOf(s, e)), e.now, last);
    }
  }

  lemma InitGoesForward(events: seq<Event>)
    requires Forward(events) && events != []
    ensures var n := |events| - 1;
            Forward(events[..n]) && forall e <- events[..n] :: e.now <= events[n].now
  {
  }

  lemma LaterIsWindowed(sent: seq<real>, ok: seq<real>, last: real, later: real)
    requires Windowed(sent, ok, last) && last <= later
    ensures Windowed(sent, ok, later)
  {
  }

  function OkOf(calls: seq<Call>): seq<real>
    requires |calls| <= 1
  {
    if calls != [] && calls[0].reply != NotWritten then [calls[0].now] else []
  }

  lemma CallsAppend(calls: seq<Call>, s: State, e: Event)
    ensures Successes(calls + CallsOf(s, e)) == Successes(calls) + OkOf(CallsOf(s, e))
  {
    var more := CallsOf(s, e);
    if more == [] {
      assert calls + more == calls;
    } else {
      assert (calls + more)[..|calls + more| - 1] == calls;
    }
  }

  lemma StepIsWindowed(s: State, ok: seq<real>, e: Event)
    requires Windowed(s.sent, ok, e.now) && Spaced(ok)
    ensures var ok' := ok + OkOf(CallsOf(s, e));
            Windowed(Step(s, e).sent, ok', e.now) && Spaced(ok')
  {
    LiveIsWindowed(s.sent, ok, e.now, e.now);
    var live := Live(s.sent, e.now);
    if |live| < NOTIFY_PER_S {
      SendIsWindowed(live, ok, e.now);
    }
    hide Windowed, Spaced, Live;
    assert ok + [] == ok;
  }

  /**
   * However sends are refused, fail or are coalesced, no stretch of time shorter than a second holds
   * more than twenty successful notifications.
   */
  lemma RateIsBounded(watched: bool, events: seq<Event>, i: nat, j: nat)
    requires Forward(events)
    requires i <= j < |Successes(Calls(Start(watched), events))|
    ensures var ok := Successes(Calls(Start(watched), events)); ok[j] - ok[i] < 1.0 ==> j - i < NOTIFY_PER_S
  {
    var last := if events == [] then 0.0 else events[|events| - 1].now;
    RateInvariant(watched, events, last);
  }

  /** A second has passed since the twentieth success before. */
  lemma SlotIsOpenIff(sent: seq<real>, ok: seq<real>, last: real, now: real)
    requires Windowed(sent, ok, last) && last <= now
    ensures SlotOpen(sent, now) <==> |ok| < 20 || ok[|ok| - 20] <= now - 1.0
  {
    LiveIsWindowed(sent, ok, last, now);
    LiveIsYoung(sent, now);
    var live := Live(sent, now);
    if |live| == 20 {
      assert live[0] == ok[|ok| - 20];
    }
  }

  lemma {:induction false} LiveIsYoung(sent: seq<real>, now: real)
    ensures Live(sent, now) != [] ==> Live(sent, now)[0] > now - 1.0
  {
    if sent != [] && sent[0] <= now - 1.0 {
      LiveIsYoung(sent[1..], now);
    }
  }

  /**
   * When the callback is called, and with what: a line announces the size of the log, a flush what is pending,
   * exactly unless twenty successes lie within the last second.
   */
  lemma CallsAreExact(watched: bool, events: seq<Event>, e: Event)
    requires Forward(events + [e])
    ensures var s, ok := After(Start(watched), events), Successes(Calls(Start(watched), events));
            var calls := CallsOf(s, e);
            && |calls| <= 1
            && (calls != [] <==>
                  watched && (e.Added? || s.pending.Some?) && (|ok| < 20 || ok[|ok| - 20] <= e.now - 1.0))
            && (calls != [] && e.Added? ==>
                  calls[0] == Call(e.now, Note(|Step(s, e).file|, e.line.message), e.reply, false))
            && (calls != [] && e.Tried? ==> calls[0] == Call(e.now, s.pending.value, e.reply, true))
  {
    var all := events + [e];
    assert all[|events|] == e && forall i :: 0 <= i < |events| ==> all[i] == events[i];
    assert Forward(events);
    RateInvariant(watched, events, e.now);
    var s, ok := After(Start(watched), events), Successes(Calls(Start(watched), events));
    SlotIsOpenIff(s.sent, ok, e.now, e.now);
    WatchedStays(watched, events);
    hide *;
    CallOf(s, e);
  }

  lemma CallOf(s: State, e: Event)
    ensures var calls := CallsOf(s, e);
            && |calls| <= 1
            && (calls != [] <==> s.watched && (e.Added? || s.pending.Some?) && SlotOpen(s.sent, e.now))
            && (calls != [] && e.Added? ==>
                  calls[0] == Call(e.now, Note(|Step(s, e).file|, e.line.message), e.reply, false))
            && (calls != [] && e.Tried? ==> calls[0] == Call(e.now, s.pending.value, e.reply, true))
  {
    hide SlotOpen, Live, Shed;
  }

  lemma {:induction false} WatchedStays(watched: bool, events: seq<Event>)
    ensures After(Start(watched), events).watched == watched
  {
    hide SlotOpen, Live, Shed;
    if events != [] {
      WatchedStays(watched, events[..|events| - 1]);
    }
  }

  /** The call of event `j` went out: the callback returned something else than False, or raised. */
  predicate Went(watched: bool, events: seq<Event>, j: nat)
    requires j < |events|
  {
    var calls := CallsOf(After(Start(watched), events[..j]), events[j]);
    calls != [] && calls[0].reply != NotWritten
  }

  /** A line since which nothing went out. */
  predicate Unannounced(watched: bool, events: seq<Event>, i: nat) {
    i < |events| && events[i].Added? && forall j :: i <= j < |events| ==> !Went(watched, events, j)
  }

  function LastMessage(lines: seq<Line>): Option<string> {
    if lines == [] then None else lines[|lines| - 1].message
  }

  /** A note is pending exactly while no call has gone out since the last line, and it is that line's. */
  lemma {:induction false} PendingIff(watched: bool, events: seq<Event>)
    ensures var s := After(Start(watched), events);
            && (s.pending.Some? <==> watched && exists i :: Unannounced(watched, events, i))
            && (s.pending.Some? ==> s.pending == Some(Note(|s.file|, LastMessage(Lines(events)))))
  {
    if events != [] {
      var n := |events| - 1;
      var init, e := events[..n], events[n];
      PendingIff(watched, init);
      WatchedStays(watched, init);
      var s := After(Start(watched), init);
      StepPends(s, e);
      assert Went(watched, events, n) <==> CallsOf(s, e) != [] && CallsOf(s, e)[0].reply != NotWritten;
      hide CallsOf, Step;
      forall i
        ensures Unannounced(watched, events, i) <==>
                !Went(watched, events, n) && ((i == n && e.Added?) || Unannounced(watched, init, i))
      {
        OneMoreUnannounced(watched, events, i);
      }
      if s.pending.Some? {
        var i :| Unannounced(watched, init, i);
        assert Unannounced(watched, events, i) <==> !Went(watched, events, n);
      }
      assert Unannounced(watched, events, n) <==> !Went(watched, events, n) && e.Added? by {
        assert !Unannounced(watched, init, n);
      }
    }
  }

  lemma OneMoreUnannounced(watched: bool, events: seq<Event>, i: nat)
    requires events != []
    ensures var n := |events| - 1;
            Unannounced(watched, events, i) <==>
            !Went(watched, events, n) && ((i == n && events[n].Added?) || Unannounced(watched, events[..n], i))
  {
    hide CallsOf, After;
    var n := |events| - 1;
    var init := events[..n];
    forall j | 0 <= j < n
      ensures Went(watched, events, j) <==> Went(watched, init, j)
    {
      assert events[..j] == init[..j] && events[j] == init[j];
    }
  }

  lemma StepPends(s: State, e: Event)
    ensures var s', calls := Step(s, e), CallsOf(s, e);
            && (s'.pending.Some? <==>
                  if s.watched then
                    (e.Added? || s.pending.Some?) && !(calls != [] && calls[0].reply != NotWritten)
                  else s.pending.Some?)
            && (s'.pending.Some? ==>
                  s'.pending == if s.watched && e.Added? then Some(Note(|s'.file|, e.line.message)) else s.pending)
            && (e.Tried? ==> s'.file == s.file)
  {
    hide Live, Shed, SlotOpen;
  }

  // ---------------------------------------------------------------------------------------------
  // Every line is accounted for
  // ---------------------------------------------------------------------------------------------

  /** The calls that wrote or raised, made by a flush or made when the line came. */
  function Count(calls: seq<Call>, flushed: bool): nat {
    if calls == [] then 0
    else
      var n := |calls| - 1;
      Count(calls[..n], flushed) + if calls[n].reply != NotWritten && calls[n].flushed == flushed then 1 else 0
  }

  lemma CountAppend(calls: seq<Call>, more: seq<Call>, flushed: bool)
    requires |more| <= 1
    ensures Count(calls + more, flushed) == Count(calls, flushed) + Count(more, flushed)
  {
    if more == [] {
      assert calls + more == calls;
    } else {
      assert (calls + more)[..|calls + more| - 1] == calls && more[..0] == [];
    }
  }

  /** Lines added are the lines announced as they came, those a flush announced, and those dropped. */
  lemma {:induction false} LinesAreAccounted(events: seq<Event>)
    ensures var s, calls := After(Start(true), events), Calls(Start(true), events);
            && |Lines(events)| == Count(calls, false) + Count(calls, true) + s.dropped
            && (s.pending.Some? ==> s.dropped > 0) && s.watched
  {
    if events != [] {
      var n := |events| - 1;
      var s, calls := After(Start(true), events[..n]), Calls(Start(true), events[..n]);
      LinesAreAccounted(events[..n]);
      CountAppend(calls, CallsOf(s, events[n]), false);
      CountAppend(calls, CallsOf(s, events[n]), true);
      StepCounts(s, events[n]);
      hide Count, CallsOf, Step;
    }
  }

  lemma StepCounts(s: State, e: Event)
    requires s.watched && (s.pending.Some? ==> s.dropped > 0)
    ensures var s', calls := Step(s, e), CallsOf(s, e);
            && s.dropped + (if e.Added? then 1 else 0) == Count(calls, false) + Count(calls, true) + s'.dropped
            && (s'.pending.Some? ==> s'.dropped > 0) && s'.watched
  {
    hide Live, Shed;
    var calls := CallsOf(s, e);
    if calls != [] {
      assert calls[..0] == [];
    }
  }

  // ---------------------------------------------------------------------------------------------
  // The announced byte counts
  // ---------------------------------------------------------------------------------------------

  predicate Rising(calls: seq<Call>) {
    forall i, j :: 0 <= i < j < |calls| ==> calls[i].note.amount <= calls[j].note.amount
  }

  /** The amount of the last call that wrote or raised. */
  function Announced(calls: seq<Call>): Option<nat> {
    if calls == [] then None
    else
      var n := |calls| - 1;
      if calls[n].reply != NotWritten then Some(calls[n].note.amount) else Announced(calls[..n])
  }

  /** Nothing pending means the log size has been announced; a pending count is the log size. */
  predicate UpToDate(s: State, calls: seq<Call>, any: bool) {
    && (s.pending.Some? ==> s.pending.value.amount == |s.file|)
    && (s.pending.None? && any ==> Announced(calls) == Some(|s.file|))
  }

  /**
   * Byte counts passed to the callback never fall and never exceed the log, whatever the callback
   * does, and between events the last one announced is the size of the log unless that size is pending.
   */
  lemma {:induction false} AmountsRise(events: seq<Event>)
    ensures var s, calls := After(Start(true), events), Calls(Start(true), events);
            && Rising(calls) && (forall c <- calls :: c.note.amount <= |s.file|)
            && UpToDate(s, calls, Lines(events) != []) && s.watched && (Lines(events) == [] ==> s.pending.None?)
  {
    if events != [] {
      var n := |events| - 1;
      var s, calls, e := After(Start(true), events[..n]), Calls(Start(true), events[..n]), events[n];
      AmountsRise(events[..n]);
      StepStaysUpToDate(s, calls, e, Lines(events[..n]) != []);
      var s', more := Step(s, e), CallsOf(s, e);
      hide Step, CallsOf, UpToDate;
      forall i, j | 0 <= i < j < |calls + more|
        ensures (calls + more)[i].note.amount <= (calls + more)[j].note.amount
      {
        assert j < |calls| || (calls + more)[j] == more[0];
      }
    }
  }

  lemma StepStaysUpToDate(s: State, calls: seq<Call>, e: Event, any: bool)
    requires UpToDate(s, calls, any) && s.watched && (!any ==> s.pending.None?)
    ensures var s', more := Step(s, e), CallsOf(s, e);
            && UpToDate(s', calls + more, any || e.Added?) && |s.file| <= |s'.file| && s'.watched
            && (forall c <- more :: |s.file| <= c.note.amount <= |s'.file|) && |more| <= 1
            && (!any && !e.Added? ==> s'.pending.None?)
  {
    hide Live, Shed;
    var more := CallsOf(s, e);
    if more == [] {
      assert calls + more == calls;
    } else {
      assert (calls + more)[..|calls|] == calls && (calls + more)[|calls|] == more[0];
    }
  }

  // ---------------------------------------------------------------------------------------------
  // The log file and the tail of a run
  // ---------------------------------------------------------------------------------------------

  function Bytes(lines: seq<Line>): seq<bv8> {
    if lines == [] then [] else Bytes(lines[..|lines| - 1]) + lines[|lines| - 1].data
  }

  function Texts(lines: seq<Line>): (r: seq<string>)
    ensures |r| == |lines| && forall i :: 0 <= i < |lines| ==> r[i] == lines[i].text
  {
    seq(|lines|, i requires 0 <= i < |lines| => lines[i].text)
  }

  function Min(a: int, b: int): int {
    if a <= b then a else b
  }

  /** The file holds the first `LOG_CAP` bytes of all lines, and says so exactly when there were more. */
  predicate IsLogOf(s: State, bytes: seq<bv8>) {
    s.file == bytes[..Min(|bytes|, LOG_CAP)] && (s.truncated <==> |bytes| > LOG_CAP)
  }

  lemma WriteExtendsLog(s: State, bytes: seq<bv8>, data: seq<bv8>)
    requires IsLogOf(s, bytes) && data != []
    ensures IsLogOf(AfterWrite(s, data), bytes + data)
  {
    var s', all := AfterWrite(s, data), bytes + data;
    assert all[..|bytes|] == bytes;
    assert s'.file == all[..Min(|all|, LOG_CAP)];
  }

  lemma {:induction false} LogIsThePrefix(watched: bool, events: seq<Event>)
    requires forall l <- Lines(events) :: l.data != []
    ensures IsLogOf(After(Start(watched), events), Bytes(Lines(events)))
  {
    if events != [] {
      var n := |events| - 1;
      var s, e := After(Start(watched), events[..n]), events[n];
      var lines := Lines(events[..n]);
      assert Lines(events) == lines + if e.Added? then [e.line] else [];
      assert After(Start(watched), events) == Step(s, e);
      hide Lines, After, Start;
      assert lines + [] == lines;
      assert forall l <- lines :: l in Lines(events);
      LogIsThePrefix(watched, events[..n]);
      if e.Added? {
        assert e.line in Lines(events);
        BytesOfMore(lines, e.line);
        WriteExtendsLog(s, Bytes(lines), e.line.data);
      }
      StepLogs(s, e, Bytes(lines));
    }
  }

  lemma BytesOfMore(lines: seq<Line>, line: Line)
    ensures Bytes(lines + [line]) == Bytes(lines) + line.data
  {
    assert (lines + [line])[..|lines|] == lines;
  }

  /** Of a step only the write matters to the log. */
  lemma StepLogs(s: State, e: Event, bytes: seq<bv8>)
    requires IsLogOf(s, bytes)
    requires e.Added? ==> IsLogOf(AfterWrite(s, e.line.data), bytes + e.line.data)
    ensures IsLogOf(Step(s, e), if e.Added? then bytes + e.line.data else bytes)
  {
    hide IsLogOf, Live, Shed;
    if e.Added? {
      SameLog(AfterWrite(s, e.line.data), Step(s, e), bytes + e.line.data);
    } else {
      SameLog(s, Step(s, e), bytes);
    }
  }

  lemma SameLog(s: State, s': State, bytes: seq<bv8>)
    requires IsLogOf(s, bytes) && s.file == s'.file && s.truncated == s'.truncated
    ensures IsLogOf(s', bytes)
  {
  }

  /** What a run keeps for the tail depends on its lines alone. */
  lemma {:induction false} PartsAreRetained(watched: bool, events: seq<Event>)
    ensures After(Start(watched), events).parts == Retained(Texts(Lines(events)))
  {
    hide Shed;
    if events != [] {
      var n := |events| - 1;
      var s, e := After(Start(watched), events[..n]), events[n];
      PartsAreRetained(watched, events[..n]);
      var lines := Lines(events[..n]);
      if e.Added? {
        assert Texts(lines + [e.line])[..|lines|] == Texts(lines);
      } else {
        assert lines + [] == lines;
      }
    }
  }

  /** Kept are the last texts: at most two windows of them, or one; and one more would be more than two windows. */
  lemma KeptTexts(watched: bool, events: seq<Event>)
    ensures var parts, texts := After(Start(watched), events).parts, Texts(Lines(events));
            && |parts| <= |texts| && parts == texts[|texts| - |parts|..] && (texts != [] ==> parts != [])
            && (|Join(parts)| <= 16384 || |parts| == 1)
            && (|parts| < |texts| ==> |texts[|texts| - |parts| - 1]| + |Join(parts)| > 16384)
  {
    PartsAreRetained(watched, events);
    RetainedIsLeft(Texts(Lines(events)));
    hide After, Join, Retained, Lines;
  }

  /** The tail of a run is an end of its text of at most a window; for lines it is known when it is the whole's. */
  lemma TailOfRun(watched: bool, events: seq<Event>)
    ensures var t, all := Tail(After(Start(watched), events).parts), Join(Texts(Lines(events)));
            |t| <= TAIL_LIMIT && |t| <= |all| && t == all[|all| - |t|..]
    ensures (forall l <- Lines(events) :: OneLine(l.text)) ==>
              var p, texts := After(Start(watched), events).parts, Texts(Lines(events));
              Tail(p) == BoundedTail(Join(texts)) <==>
              !(|p| < |texts| && |Join(p)| == TAIL_LIMIT && |p| > 1)
  {
    var texts := Texts(Lines(events));
    PartsAreRetained(watched, events);
    TailIsSuffix(texts);
    hide After, Join, Retained, Tail, BoundedTail;
    if forall l <- Lines(events) :: OneLine(l.text) {
      assert forall i :: 0 <= i < |texts| ==> texts[i] == Lines(events)[i].text;
      TailIsExactIff(texts);
    }
  }

  // ---------------------------------------------------------------------------------------------
  // The sink as an object
  // ---------------------------------------------------------------------------------------------

  /** A monotonic clock: an arbitrary amount of time passes before each reading. */
  class Clock {
    var now: real
    var looks: nat
    const drift: nat -> real

    constructor (now: real, drift: nat -> real) {
      this.now, this.looks, this.drift := now, 0, drift;
    }

    method Monotonic() returns (t: real)
      modifies this
      ensures t == now >= old(now)
    {
      now := now + if drift(looks) > 0.0 then drift(looks) else 0.0;
      looks := looks + 1;
      t := now;
    }

    method Sleep(delay: real)
      requires delay >= 0.0
      modifies this
      ensures now >= old(now) + delay
    {
      now := now + delay;
      var _ := Monotonic();
    }
  }

  /** Rounds of one flush, between two readings of the clock. */
  ghost predicate Rounds(tries: seq<Event>, reply: Reply, start: real, end: real) {
    Forward(tries) && forall e <- tries :: e.Tried? && e.reply == reply && start <= e.now <= end
  }

  lemma OneMoreReading(tries: seq<Event>, reply: Reply, start: real, end: real, later: real)
    requires Rounds(tries, reply, start, end) && end <= later
    ensures Rounds(tries, reply, start, later)
  {
  }

  lemma OneMoreRound(s: State, tries: seq<Event>, reply: Reply, start: real, end: real, now: real, later: real)
    requires Rounds(tries, reply, start, end) && Calls(s, tries) == [] && start <= end <= now <= later
    ensures var e := Tried(now, reply);
            && Rounds(tries + [e], reply, start, later)
            && After(s, tries + [e]) == Step(After(s, tries), e)
            && Calls(s, tries + [e]) == CallsOf(After(s, tries), e)
  {
    assert (tries + [Tried(now, reply)])[..|tries|] == tries;
  }

  class ChildSink {
    const progress: bool
    const clock: Clock
    var file: seq<bv8>
    var written: nat
    var truncated: bool
    var linesDropped: nat
    var parts: seq<string>
    var partLen: nat
    var sent: seq<real>
    var pending: Option<Note>

    ghost predicate Valid()
      reads this
    {
      written == |file| && partLen == |Join(parts)|
    }

    ghost function Abs(): State
      reads this
    {
      State(progress, file, truncated, parts, sent, pending, linesDropped)
    }

    constructor (progress: bool, clock: Clock)
      ensures Valid() && Abs() == Start(progress) && this.clock == clock
    {
      this.progress, this.clock := progress, clock;
      file, written, truncated, linesDropped := [], 0, false, 0;
      parts, partLen, sent, pending := [], 0, [], None;
    }

    method Write(data: seq<bv8>)
      requires Valid()
      modifies this`file, this`written, this`truncated
      ensures Valid() && Abs() == AfterWrite(old(Abs()), data)
    {
      if !truncated {
        var room := LOG_CAP - written;
        if room <= 0 {
          truncated := true;
        } else if |data| > room {
          file := file + data[..room];
          written := written + room;
          truncated := true;
        } else {
          file := file + data;
          written := written + |data|;
        }
      }
    }

    method Remember(text: string)
      requires Valid()
      modifies this`parts, this`partLen
      ensures Valid() && parts == Shed(old(parts) + [text])
    {
      JoinPlus(parts, [text]);
      assert Join([text]) == text;
      parts := parts + [text];
      partLen := partLen + |text|;
      while partLen > TAIL_LIMIT * 2 && |parts| > 1
        invariant partLen == |Join(parts)|
        invariant Shed(parts) == Shed(old(parts) + [text])
      {
        var dropped := parts[0];
        parts := parts[1..];
        partLen := partLen - |dropped|;
      }
    }

    method Allow() returns (ok: bool, ghost now: real)
      modifies this`sent, clock
      ensures old(clock.now) <= now <= clock.now
      ensures ok <==> SlotOpen(old(sent), now)
      ensures sent == Live(old(sent), now) + if ok then [now] else []
    {
      var t := clock.Monotonic();
      now := t;
      while sent != [] && sent[0] <= t - 1.0
        invariant Live(sent, t) == Live(old(sent), t) && t == clock.now
        decreases |sent|
      {
        sent := sent[1..];
      }
      ok := |sent| < NOTIFY_PER_S;
      if ok {
        sent := sent + [t];
      }
    }

    method Notify(message: Option<string>, reply: Reply) returns (ghost now: real)
      requires Valid()
      modifies this`sent, this`pending, this`linesDropped, clock
      ensures Valid() && old(clock.now) <= now <= clock.now
      ensures Abs() == AfterNotify(old(Abs()), message, now, reply)
    {
      hide Live, Join;
      now := clock.now;
      if !progress {
        return;
      }
      var ok;
      ok, now := Allow();
      if !ok {
        pending, linesDropped := Some(Note(written, message)), linesDropped + 1;
        return;
      }
      if reply == NotWritten {
        sent := sent[..|sent| - 1];
        pending, linesDropped := Some(Note(written, message)), linesDropped + 1;
        return;
      }
      pending := None;
    }

    method Add(line: Line, reply: Reply) returns (ghost now: real)
      requires Valid()
      modifies this, clock
      ensures Valid() && old(clock.now) <= now <= clock.now
      ensures Abs() == Step(old(Abs()), Added(line, now, reply))
    {
      hide Live, Shed;
      Write(line.data);
      Remember(line.text);
      now := Notify(line.message, reply);
    }

    /** One round of the flush: the callback runs when a slot is open. */
    method Round(reply: Reply) returns (tried: bool, ghost now: real)
      requires Valid() && progress && pending.Some?
      modifies this`sent, this`pending, this`linesDropped, clock
      ensures Valid() && old(clock.now) <= now <= clock.now
      ensures Abs() == Step(old(Abs()), Tried(now, reply))
      ensures CallsOf(old(Abs()), Tried(now, reply)) ==
              if tried then [Call(now, old(pending.value), reply, true)] else []
      ensures !tried ==> pending.Some?
    {
      hide Live, Shed, Join;
      tried, now := Allow();
      if tried {
        if reply == NotWritten {
          sent := sent[..|sent| - 1];
        } else {
          pending := None;
          if linesDropped > 0 {
            linesDropped := linesDropped - 1;
          }
        }
      }
    }

    /** Sleeps towards the moment the oldest send leaves the window, a millisecond at the least. */
    method Pause()
      modifies clock
      ensures clock.now >= old(clock.now) + 0.001
    {
      var delay := 0.01;
      if sent != [] {
        var t := clock.Monotonic();
        delay := sent[0] + 1.0 - t;
      }
      clock.Sleep(if delay < 0.001 then 0.001 else if delay > 0.05 then 0.05 else delay);
    }

    /**
     * Rounds of the flush until the pending count goes out, the callback refuses it, or the time is up.
     * The callback is called at most once, and the wait ends.
     */
    method FlushProgress(wait: bool, reply: Reply) returns (ghost tries: seq<Event>)
      requires Valid()
      modifies this`sent, this`pending, this`linesDropped, clock
      ensures Valid() && Abs() == After(old(Abs()), tries)
      ensures Rounds(tries, reply, old(clock.now), clock.now)
      ensures |Calls(old(Abs()), tries)| <= 1
      ensures progress && old(pending).Some? && Calls(old(Abs()), tries) == [] ==>
                if wait then clock.now >= old(clock.now) + 1.05 else |tries| == 1
    {
      ghost var s := Abs();
      ghost var start := clock.now;
      tries := [];
      assert Rounds([], reply, start, start) && After(s, tries) == s && Calls(s, tries) == [];
      hide Shed, Join, Step, CallsOf, After, Calls, Rounds;
      if !progress || pending.None? {
        return;
      }
      var t := clock.Monotonic();
      var deadline := t + 1.05;
      ghost var end := start;
      while pending.Some?
        invariant Valid() && Abs() == After(s, tries) && Calls(s, tries) == []
        invariant Rounds(tries, reply, start, end) && start <= end <= clock.now
        invariant deadline >= start + 1.05
        invariant pending.Some? && (!wait ==> tries == [])
        decreases ((deadline - clock.now) * 1000.0).Floor
      {
        var tried, now := Round(reply);
        OneMoreRound(s, tries, reply, start, end, now, clock.now);
        tries := tries + [Tried(now, reply)];
        end := clock.now;
        if tried || !wait {
          return;
        }
        t := clock.Monotonic();
        if t >= deadline {
          OneMoreReading(tries, reply, start, end, t);
          return;
        }
        Pause();
      }
    }

    method TailText() returns (text: string)
      requires Valid()
      ensures text == Tail(parts)
    {
      text := BoundedTail(Join(parts));
    }
  }
}
