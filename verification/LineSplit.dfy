/** Cutting the output of a child into lines, whatever chunks the pipe delivers (memory/local_mcp/stream.py). */
module LineSplit {
  import opened Sequences

  type Bytes = seq<bv8>

  const NEWLINE: bv8 := 10
  const LINE_MAX := 1024 * 1024

  // ---------------------------------------------------------------------------------------------
  // The reader
  // ---------------------------------------------------------------------------------------------

  /** The index of the first newline, the length when there is none. */
  function Newline(b: Bytes): (r: nat)
    ensures r <= |b| && (r < |b| ==> b[r] == NEWLINE)
    ensures forall j :: 0 <= j < r ==> b[j] != NEWLINE
  {
    FirstIndex(b, NEWLINE)
  }

  /** The pieces put on the queue so far and the bytes still pending. */
  datatype Cut = Cut(pieces: seq<Bytes>, pending: Bytes)

  function Then(pieces: seq<Bytes>, c: Cut): Cut {
    Cut(pieces + c.pieces, c.pending)
  }

  /** Pieces of `LINE_MAX` bytes come off the front. */
  function Full(b: Bytes): Cut {
    if |b| < LINE_MAX then Cut([], b) else Then([b[..LINE_MAX]], Full(b[LINE_MAX..]))
  }

  /** The two inner loops: complete lines first, then pieces of what has no newline. */
  function Settle(b: Bytes): Cut
    decreases |b|
  {
    var nl := Newline(b);
    if nl < |b| then Then([b[..nl]], Settle(b[nl + 1..])) else Full(b)
  }

  /** One chunk after the others. */
  function Feed(c: Cut, chunk: Bytes): Cut {
    Then(c.pieces, Settle(c.pending + chunk))
  }

  function FeedAll(c: Cut, chunks: seq<Bytes>): Cut
    decreases |chunks|
  {
    if chunks == [] then c else FeedAll(Feed(c, chunks[0]), chunks[1..])
  }

  function Finish(c: Cut): seq<Bytes> {
    if c.pending == [] then c.pieces else c.pieces + [c.pending]
  }

  /** Everything the reader puts on its queue. */
  function Read(chunks: seq<Bytes>): seq<Bytes> {
    Finish(FeedAll(Cut([], []), chunks))
  }

  method Reader(chunks: seq<Bytes>) returns (out: seq<Bytes>)
    ensures out == Read(chunks)
  {
    out := [];
    var pending: Bytes := [];
    var i := 0;
    while i < |chunks|
      invariant 0 <= i <= |chunks|
      invariant FeedAll(Cut(out, pending), chunks[i..]) == FeedAll(Cut([], []), chunks)
    {
      ghost var before := Cut(out, pending);
      pending := pending + chunks[i];
      while Newline(pending) < |pending|
        invariant Then(out, Settle(pending)) == Feed(before, chunks[i])
        decreases |pending|
      {
        var nl := Newline(pending);
        ThenThen(out, [pending[..nl]], Settle(pending[nl + 1..]));
        out := out + [pending[..nl]];
        pending := pending[nl + 1..];
      }
      while |pending| >= LINE_MAX
        invariant Then(out, Full(pending)) == Feed(before, chunks[i])
        decreases |pending|
      {
        ThenThen(out, [pending[..LINE_MAX]], Full(pending[LINE_MAX..]));
        out := out + [pending[..LINE_MAX]];
        pending := pending[LINE_MAX..];
      }
      assert Then(out, Full(pending)) == Cut(out, pending);
      assert chunks[i..][0] == chunks[i] && chunks[i..][1..] == chunks[i + 1..];
      i := i + 1;
    }
    if pending != [] {
      out := out + [pending];
    }
  }

  lemma ThenThen(a: seq<Bytes>, b: seq<Bytes>, c: Cut)
    ensures Then(a, Then(b, c)) == Then(a + b, c)
  {
    assert a + (b + c.pieces) == a + b + c.pieces;
  }

  // ---------------------------------------------------------------------------------------------
  // Nothing is lost
  // ---------------------------------------------------------------------------------------------

  function WithoutNewlines(b: Bytes): Bytes {
    if b == [] then [] else (if b[0] == NEWLINE then [] else [b[0]]) + WithoutNewlines(b[1..])
  }

  lemma {:induction false} StripPlus(a: Bytes, b: Bytes)
    ensures WithoutNewlines(a + b) == WithoutNewlines(a) + WithoutNewlines(b)
  {
    if a == [] {
      assert a + b == b;
    } else {
      assert (a + b)[0] == a[0] && (a + b)[1..] == a[1..] + b;
      StripPlus(a[1..], b);
    }
  }

  lemma {:induction false} StripClean(b: Bytes)
    requires forall j :: 0 <= j < |b| ==> b[j] != NEWLINE
    ensures WithoutNewlines(b) == b
  {
    if b != [] {
      StripClean(b[1..]);
    }
  }

  /** The bytes a cut still stands for. */
  function Content(c: Cut): Bytes {
    Join(c.pieces) + c.pending
  }

  lemma ContentThen(a: seq<Bytes>, c: Cut)
    ensures Content(Then(a, c)) == Join(a) + Content(c)
  {
    hide Join;
    JoinPlus(a, c.pieces);
    PlusPlus(Join(a), Join(c.pieces), c.pending);
  }

  lemma JoinOne(b: Bytes)
    ensures Join([b]) == b
  {
    assert Join([b]) == b + Join([]);
  }

  predicate Clean(b: Bytes) {
    forall j :: 0 <= j < |b| ==> b[j] != NEWLINE
  }

  lemma {:induction false} FullKeeps(b: Bytes)
    requires Clean(b)
    ensures Content(Full(b)) == b && |Full(b).pending| < LINE_MAX && Clean(Full(b).pending)
    decreases |b|
  {
    if |b| >= LINE_MAX {
      FullKeeps(b[LINE_MAX..]);
      ContentThen([b[..LINE_MAX]], Full(b[LINE_MAX..]));
      JoinOne(b[..LINE_MAX]);
    } else {
      assert Content(Full(b)) == b;
    }
  }

  lemma StripHead(rest: Bytes)
    requires rest != [] && rest[0] == NEWLINE
    ensures WithoutNewlines(rest) == WithoutNewlines(rest[1..])
  {
    assert [] + WithoutNewlines(rest[1..]) == WithoutNewlines(rest[1..]);
  }

  lemma StripLine(b: Bytes)
    requires Newline(b) < |b|
    ensures var nl := Newline(b); WithoutNewlines(b) == b[..nl] + WithoutNewlines(b[nl + 1..])
  {
    hide Newline, WithoutNewlines;
    var nl := Newline(b);
    assert b == b[..nl] + b[nl..] && b[nl..][1..] == b[nl + 1..];
    StripPlus(b[..nl], b[nl..]);
    StripClean(b[..nl]);
    StripHead(b[nl..]);
  }

  lemma {:induction false} SettleKeeps(b: Bytes)
    ensures Content(Settle(b)) == WithoutNewlines(b)
    ensures |Settle(b).pending| < LINE_MAX && Clean(Settle(b).pending)
    decreases |b|
  {
    var nl := Newline(b);
    hide Newline, WithoutNewlines, Content, Full, Join;
    if nl < |b| {
      SettleKeeps(b[nl + 1..]);
      ContentThen([b[..nl]], Settle(b[nl + 1..]));
      JoinOne(b[..nl]);
      StripLine(b);
    } else {
      StripClean(b);
      FullKeeps(b);
    }
  }

  lemma FeedKeepsOne(c: Cut, chunk: Bytes)
    requires Clean(c.pending)
    ensures Content(Feed(c, chunk)) == Content(c) + WithoutNewlines(chunk) && Clean(Feed(c, chunk).pending)
  {
    hide Settle, WithoutNewlines, Join;
    SettleKeeps(c.pending + chunk);
    ContentThen(c.pieces, Settle(c.pending + chunk));
    StripPlus(c.pending, chunk);
    StripClean(c.pending);
    assert Join(c.pieces) + (c.pending + WithoutNewlines(chunk)) == Join(c.pieces) + c.pending + WithoutNewlines(chunk);
  }

  lemma {:induction false} FeedKeeps(c: Cut, chunks: seq<Bytes>)
    requires Clean(c.pending)
    ensures Content(FeedAll(c, chunks)) == Content(c) + WithoutNewlines(Join(chunks))
    decreases |chunks|
  {
    if chunks == [] {
      assert Content(c) + [] == Content(c);
    } else {
      var chunk, rest := chunks[0], Join(chunks[1..]);
      assert Join(chunks) == chunk + rest && FeedAll(c, chunks) == FeedAll(Feed(c, chunk), chunks[1..]);
      hide *;
      FeedKeepsOne(c, chunk);
      StripPlus(chunk, rest);
      FeedKeeps(Feed(c, chunk), chunks[1..]);
      assert Content(c) + WithoutNewlines(chunk) + WithoutNewlines(rest) ==
             Content(c) + (WithoutNewlines(chunk) + WithoutNewlines(rest));
    }
  }

  /** However the output is cut into chunks, the pieces hold all its bytes but the newlines, in order. */
  lemma ReaderLosesNothing(chunks: seq<Bytes>)
    ensures Join(Read(chunks)) == WithoutNewlines(Join(chunks))
  {
    FeedKeeps(Cut([], []), chunks);
    assert Content(Cut([], [])) + WithoutNewlines(Join(chunks)) == WithoutNewlines(Join(chunks));
    var c := FeedAll(Cut([], []), chunks);
    hide FeedAll, WithoutNewlines;
    JoinPlus(c.pieces, [c.pending]);
    JoinOne(c.pending);
    assert c.pending == [] ==> Join(c.pieces) + c.pending == Join(c.pieces);
  }

  // ---------------------------------------------------------------------------------------------
  // Byte by byte
  // ---------------------------------------------------------------------------------------------

  /** The reader of single bytes: a newline ends the piece, and so does its `LINE_MAX`-th byte. */
  function Push(c: Cut, x: bv8): Cut {
    if x == NEWLINE then Cut(c.pieces + [c.pending], [])
    else if |c.pending| + 1 == LINE_MAX then Cut(c.pieces + [c.pending + [x]], [])
    else Cut(c.pieces, c.pending + [x])
  }

  function PushAll(c: Cut, b: Bytes): Cut
    decreases |b|
  {
    if b == [] then c else PushAll(Push(c, b[0]), b[1..])
  }

  predicate Ready(c: Cut) {
    |c.pending| < LINE_MAX && Clean(c.pending)
  }

  lemma {:induction false} PushPlus(c: Cut, a: Bytes, b: Bytes)
    ensures PushAll(c, a + b) == PushAll(PushAll(c, a), b)
    decreases |a|
  {
    if a == [] {
      assert a + b == b;
    } else {
      assert (a + b)[0] == a[0] && (a + b)[1..] == a[1..] + b;
      PushPlus(Push(c, a[0]), a[1..], b);
    }
  }

  /** Earlier pieces do not matter. */
  lemma {:induction false} PushThen(ps: seq<Bytes>, c: Cut, b: Bytes)
    ensures PushAll(Then(ps, c), b) == Then(ps, PushAll(c, b))
    decreases |b|
  {
    if b != [] {
      assert Push(Then(ps, c), b[0]) == Then(ps, Push(c, b[0]));
      PushThen(ps, Push(c, b[0]), b[1..]);
    }
  }

  lemma FullStep(piece: Bytes, rest: Bytes)
    requires |piece| == LINE_MAX
    ensures Full(piece + rest) == Then([piece], Full(rest))
  {
    assert (piece + rest)[..LINE_MAX] == piece && (piece + rest)[LINE_MAX..] == rest;
  }

  /** Without a newline, bytes and chunks fill the same pieces. */
  lemma {:induction false} PushClean(c: Cut, b: Bytes)
    requires Ready(c) && Clean(b)
    ensures PushAll(c, b) == Then(c.pieces, Full(c.pending + b))
    decreases |b|
  {
    var all := c.pending + b;
    if b == [] {
      assert all == c.pending && c.pieces + [] == c.pieces;
    } else {
      var c', rest, piece := Push(c, b[0]), b[1..], c.pending + [b[0]];
      assert piece + rest == all;
      hide Full;
      PushClean(c', rest);
      if |piece| == LINE_MAX {
        FullStep(piece, rest);
        ThenThen(c.pieces, [piece], Full(rest));
        assert [] + rest == rest;
      }
    }
  }

  lemma NewlineAfter(p: Bytes, b: Bytes)
    requires Clean(p)
    ensures Newline(p + b) == |p| + Newline(b)
  {
    var n := Newline(p + b);
    assert forall j :: 0 <= j < |p| ==> (p + b)[j] == p[j] != NEWLINE;
    assert |p| <= n < |p + b| ==> (p + b)[n] == b[n - |p|];
    assert Newline(b) < |b| ==> (p + b)[|p| + Newline(b)] == NEWLINE;
    assert forall j :: 0 <= j < |p| + Newline(b) ==> (p + b)[j] != NEWLINE;
  }

  lemma SettleFirst(line: Bytes, tail: Bytes)
    requires Clean(line) && tail != [] && tail[0] == NEWLINE
    ensures Settle(line + tail) == Then([line], Settle(tail[1..]))
  {
    NewlineAfter(line, tail);
    assert Newline(tail) == 0;
    hide Newline, Full;
    assert (line + tail)[..|line|] == line && (line + tail)[|line| + 1..] == tail[1..];
  }

  lemma SettleLine(p: Bytes, head: Bytes, rest: Bytes)
    requires Clean(p + head)
    ensures Settle(p + (head + [NEWLINE] + rest)) == Then([p + head], Settle(rest))
  {
    hide Settle;
    var tail := [NEWLINE] + rest;
    assert p + (head + [NEWLINE] + rest) == (p + head) + tail && tail[1..] == rest;
    SettleFirst(p + head, tail);
  }

  lemma PushLine(c: Cut, head: Bytes, rest: Bytes)
    ensures PushAll(c, head + [NEWLINE] + rest) ==
            PushAll(Cut(PushAll(c, head).pieces + [PushAll(c, head).pending], []), rest)
  {
    PushPlus(c, head, [NEWLINE] + rest);
    assert head + [NEWLINE] + rest == head + ([NEWLINE] + rest);
    assert ([NEWLINE] + rest)[0] == NEWLINE && ([NEWLINE] + rest)[1..] == rest;
  }

  /** A chunk does what its bytes do, unless its first newline ends a piece that is too long. */
  lemma {:induction false} FeedIsPush(c: Cut, chunk: Bytes)
    requires Ready(c) && |chunk| <= LINE_MAX
    requires Newline(chunk) < |chunk| ==> |c.pending| + Newline(chunk) < LINE_MAX
    ensures Feed(c, chunk) == PushAll(c, chunk)
    decreases |chunk|
  {
    hide Newline, PushAll;
    var n, p := Newline(chunk), c.pending;
    NewlineAfter(p, chunk);
    if n < |chunk| {
      var head, rest := chunk[..n], chunk[n + 1..];
      assert chunk == head + [NEWLINE] + rest;
      PushClean(c, head);
      assert Full(p + head) == Cut([], p + head);
      assert c.pieces + [] == c.pieces;
      SettleLine(p, head, rest);
      hide Settle, Full;
      PushLine(c, head, rest);
      ThenThen(c.pieces, [p + head], Settle(rest));
      assert [] + rest == rest;
      FeedIsPush(Cut(c.pieces + [p + head], []), rest);
    } else {
      PushClean(c, chunk);
    }
  }

  // ---------------------------------------------------------------------------------------------
  // When the chunks do not matter
  // ---------------------------------------------------------------------------------------------

  /** The start of the line that the end of `b` is in. */
  function LineStart(b: Bytes): (r: nat)
    ensures r <= |b|
  {
    if b == [] then 0 else if b[|b| - 1] == NEWLINE then |b| else LineStart(b[..|b| - 1])
  }

  /** A line this long can end in the chunk that completes a full piece of it. */
  predicate Splits(length: int) {
    length >= LINE_MAX && length % LINE_MAX != LINE_MAX - 1
  }

  predicate BadEnd(b: Bytes, j: nat)
    requires j < |b|
  {
    b[j] == NEWLINE && Splits(j - LineStart(b[..j]))
  }

  /** Some line with a newline has such a length. */
  predicate HasBadLine(b: Bytes) {
    exists j :: 0 <= j < |b| && BadEnd(b, j)
  }

  /** The chunks one read returns: never empty, never more than was asked for. */
  predicate Sized(chunks: seq<Bytes>) {
    forall i :: 0 <= i < |chunks| ==> 0 < |chunks[i]| <= LINE_MAX
  }

  function BytesRead(b: Bytes): Cut {
    PushAll(Cut([], []), b)
  }

  lemma PushOneMore(b: Bytes, x: bv8)
    ensures BytesRead(b + [x]) == Push(BytesRead(b), x)
  {
    PushPlus(Cut([], []), b, [x]);
    assert PushAll(Push(BytesRead(b), x), []) == Push(BytesRead(b), x);
    assert [x][1..] == [];
  }

  lemma NextRemainder(length: nat)
    ensures (length + 1) % LINE_MAX == if length % LINE_MAX + 1 == LINE_MAX then 0 else length % LINE_MAX + 1
  {
  }

  lemma PushLength(c: Cut, x: bv8, length: nat)
    requires Ready(c) && |c.pending| == length % LINE_MAX
    ensures Ready(Push(c, x)) && |Push(c, x).pending| == if x == NEWLINE then 0 else (length + 1) % LINE_MAX
  {
    NextRemainder(length);
  }

  /** What is pending is what the line has beyond its full pieces. */
  lemma {:induction false} PendingLength(b: Bytes)
    ensures Ready(BytesRead(b)) && |BytesRead(b).pending| == (|b| - LineStart(b)) % LINE_MAX
    decreases |b|
  {
    if b != [] {
      var n := |b| - 1;
      hide Push, PushAll, BytesRead, Ready;
      PendingLength(b[..n]);
      assert b == b[..n] + [b[n]];
      PushOneMore(b[..n], b[n]);
      PushLength(BytesRead(b[..n]), b[n], n - LineStart(b[..n]));
    }
  }

  lemma {:induction false} LineStartAfter(b: Bytes, head: Bytes)
    requires Clean(head)
    ensures LineStart(b + head) == LineStart(b)
    decreases |head|
  {
    if head == [] {
      assert b + head == b;
    } else {
      var n := |head| - 1;
      assert (b + head)[..|b + head| - 1] == b + head[..n];
      LineStartAfter(b, head[..n]);
    }
  }

  lemma OverfullSplits(length: nat, n: nat)
    requires n < LINE_MAX <= length % LINE_MAX + n
    ensures Splits(length + n)
  {
    assert (length + n) % LINE_MAX == length % LINE_MAX + n - LINE_MAX;
  }

  lemma SplitsBack(length: int)
    requires Splits(length)
    ensures length - (LINE_MAX - 1) > 0 && (length - (LINE_MAX - 1)) % LINE_MAX != 0
  {
  }

  lemma BadEndAt(all: Bytes, j: nat, before: Bytes)
    requires j < |all| && all[..j] == before && all[j] == NEWLINE && Splits(j - LineStart(before))
    ensures HasBadLine(all)
  {
    hide LineStart, Splits;
    assert BadEnd(all, j);
  }

  lemma CutAt(before: Bytes, chunk: Bytes, n: nat, more: Bytes)
    requires n < |chunk|
    ensures var all := before + chunk + more;
            all[..|before| + n] == before + chunk[..n] && all[|before| + n] == chunk[n]
  {
  }

  /** A chunk whose first newline would make a difference ends a bad line. */
  lemma DifferenceIsBad(b: Bytes, chunk: Bytes, more: Bytes)
    requires |chunk| <= LINE_MAX && Newline(chunk) < |chunk|
    requires |BytesRead(b).pending| + Newline(chunk) >= LINE_MAX
    ensures HasBadLine(b + chunk + more)
  {
    hide *;
    var n := Newline(chunk);
    PendingLength(b);
    FirstIsClean(chunk);
    LineStartAfter(b, chunk[..n]);
    OverfullSplits(|b| - LineStart(b), n);
    CutAt(b, chunk, n, more);
    BadEndAt(b + chunk + more, |b| + n, b + chunk[..n]);
  }

  lemma FirstIsClean(b: Bytes)
    ensures Clean(b[..Newline(b)])
  {
  }

  lemma {:induction false} FeedAllIsPush(b: Bytes, chunks: seq<Bytes>)
    requires Sized(chunks) && !HasBadLine(b + Join(chunks))
    ensures FeedAll(BytesRead(b), chunks) == BytesRead(b + Join(chunks))
    decreases |chunks|
  {
    hide HasBadLine, Newline, Feed;
    if chunks == [] {
      assert b + Join(chunks) == b;
    } else {
      var chunk, rest := chunks[0], chunks[1..];
      assert b + Join(chunks) == b + chunk + Join(rest);
      PendingLength(b);
      if Newline(chunk) < |chunk| && |BytesRead(b).pending| + Newline(chunk) >= LINE_MAX {
        DifferenceIsBad(b, chunk, Join(rest));
        assert false;
      }
      FeedIsPush(BytesRead(b), chunk);
      PushPlus(Cut([], []), b, chunk);
      FeedAllIsPush(b + chunk, rest);
    }
  }

  ghost predicate ChunksDoNotMatter(b: Bytes) {
    forall chunks :: Sized(chunks) && Join(chunks) == b ==> Read(chunks) == Finish(BytesRead(b))
  }

  function Singles(b: Bytes): seq<Bytes> {
    if b == [] then [] else [[b[0]]] + Singles(b[1..])
  }

  lemma {:induction false} SinglesJoin(b: Bytes)
    ensures Join(Singles(b)) == b && Sized(Singles(b))
  {
    if b != [] {
      SinglesJoin(b[1..]);
      assert Singles(b)[0] == [b[0]] && Singles(b)[1..] == Singles(b[1..]);
      assert forall i :: 1 <= i < |Singles(b)| ==> Singles(b)[i] == Singles(b[1..])[i - 1];
    }
  }

  lemma ReadyPush(c: Cut, x: bv8)
    requires Ready(c)
    ensures Ready(Push(c, x))
  {
  }

  lemma {:induction false} FeedSingles(c: Cut, b: Bytes)
    requires Ready(c)
    ensures FeedAll(c, Singles(b)) == PushAll(c, b) && Ready(PushAll(c, b))
    decreases |b|
  {
    if b != [] {
      FeedIsPush(c, [b[0]]);
      assert PushAll(c, [b[0]]) == PushAll(Push(c, b[0]), []) == Push(c, b[0]) by { assert [b[0]][1..] == []; }
      ReadyPush(c, b[0]);
      FeedSingles(Push(c, b[0]), b[1..]);
      hide Feed, Push;
      assert Singles(b)[0] == [b[0]] && Singles(b)[1..] == Singles(b[1..]);
    }
  }

  lemma {:induction false} FeedAllPlus(c: Cut, a: seq<Bytes>, b: seq<Bytes>)
    ensures FeedAll(c, a + b) == FeedAll(FeedAll(c, a), b)
    decreases |a|
  {
    if a == [] {
      assert a + b == b;
    } else {
      assert (a + b)[0] == a[0] && (a + b)[1..] == a[1..] + b;
      FeedAllPlus(Feed(c, a[0]), a[1..], b);
    }
  }

  /** A chunk that ends a line of full length makes one piece where its bytes make two. */
  lemma LongChunk(c: Cut, head: Bytes)
    requires Ready(c) && Clean(head) && |head| == LINE_MAX - 1 && c.pending != []
    ensures var chunk := head + [NEWLINE];
            && Feed(c, chunk) == Cut(c.pieces + [c.pending + head], [])
            && PushAll(c, chunk).pending == [] && |PushAll(c, chunk).pieces| == |c.pieces| + 2
  {
    var p := c.pending;
    assert head + [NEWLINE] + [] == head + [NEWLINE];
    SettleLine(p, head, []);
    assert Settle([]) == Cut([], []);
    PushLine(c, head, []);
    PushClean(c, head);
    assert |Full((p + head)[LINE_MAX..]).pieces| == 0;
    hide Settle, Newline;
  }

  /** Bytes up to the last piece of a bad line one at a time, the rest of that line in one chunk. */
  lemma BadLineMatters(b: Bytes, j: nat) returns (chunks: seq<Bytes>)
    requires j < |b| && BadEnd(b, j)
    ensures Sized(chunks) && Join(chunks) == b && |Read(chunks)| + 1 == |Finish(BytesRead(b))|
  {
    var i := j - (LINE_MAX - 1);
    var a, head, rest := b[..i], b[i..j], b[j + 1..];
    var chunk := head + [NEWLINE];
    chunks := Singles(a) + [chunk] + Singles(rest);
    BadLineParts(b, j);
    assert b == a + chunk + rest;
    ChunksAround(a, chunk, rest);
    var init := Cut([], []);
    FeedSingles(init, a);
    LongChunk(BytesRead(a), head);
    var one, two := Feed(BytesRead(a), chunk), PushAll(BytesRead(a), chunk);
    AroundFeeds(a, chunk, rest, one);
    PushPlus(init, a + chunk, rest);
    PushPlus(init, a, chunk);
    hide Feed, Push, PushAll, BadEnd;
    CountsFollow(one, two, rest);
  }

  /** From here on both readers do the same. */
  lemma CountsFollow(one: Cut, two: Cut, rest: Bytes)
    requires one.pending == two.pending == [] && |one.pieces| + 1 == |two.pieces|
    ensures |Finish(PushAll(one, rest))| + 1 == |Finish(PushAll(two, rest))|
  {
    var none := Cut([], []);
    assert Then(one.pieces, none) == one && Then(two.pieces, none) == two;
    PushThen(one.pieces, none, rest);
    PushThen(two.pieces, none, rest);
  }

  lemma ChunksAround(a: Bytes, chunk: Bytes, rest: Bytes)
    requires 0 < |chunk| <= LINE_MAX
    ensures var chunks := Singles(a) + [chunk] + Singles(rest); Sized(chunks) && Join(chunks) == a + chunk + rest
  {
    SinglesJoin(a);
    SinglesJoin(rest);
    JoinPlus(Singles(a) + [chunk], Singles(rest));
    JoinPlus(Singles(a), [chunk]);
    JoinOne(chunk);
  }

  lemma AroundFeeds(a: Bytes, chunk: Bytes, rest: Bytes, one: Cut)
    requires one == Feed(BytesRead(a), chunk) && one.pending == []
    ensures FeedAll(Cut([], []), Singles(a) + [chunk] + Singles(rest)) == PushAll(one, rest)
  {
    var init := Cut([], []);
    FeedAllPlus(init, Singles(a) + [chunk], Singles(rest));
    FeedAllPlus(init, Singles(a), [chunk]);
    FeedSingles(init, a);
    FeedSingles(one, rest);
    assert [chunk][1..] == [];
    assert FeedAll(one, []) == one;
  }

  /** The last `LINE_MAX - 1` bytes of a bad line start with some of an unfinished piece before them. */
  lemma BadLineParts(b: Bytes, j: nat)
    requires j < |b| && BadEnd(b, j)
    ensures var i := j - (LINE_MAX - 1);
            && i >= 0 && Clean(b[i..j]) && Ready(BytesRead(b[..i])) && BytesRead(b[..i]).pending != []
  {
    hide PushAll, LineStart, Splits;
    var i := j - (LINE_MAX - 1);
    var start := LineStart(b[..j]);
    LineIsClean(b[..j]);
    SplitsBack(j - start);
    assert forall k :: i <= k < j ==> b[k] == b[..j][k];
    assert b[..j] == b[..i] + b[i..j];
    LineStartAfter(b[..i], b[i..j]);
    PendingLength(b[..i]);
  }

  lemma {:induction false} LineIsClean(b: Bytes)
    ensures forall k :: LineStart(b) <= k < |b| ==> b[k] != NEWLINE
  {
    if b != [] && b[|b| - 1] != NEWLINE {
      LineIsClean(b[..|b| - 1]);
      assert forall k :: 0 <= k < |b| - 1 ==> b[k] == b[..|b| - 1][k];
    }
  }

  /**
   * The pieces are the same for every way the pipe can cut the output into chunks exactly when no
   * complete line is `LINE_MAX` bytes or more, except lines one byte short of a multiple of it.
   */
  lemma ChunksDoNotMatterIff(b: Bytes)
    ensures ChunksDoNotMatter(b) <==> !HasBadLine(b)
  {
    if HasBadLine(b) {
      var j :| 0 <= j < |b| && BadEnd(b, j);
      var chunks := BadLineMatters(b, j);
      assert Read(chunks) != Finish(BytesRead(b));
    } else {
      forall chunks | Sized(chunks) && Join(chunks) == b
        ensures Read(chunks) == Finish(BytesRead(b))
      {
        assert [] + Join(chunks) == b;
        FeedAllIsPush([], chunks);
      }
    }
  }

  /** Such output: one line of exactly `LINE_MAX` bytes. */
  lemma FullLineIsBad(b: Bytes)
    requires |b| == LINE_MAX + 1 && Clean(b[..LINE_MAX]) && b[LINE_MAX] == NEWLINE
    ensures HasBadLine(b) && !ChunksDoNotMatter(b)
  {
    LineStartAfter([], b[..LINE_MAX]);
    assert [] + b[..LINE_MAX] == b[..LINE_MAX];
    hide Clean, LineStart, ChunksDoNotMatter;
    assert LineStart([]) == 0;
    assert BadEnd(b, LINE_MAX);
    ChunksDoNotMatterIff(b);
  }

  lemma SomeOutputDependsOnChunks() returns (b: Bytes)
    ensures !ChunksDoNotMatter(b)
  {
    var line := seq(LINE_MAX, i => 120 as bv8);
    b := line + [NEWLINE];
    assert b[..LINE_MAX] == line;
    FullLineIsBad(b);
  }

  // ---------------------------------------------------------------------------------------------
  // Short lines
  // ---------------------------------------------------------------------------------------------

  /** The lines of the output without their newlines; a last line without one counts when it is not empty. */
  function Lines(b: Bytes): seq<Bytes>
    decreases |b|
  {
    var nl := Newline(b);
    if nl < |b| then [b[..nl]] + Lines(b[nl + 1..]) else if b == [] then [] else [b]
  }

  /** No line, complete or not, reaches the limit. */
  predicate ShortLines(b: Bytes) {
    forall j :: 0 <= j <= |b| ==> j - LineStart(b[..j]) < LINE_MAX
  }

  lemma {:induction false} LineStartShift(a: Bytes, rest: Bytes)
    requires a != [] && a[|a| - 1] == NEWLINE
    ensures LineStart(a + rest) == |a| + LineStart(rest)
    decreases |rest|
  {
    if rest == [] {
      assert a + rest == a;
    } else {
      var n := |rest| - 1;
      assert (a + rest)[..|a + rest| - 1] == a + rest[..n];
      LineStartShift(a, rest[..n]);
    }
  }

  lemma ShortRest(head: Bytes, rest: Bytes)
    requires Clean(head) && ShortLines(head + [NEWLINE] + rest)
    ensures |head| < LINE_MAX && ShortLines(rest)
  {
    hide LineStart;
    var a := head + [NEWLINE];
    var b := a + rest;
    LineStartAfter([], head);
    assert b[..|head|] == [] + head;
    forall j | 0 <= j <= |rest|
      ensures j - LineStart(rest[..j]) < LINE_MAX
    {
      assert b[..|a| + j] == a + rest[..j];
      LineStartShift(a, rest[..j]);
    }
  }

  lemma PushShort(head: Bytes)
    requires Clean(head) && |head| < LINE_MAX
    ensures BytesRead(head) == Cut([], head)
  {
    PushClean(Cut([], []), head);
    assert [] + head == head;
    var none: seq<Bytes> := [];
    assert none + [] == none;
  }

  lemma PushWholeLine(head: Bytes, rest: Bytes)
    requires Clean(head) && |head| < LINE_MAX
    ensures BytesRead(head + [NEWLINE] + rest) == Then([head], BytesRead(rest))
  {
    var none := Cut([], []);
    PushShort(head);
    PushLine(none, head, rest);
    assert none.pieces + [head] == [head];
    assert Cut([head], []) == Then([head], none);
    PushThen([head], none, rest);
  }

  lemma SplitAt(b: Bytes, n: nat)
    requires n < |b| && b[n] == NEWLINE
    ensures b == b[..n] + [NEWLINE] + b[n + 1..]
  {
  }

  lemma LinesStep(b: Bytes)
    requires Newline(b) < |b|
    ensures Lines(b) == [b[..Newline(b)]] + Lines(b[Newline(b) + 1..])
  {
    hide Newline;
  }

  lemma {:induction false} ShortPush(b: Bytes)
    requires ShortLines(b)
    ensures Finish(BytesRead(b)) == Lines(b)
    decreases |b|
  {
    hide *;
    FirstIsClean(b);
    if Newline(b) < |b| {
      var head, rest := b[..Newline(b)], b[Newline(b) + 1..];
      SplitAt(b, Newline(b));
      LinesStep(b);
      ShortRest(head, rest);
      PushWholeLine(head, rest);
      ShortPush(rest);
      FinishThen(head, BytesRead(rest));
    } else {
      LastLine(b);
    }
  }

  lemma CleanIsShort(b: Bytes)
    requires ShortLines(b) && Clean(b)
    ensures |b| < LINE_MAX
  {
    hide LineStart, Clean;
    LineStartAfter([], b);
    assert [] + b == b && b[..|b|] == b;
    assert |b| - LineStart(b[..|b|]) < LINE_MAX;
    assert LineStart([]) == 0;
  }

  lemma LastLine(b: Bytes)
    requires ShortLines(b) && Newline(b) == |b|
    ensures Finish(BytesRead(b)) == Lines(b)
  {
    assert Lines(b) == if b == [] then [] else [b];
    FirstIsClean(b);
    assert b[..|b|] == b;
    hide Lines, Newline, ShortLines, BytesRead;
    CleanIsShort(b);
    PushShort(b);
    var none: seq<Bytes> := [];
    assert none + [b] == [b];
  }

  lemma FinishThen(head: Bytes, c: Cut)
    ensures Finish(Then([head], c)) == [head] + Finish(c)
  {
    assert [head] + (c.pieces + [c.pending]) == [head] + c.pieces + [c.pending];
  }

  /** When every line is short, each comes through whole, whatever the chunks. */
  lemma ShortLinesComeWhole(chunks: seq<Bytes>)
    requires Sized(chunks) && ShortLines(Join(chunks))
    ensures Read(chunks) == Lines(Join(chunks))
  {
    hide LineStart, Read;
    ShortPush(Join(chunks));
    ChunksDoNotMatterIff(Join(chunks));
  }
}
