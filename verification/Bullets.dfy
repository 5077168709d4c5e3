/** Which bullet lines of a memory file carry a count, and which (the two patterns of memory/schema.py). */
module Bullets {
  import opened Wrappers
  import opened Text
  import opened Schema

  predicate Spaces(s: string) {
    s != "" && AllSpaces(s)
  }

  predicate Digits(s: string) {
    s != "" && forall i :: 0 <= i < |s| ==> IsDigit(s[i])
  }

  /** The shape `\s+\(seen\s+(\d+)\s+times\)\s*`, piece by piece. */
  predicate HasPieces(s: string, a: string, b: string, digits: string, c: string, d: string) {
    && Spaces(a) && Spaces(b) && Digits(digits) && Spaces(c) && AllSpaces(d)
    && s == a + ("(seen" + (b + (digits + (c + ("times)" + d)))))
  }

  /** The text says that something was seen `n` times. */
  ghost predicate SaysSeen(s: string, n: nat) {
    exists a, b, digits, c, d :: CountsTo(s, a, b, digits, c, d, n)
  }

  predicate CountsTo(s: string, a: string, b: string, digits: string, c: string, d: string, n: nat) {
    HasPieces(s, a, b, digits, c, d) && n == NatOf(digits)
  }

  lemma SpacesThen(a: string, rest: string)
    requires Spaces(a) && rest != "" && !IsSpace(rest[0])
    ensures AfterSpaces(a + rest) == Some(rest)
  {
    TrimLeftPast(a, rest);
    assert (a + rest)[0] == a[0];
    hide IsSpace;
  }

  lemma {:induction false} OnlySpaces(s: string)
    requires AllSpaces(s)
    ensures TrimLeft(s) == ""
  {
    if s != "" {
      OnlySpaces(s[1..]);
    }
  }

  lemma TimesThen(c: string, d: string)
    requires Spaces(c) && AllSpaces(d)
    ensures var times := c + ("times)" + d);
            times != "" && !IsDigit(times[0]) && MatchTimes(times)
  {
    var word := "times)" + d;
    assert word[0] == 't';
    SpacesThen(c, word);
    WordThen("times)", d);
    OnlySpaces(d);
    assert (c + word)[0] == c[0];
    hide AfterSpaces, AfterWord, Text.TrimLeft;
  }

  /** Whatever has the shape matches, with its number. */
  lemma PiecesMatch(s: string, a: string, b: string, digits: string, c: string, d: string)
    requires HasPieces(s, a, b, digits, c, d)
    ensures MatchSeen(s) == Some(NatOf(digits))
  {
    hide MatchTimes, NatOf, AllSpaces, MatchCount, AfterSpaces, AfterWord;
    var times := c + ("times)" + d);
    TimesThen(c, d);
    CountThen(digits, times);
    var count := digits + times;
    assert count[0] == digits[0] && IsDigit(digits[0]);
    SpacesThen(b, count);
    WordThen("(seen", b + count);
    var word := "(seen" + (b + count);
    assert word[0] == '(';
    SpacesThen(a, word);
  }

  lemma SpacesForm(s: string) returns (spaces: string)
    requires AfterSpaces(s).Some?
    ensures s == spaces + AfterSpaces(s).value && Spaces(spaces)
  {
    spaces := AfterSpacesForm(s);
  }

  lemma AreSpaces(s: string)
    requires s != "" && AllSpaces(s)
    ensures Spaces(s)
  {
  }

  lemma CountForm(s: string) returns (digits: string, c: string, d: string)
    requires MatchCount(s).Some?
    ensures s == digits + (c + ("times)" + d)) && Digits(digits) && Spaces(c) && AllSpaces(d)
    ensures MatchCount(s) == Some(NatOf(digits))
  {
    hide NatOf, MatchTimes, AllSpaces, Spaces, IsDigit;
    var n := DigitRun(s);
    var rest := s[n..];
    digits := s[..n];
    assert s == digits + rest;
    assert MatchCount(s) == Some(NatOf(digits));
    hide MatchCount;
    c, d := TimesForm(rest);
    assert Spaces(c) by { AreSpaces(c); }
  }

  /** Whatever matches has the shape. */
  lemma MatchHasPieces(s: string) returns (a: string, b: string, digits: string, c: string, d: string)
    requires MatchSeen(s).Some?
    ensures HasPieces(s, a, b, digits, c, d) && MatchSeen(s) == Some(NatOf(digits))
  {
    hide MatchCount, NatOf;
    var first := AfterSpaces(s).value;
    var second := AfterWord(first, "(seen").value;
    var count := AfterSpaces(second).value;
    a := SpacesForm(s);
    AfterWordForm(first, "(seen");
    b := SpacesForm(second);
    assert MatchSeen(s) == MatchCount(count);
    hide AfterSpaces, AfterWord, MatchSeen, Digits, Spaces, AllSpaces;
    digits, c, d := CountForm(count);
  }

  /** The matcher accepts exactly the texts of that shape, and reads their number. */
  lemma MatchSeenIff(s: string, n: nat)
    ensures MatchSeen(s) == Some(n) <==> SaysSeen(s, n)
  {
    hide MatchSeen, NatOf;
    if MatchSeen(s) == Some(n) {
      var a, b, digits, c, d := MatchHasPieces(s);
      hide HasPieces;
      assert CountsTo(s, a, b, digits, c, d, n);
    }
    if SaysSeen(s, n) {
      var a, b, digits, c, d :| CountsTo(s, a, b, digits, c, d, n);
      PiecesMatch(s, a, b, digits, c, d);
    }
  }

  lemma {:induction false} FindsTheFirst(body: string, i: nat)
    ensures match FindSeen(body, i)
            case Some(r) => forall j :: i <= j < r ==> MatchSeen(body[j..]).None?
            case None => forall j :: i <= j <= |body| ==> MatchSeen(body[j..]).None?
    decreases |body| - i
  {
    hide MatchSeen;
    if i <= |body| && MatchSeen(body[i..]).None? {
      FindsTheFirst(body, i + 1);
    }
  }

  /** Some end of the text, at `i` or later, says how often something was seen. */
  ghost predicate SaysSeenFrom(body: string, i: nat) {
    exists j, n: nat :: i <= j <= |body| && SaysSeen(body[j..], n)
  }

  /**
   * What a bullet line stands for: its text and the count 1 if no end of it says a count; otherwise the text
   * before the first such end that leaves a character, and the count it says.
   */
  lemma BulletMeaning(body: string) returns (i: nat)
    ensures var p := ParsePattern(body);
            if !SaysSeenFrom(body, 1) then p == Pattern(body, 1)
            else
              && 1 <= i <= |body| && SaysSeen(body[i..], p.count) && p.description == Trim(body[..i])
              && forall j, n: nat :: 1 <= j < i ==> !SaysSeen(body[j..], n)
  {
    hide MatchSeen, SaysSeen, Text.Trim;
    FindsTheFirst(body, 1);
    i := if FindSeen(body, 1).Some? then FindSeen(body, 1).value else 0;
    forall j: nat, n: nat | j <= |body|
      ensures MatchSeen(body[j..]) == Some(n) <==> SaysSeen(body[j..], n)
    {
      MatchSeenIff(body[j..], n);
    }
    if FindSeen(body, 1).Some? {
      assert SaysSeen(body[i..], MatchSeen(body[i..]).value);
      forall j: nat, n: nat | 1 <= j < i
        ensures !SaysSeen(body[j..], n)
      {
        assert MatchSeen(body[j..]) != Some(n);
      }
    } else {
      forall j: nat, n: nat | 1 <= j <= |body|
        ensures !SaysSeen(body[j..], n)
      {
        assert MatchSeen(body[j..]) != Some(n);
      }
    }
  }
}
