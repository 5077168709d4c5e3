/** The text under which equal descriptions are counted together (`normalize` in memory/schema.py). */
module Normalisation {
  import opened Text
  import opened Schema

  /** Every run of white space becomes one blank. */
  function Collapse(s: string): string
    decreases |s|
  {
    if s == "" then ""
    else if IsSpace(s[0]) then " " + Collapse(TrimLeft(s))
    else [s[0]] + Collapse(s[1..])
  }

  /** `normalize`: the text under which equal patterns are counted together. */
  function Normalise(lower: Lower, description: string): string {
    Collapse(lower(Trim(description)))
  }

  // ---- which texts collapse to the same ----

  /** The length of the word that the text begins with. */
  function WordEnd(s: string): (n: nat)
    ensures n <= |s| && (n < |s| ==> IsSpace(s[n]))
    ensures forall i :: 0 <= i < n ==> !IsSpace(s[i])
  {
    if s == "" || IsSpace(s[0]) then 0 else 1 + WordEnd(s[1..])
  }

  /** The words of a text: its longest parts without white space, in order. */
  function Words(s: string): seq<string>
    decreases |s|
  {
    if s == "" then []
    else if IsSpace(s[0]) then Words(s[1..])
    else [s[..WordEnd(s)]] + Words(s[WordEnd(s)..])
  }

  predicate BeginsBlank(s: string) {
    s != "" && IsSpace(s[0])
  }

  predicate EndsBlank(s: string) {
    s != "" && IsSpace(s[|s| - 1])
  }

  /** Words with one blank between them, and one at the end when asked for. */
  function Spaced(words: seq<string>, end: bool): string {
    if words == [] then ""
    else if |words| == 1 then words[0] + (if end then " " else "")
    else words[0] + (" " + Spaced(words[1..], end))
  }

  lemma {:induction false} WordsAfterBlanks(s: string)
    ensures Words(TrimLeft(s)) == Words(s)
    decreases |s|
  {
    hide IsSpace;
    if BeginsBlank(s) {
      WordsAfterBlanks(s[1..]);
    }
  }

  lemma {:induction false} CollapseWord(s: string)
    ensures Collapse(s) == s[..WordEnd(s)] + Collapse(s[WordEnd(s)..])
    decreases |s|
  {
    hide IsSpace, Text.TrimLeft;
    if s != "" && !IsSpace(s[0]) {
      CollapseWord(s[1..]);
      var n := WordEnd(s[1..]);
      assert s[1..][n..] == s[1 + n..];
      assert s[..1 + n] == [s[0]] + s[1..][..n];
    } else {
      assert s[0..] == s;
    }
  }

  lemma {:induction false} WordAtTheEnd(s: string)
    requires s != "" && Words(s) == []
    ensures EndsBlank(s)
    decreases |s|
  {
    hide IsSpace;
    assert IsSpace(s[0]);
    if |s| > 1 {
      WordAtTheEnd(s[1..]);
    }
  }

  lemma BlanksAreTrimmed(s: string)
    ensures !BeginsBlank(TrimLeft(s))
  {
  }

  lemma NoWords()
    ensures Words("") == [] && Spaced([], true) == "" && Spaced([], false) == ""
  {
  }

  lemma SameEnd(s: string, t: string)
    requires s != "" && t != "" && t[|t| - 1] == s[|s| - 1]
    ensures EndsBlank(s) == EndsBlank(t)
  {
  }

  lemma WordDoesNotEndBlank(s: string, n: nat)
    requires n == WordEnd(s) && n > 0 && n == |s|
    ensures !EndsBlank(s)
  {
  }

  lemma SpacedOne(word: string)
    ensures Spaced([word], false) == word && Spaced([word], true) == word + " "
  {
  }

  lemma SpacedMore(word: string, words: seq<string>, end: bool)
    requires words == [] ==> end
    ensures Spaced([word] + words, end) == word + (" " + Spaced(words, end))
  {
    assert ([word] + words)[1..] == words;
    assert " " + "" == " ";
  }

  /** The text that has these words and these ends. */
  predicate HasForm(s: string, collapsed: string) {
    collapsed == (if BeginsBlank(s) then " " else "") + Spaced(Words(s), EndsBlank(s))
  }

  lemma FormOfNothing()
    ensures HasForm("", "")
  {
  }

  lemma FormAfterBlanks(s: string, collapsed: string)
    requires BeginsBlank(s) && HasForm(TrimLeft(s), collapsed)
    ensures HasForm(s, " " + collapsed)
  {
    var t := TrimLeft(s);
    BlanksAreTrimmed(s);
    WordsAfterBlanks(s);
    assert t != "" ==> t[|t| - 1] == s[|s| - 1];
    hide *;
    if t == "" {
      NoWords();
    } else {
      SameEnd(s, t);
    }
    assert "" + Spaced(Words(t), EndsBlank(t)) == Spaced(Words(t), EndsBlank(t));
  }

  lemma FormOfWord(s: string, n: nat)
    requires s != "" && !BeginsBlank(s) && n == WordEnd(s) == |s|
    ensures HasForm(s, s)
  {
    WordDoesNotEndBlank(s, n);
    assert s[..n] == s && s[n..] == "";
    SpacedOne(s);
    assert Words("") == [];
    assert Words(s) == [s];
    hide *;
    assert "" + s == s;
  }

  lemma FormAfterWord(s: string, n: nat, collapsed: string)
    requires s != "" && !BeginsBlank(s) && n == WordEnd(s) < |s| && HasForm(s[n..], collapsed)
    ensures HasForm(s, s[..n] + collapsed)
  {
    var rest := s[n..];
    assert BeginsBlank(rest) && rest[|rest| - 1] == s[|s| - 1] && rest != "";
    if Words(rest) == [] {
      WordAtTheEnd(rest);
    }
    SameEnd(s, rest);
    SpacedMore(s[..n], Words(rest), EndsBlank(rest));
    hide Spaced, IsSpace, WordEnd, BeginsBlank, EndsBlank;
  }

  /** What a text collapses to, from its words and its two ends. */
  lemma {:induction false} CollapseForm(s: string)
    ensures HasForm(s, Collapse(s))
    decreases |s|
  {
    hide IsSpace, WordEnd, HasForm;
    if s == "" {
      assert HasForm("", "") by { FormOfNothing(); }
    } else if BeginsBlank(s) {
      CollapseForm(TrimLeft(s));
      FormAfterBlanks(s, Collapse(TrimLeft(s)));
    } else {
      var n := WordEnd(s);
      FirstWordEnds(s);
      CollapseWord(s);
      if n == |s| {
        assert s[..n] == s && s[n..] == "" && Collapse("") == "";
        assert s + "" == s;
        FormOfWord(s, n);
      } else {
        CollapseForm(s[n..]);
        FormAfterWord(s, n, Collapse(s[n..]));
      }
    }
  }

  /** Collapsing changes neither the words nor whether the text begins and ends with white space. */
  lemma {:induction false} CollapseKeeps(s: string)
    ensures Words(Collapse(s)) == Words(s)
    ensures BeginsBlank(Collapse(s)) == BeginsBlank(s) && EndsBlank(Collapse(s)) == EndsBlank(s)
    ensures Collapse(s) == "" <==> s == ""
    decreases |s|
  {
    hide Text.TrimLeft, WordEnd;
    if BeginsBlank(s) {
      var t := TrimLeft(s);
      WordsAfterBlanks(s);
      CollapseKeeps(t);
      assert (" " + Collapse(t))[1..] == Collapse(t);
      assert t != "" ==> t[|t| - 1] == s[|s| - 1];
      if t == "" {
        assert IsSpace(s[|s| - 1]);
      }
    } else if s != "" {
      var n := WordEnd(s);
      var rest := s[n..];
      FirstWordEnds(s);
      CollapseWord(s);
      CollapseKeeps(rest);
      var after := Collapse(rest);
      WordThenBlank(s[..n], after);
      assert rest != "" ==> rest[|rest| - 1] == s[|s| - 1];
      assert rest == "" ==> Collapse(s) == s;
    }
  }

  lemma FirstWordEnds(s: string)
    requires s != "" && !BeginsBlank(s)
    ensures WordEnd(s) > 0
  {
  }

  lemma {:induction false} WordEndOf(word: string, after: string)
    requires forall i :: 0 <= i < |word| ==> !IsSpace(word[i])
    requires after == "" || BeginsBlank(after)
    ensures WordEnd(word + after) == |word|
  {
    hide IsSpace;
    if word == "" {
      assert word + after == after;
    } else {
      assert (word + after)[1..] == word[1..] + after;
      WordEndOf(word[1..], after);
    }
  }

  lemma WordThenBlank(word: string, after: string)
    requires word != "" && forall i :: 0 <= i < |word| ==> !IsSpace(word[i])
    requires after == "" || BeginsBlank(after)
    ensures Words(word + after) == [word] + Words(after)
  {
    hide IsSpace;
    WordEndOf(word, after);
    assert (word + after)[..|word|] == word && (word + after)[|word|..] == after;
    assert (word + after)[0] == word[0];
  }

  /**
   * Two descriptions are of one kind if and only if, trimmed and in lower case, they have the same words in
   * the same order. Lower-casing that turns an outer character into white space leaves it to count as a blank.
   */
  lemma SameKindIff(lower: Lower, a: string, b: string)
    ensures var x, y := lower(Trim(a)), lower(Trim(b));
            && (Normalise(lower, a) == Normalise(lower, b) <==>
                  Words(x) == Words(y) && BeginsBlank(x) == BeginsBlank(y) && EndsBlank(x) == EndsBlank(y))
            && (Trimmed(x) && Trimmed(y) ==> (Normalise(lower, a) == Normalise(lower, b) <==> Words(x) == Words(y)))
  {
    hide Collapse, Words, IsSpace, Text.Trim;
    var x, y := lower(Trim(a)), lower(Trim(b));
    CollapseForm(x);
    CollapseForm(y);
    CollapseKeeps(x);
    CollapseKeeps(y);
  }
}
