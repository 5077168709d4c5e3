/** Cutting texts and sets of files down to a token budget (memory/compressor.py, memory/context_budget.py). */
module Compressor {
  import opened Sorting

  // ---------------------------------------------------------------------------------------------
  // The estimate
  // ---------------------------------------------------------------------------------------------

  function NonLatin(text: string): (n: nat)
    ensures n <= |text|
  {
    if text == "" then 0 else (if text[0] as int > 127 then 1 else 0) + NonLatin(text[1..])
  }

  /** Four Latin or two other characters a token; at least one, but none for no text. */
  function Tokens(text: string): nat {
    if text == "" then 0
    else
      var n := (|text| - NonLatin(text)) / 4 + NonLatin(text) / 2;
      if n < 1 then 1 else n
  }

  lemma ShortTextIsCheap(text: string)
    requires |text| <= 8
    ensures Tokens(text) <= 4
  {
  }

  /** A text of Latin characters before others costs a quarter and a half of a token each, rounded down. */
  lemma TokensOfTwoKinds(latin: string, other: string)
    requires forall i :: 0 <= i < |latin| ==> latin[i] as int <= 127
    requires forall i :: 0 <= i < |other| ==> other[i] as int > 127
    ensures var n := |latin| / 4 + |other| / 2;
            Tokens(latin + other) == if latin + other == "" then 0 else if n < 1 then 1 else n
  {
    NonLatinPlus(latin, other);
    AllLatin(latin);
    AllNonLatin(other);
  }

  // ---------------------------------------------------------------------------------------------
  // One text
  // ---------------------------------------------------------------------------------------------

  /** The two products with a fraction that the code truncates: by 0.7, and by 0.78 for the head's share. */
  datatype Fractions = Fractions(shrink: nat -> nat, share: nat -> nat)

  ghost predicate Shrinks(f: Fractions) {
    forall n: nat :: n > 8 ==> f.shrink(n) < n
  }

  const MARK := "\n\n[... compressed ...]\n\n"

  /** The estimate for the mark. */
  const MARK_TOKENS := 6

  lemma MarkIsLatin()
    ensures |MARK| == 24 && forall i :: 0 <= i < |MARK| ==> MARK[i] as int <= 127
  {
  }

  lemma {:induction false} AllLatin(text: string)
    requires forall i :: 0 <= i < |text| ==> text[i] as int <= 127
    ensures NonLatin(text) == 0
  {
    if text != "" {
      AllLatin(text[1..]);
    }
  }

  lemma LatinTokens(text: string, mark: string)
    requires text == mark && |mark| == 24 && forall i :: 0 <= i < |mark| ==> mark[i] as int <= 127
    ensures Tokens(text) == 6
  {
    hide NonLatin;
    AllLatin(text);
  }

  lemma MarkTokens()
    ensures Tokens(MARK) == MARK_TOKENS
  {
    hide Tokens;
    MarkIsLatin();
    LatinTokens(MARK, MARK);
  }

  function Max(a: int, b: int): int {
    if a >= b then a else b
  }

  function Head(text: string, n: nat): string {
    if n <= |text| then text[..n] else text
  }

  function End(text: string, n: nat): string {
    if n <= |text| then text[|text| - n..] else text
  }

  function Spliced(text: string, head: nat, tail: nat): string {
    Head(text, head) + MARK + End(text, tail)
  }

  /** At most twelve times: less of the head and less of the tail. */
  function Squeezed(f: Fractions, text: string, budget: int, head: nat, tail: nat, guard: nat): string
    requires guard <= 12
    decreases 12 - guard
  {
    if Tokens(Spliced(text, head, tail)) > budget && guard < 12 then
      Squeezed(f, text, budget, Max(16, f.shrink(head)), Max(8, f.shrink(tail)), guard + 1)
    else Spliced(text, head, tail)
  }

  /** The last resort: shorten until it fits or only eight characters are left. */
  function Chopped(f: Fractions, cut: string, budget: int): string
    requires Shrinks(f)
    decreases |cut|
  {
    if Tokens(cut) > budget && |cut| > 8 then Chopped(f, cut[..f.shrink(|cut|)], budget) else cut
  }

  function HeadTokens(f: Fractions, budget: int): int {
    Max(4, f.share(Max(8, budget - MARK_TOKENS)))
  }

  function TailTokens(f: Fractions, budget: int): int {
    Max(4, Max(8, budget - MARK_TOKENS) - HeadTokens(f, budget))
  }

  /** The first guess at the characters to keep at both ends. */
  function FirstCut(f: Fractions, text: string, budget: int): (r: (nat, nat))
    ensures r.0 > 0 && r.1 > 0
  {
    var head, tail := HeadTokens(f, budget) * 4, TailTokens(f, budget) * 4;
    if |text| <= head + tail then (Max(16, |text| / 2), Max(16, |text| / 5)) else (head, tail)
  }

  /** `truncate_to_budget`. */
  ghost function Truncated(f: Fractions, text: string, budget: int): string
    requires Shrinks(f)
  {
    if budget <= 0 then ""
    else if Tokens(text) <= budget then text
    else
      var (head, tail) := FirstCut(f, text, budget);
      var cut := Squeezed(f, text, budget, head, tail, 0);
      if Tokens(cut) > budget then Chopped(f, Head(text, Max(8, budget * 3)), budget) else cut
  }

  method TruncateToBudget(f: Fractions, text: string, budget: int) returns (cut: string)
    requires Shrinks(f)
    ensures cut == Truncated(f, text, budget)
  {
    hide Tokens, Spliced, Chopped, Squeezed, Head;
    assert budget <= 0 ==> Truncated(f, text, budget) == "";
    if budget <= 0 {
      return "";
    }
    if Tokens(text) <= budget {
      return text;
    }
    var remain := Max(8, budget - MARK_TOKENS);
    var headTok := Max(4, f.share(remain));
    var tailTok := Max(4, remain - headTok);
    var head: nat, tail: nat := headTok * 4, tailTok * 4;
    if |text| <= head + tail {
      head, tail := Max(16, |text| / 2), Max(16, |text| / 5);
    }
    assert (head, tail) == FirstCut(f, text, budget);
    ghost var first := Squeezed(f, text, budget, head, tail, 0);
    hide Tokens, Spliced, Chopped, Head, FirstCut, HeadTokens, TailTokens;
    cut := Spliced(text, head, tail);
    var guard: nat := 0;
    while Tokens(cut) > budget && guard < 12
      invariant guard <= 12 && cut == Spliced(text, head, tail)
      invariant Squeezed(f, text, budget, head, tail, guard) == first
      decreases 12 - guard
    {
      SqueezeStep(f, text, budget, head, tail, guard);
      head := Max(16, f.shrink(head));
      tail := Max(8, f.shrink(tail));
      cut := Spliced(text, head, tail);
      guard := guard + 1;
    }
    SqueezeStep(f, text, budget, head, tail, guard);
    if Tokens(cut) > budget {
      cut := Head(text, Max(8, budget * 3));
      ghost var start := cut;
      while Tokens(cut) > budget && |cut| > 8
        invariant Chopped(f, cut, budget) == Chopped(f, start, budget)
        decreases |cut|
      {
        ChopStep(f, cut, budget);
        cut := cut[..f.shrink(|cut|)];
      }
      ChopStep(f, cut, budget);
    }
  }

  lemma SqueezeStep(f: Fractions, text: string, budget: int, head: nat, tail: nat, guard: nat)
    requires guard <= 12
    ensures Squeezed(f, text, budget, head, tail, guard) ==
            if Tokens(Spliced(text, head, tail)) > budget && guard < 12 then
              Squeezed(f, text, budget, Max(16, f.shrink(head)), Max(8, f.shrink(tail)), guard + 1)
            else Spliced(text, head, tail)
  {
    hide Tokens, Spliced;
  }

  lemma ChopStep(f: Fractions, cut: string, budget: int)
    requires Shrinks(f)
    ensures |cut| > 8 ==> f.shrink(|cut|) < |cut|
    ensures Chopped(f, cut, budget) ==
            if Tokens(cut) > budget && |cut| > 8 then Chopped(f, cut[..f.shrink(|cut|)], budget) else cut
  {
  }

  lemma {:induction false} ChoppedFits(f: Fractions, cut: string, budget: int)
    requires Shrinks(f)
    ensures Tokens(Chopped(f, cut, budget)) <= Max(budget, 4) && Chopped(f, cut, budget) <= cut
    decreases |cut|
  {
    hide Tokens;
    if Tokens(cut) > budget && |cut| > 8 {
      ChoppedFits(f, cut[..f.shrink(|cut|)], budget);
    } else if |cut| <= 8 {
      ShortTextIsCheap(cut);
    }
  }

  /** Whatever the text, the budget or four tokens are not exceeded; a text that fits is left alone. */
  lemma TruncatedFits(f: Fractions, text: string, budget: int)
    requires Shrinks(f) && budget > 0
    ensures Tokens(Truncated(f, text, budget)) <= Max(budget, 4)
    ensures Tokens(text) <= budget ==> Truncated(f, text, budget) == text
  {
    hide Tokens, Chopped, Squeezed, Head, FirstCut;
    ChoppedFits(f, Head(text, Max(8, budget * 3)), budget);
  }

  predicate IsEnd(end: string, text: string) {
    |end| <= |text| && end == text[|text| - |end|..]
  }

  /** A beginning of the text, the mark, and an end of the text. */
  predicate AroundMark(text: string, cut: string, head: string, end: string) {
    head <= text && IsEnd(end, text) && cut == head + MARK + end
  }

  /** The text is cut to its beginning, or to its two ends around the mark, and never made up. */
  ghost predicate CutFrom(text: string, cut: string) {
    cut <= text || exists head, end :: AroundMark(text, cut, head, end)
  }

  lemma SplicedIsCutFrom(text: string, head: nat, tail: nat)
    ensures CutFrom(text, Spliced(text, head, tail))
  {
    assert AroundMark(text, Spliced(text, head, tail), Head(text, head), End(text, tail));
  }

  lemma {:induction false} SqueezedIsSpliced(f: Fractions, text: string, budget: int, head: nat, tail: nat, guard: nat)
    requires guard <= 12
    ensures CutFrom(text, Squeezed(f, text, budget, head, tail, guard))
    decreases 12 - guard
  {
    hide Spliced, Tokens, CutFrom;
    SplicedIsCutFrom(text, head, tail);
    if Tokens(Spliced(text, head, tail)) > budget && guard < 12 {
      SqueezedIsSpliced(f, text, budget, Max(16, f.shrink(head)), Max(8, f.shrink(tail)), guard + 1);
    }
  }

  lemma TruncatedIsCutFrom(f: Fractions, text: string, budget: int)
    requires Shrinks(f)
    ensures CutFrom(text, Truncated(f, text, budget))
  {
    var (head, tail) := FirstCut(f, text, budget);
    hide Tokens, Chopped, Squeezed, Spliced, FirstCut;
    SqueezedIsSpliced(f, text, budget, head, tail, 0);
    var start := Head(text, Max(8, budget * 3));
    ChoppedFits(f, start, budget);
    assert start <= text;
  }

  // ---- which cut is chosen ----

  /** The two ends around the mark, `n` times with less of both. */
  function Splices(f: Fractions, text: string, head: nat, tail: nat, n: nat): (r: seq<string>)
    ensures |r| == n + 1
    decreases n
  {
    [Spliced(text, head, tail)] +
    if n == 0 then [] else Splices(f, text, Max(16, f.shrink(head)), Max(8, f.shrink(tail)), n - 1)
  }

  /** A beginning, and with more and more of it taken away, down to eight characters or fewer. */
  function Chops(f: Fractions, cut: string): (r: seq<string>)
    requires Shrinks(f)
    ensures r != []
    decreases |cut|
  {
    [cut] + if |cut| > 8 then Chops(f, cut[..f.shrink(|cut|)]) else []
  }

  /** Thirteen cuts around the mark, then the beginnings. */
  ghost function Candidates(f: Fractions, text: string, budget: nat): (r: seq<string>)
    requires Shrinks(f)
    ensures r != []
  {
    var (head, tail) := FirstCut(f, text, budget);
    Splices(f, text, head, tail, 12) + Chops(f, Head(text, Max(8, budget * 3)))
  }

  /** The first that is within the budget, or the last. */
  ghost predicate IsFirstFit(candidates: seq<string>, budget: int, cut: string) {
    exists i :: FitsFirstAt(candidates, budget, cut, i)
  }

  predicate FitsFirstAt(candidates: seq<string>, budget: int, cut: string, i: nat) {
    && i < |candidates| && cut == candidates[i] && (Tokens(cut) <= budget || i == |candidates| - 1)
    && forall j :: 0 <= j < i ==> Tokens(candidates[j]) > budget
  }

  lemma FirstFits(cut: string, rest: seq<string>, budget: int)
    requires Tokens(cut) <= budget || rest == []
    ensures IsFirstFit([cut] + rest, budget, cut)
  {
    hide Tokens;
    assert FitsFirstAt([cut] + rest, budget, cut, 0);
  }

  lemma FitsLater(before: seq<string>, rest: seq<string>, budget: int, cut: string)
    requires IsFirstFit(rest, budget, cut) && forall j :: 0 <= j < |before| ==> Tokens(before[j]) > budget
    ensures IsFirstFit(before + rest, budget, cut)
  {
    hide Tokens;
    var i :| FitsFirstAt(rest, budget, cut, i);
    assert FitsFirstAt(before + rest, budget, cut, |before| + i);
  }

  lemma FitsAlready(before: seq<string>, rest: seq<string>, budget: int, cut: string)
    requires IsFirstFit(before, budget, cut) && Tokens(cut) <= budget
    ensures IsFirstFit(before + rest, budget, cut)
  {
    hide Tokens;
    var i :| FitsFirstAt(before, budget, cut, i);
    assert FitsFirstAt(before + rest, budget, cut, i);
  }

  lemma NoneFits(before: seq<string>, budget: int, cut: string)
    requires IsFirstFit(before, budget, cut) && Tokens(cut) > budget
    ensures forall j :: 0 <= j < |before| ==> Tokens(before[j]) > budget
  {
    hide Tokens;
    var i :| FitsFirstAt(before, budget, cut, i);
  }

  lemma {:induction false} SqueezedFitsFirst(f: Fractions, text: string, budget: int, head: nat, tail: nat, guard: nat)
    requires guard <= 12
    ensures IsFirstFit(Splices(f, text, head, tail, 12 - guard), budget,
                       Squeezed(f, text, budget, head, tail, guard))
    decreases 12 - guard
  {
    hide Tokens, Spliced, IsFirstFit;
    var first := Spliced(text, head, tail);
    if Tokens(first) > budget && guard < 12 {
      var h, t := Max(16, f.shrink(head)), Max(8, f.shrink(tail));
      SqueezedFitsFirst(f, text, budget, h, t, guard + 1);
      FitsLater([first], Splices(f, text, h, t, 12 - guard - 1), budget, Squeezed(f, text, budget, h, t, guard + 1));
    } else if guard < 12 {
      FirstFits(first, Splices(f, text, Max(16, f.shrink(head)), Max(8, f.shrink(tail)), 12 - guard - 1), budget);
    } else {
      FirstFits(first, [], budget);
    }
  }

  lemma {:induction false} ChoppedFitsFirst(f: Fractions, cut: string, budget: int)
    requires Shrinks(f)
    ensures IsFirstFit(Chops(f, cut), budget, Chopped(f, cut, budget))
    decreases |cut|
  {
    hide Tokens, IsFirstFit;
    if Tokens(cut) > budget && |cut| > 8 {
      var less := cut[..f.shrink(|cut|)];
      ChoppedFitsFirst(f, less, budget);
      FitsLater([cut], Chops(f, less), budget, Chopped(f, less, budget));
    } else if |cut| > 8 {
      FirstFits(cut, Chops(f, cut[..f.shrink(|cut|)]), budget);
    } else {
      FirstFits(cut, [], budget);
    }
  }

  /** A text over the budget becomes the first of its candidates that fits, and the last when none does. */
  lemma TruncatedIsFirstFit(f: Fractions, text: string, budget: nat)
    requires Shrinks(f) && budget > 0 && Tokens(text) > budget
    ensures IsFirstFit(Candidates(f, text, budget), budget, Truncated(f, text, budget))
  {
    var (head, tail) := FirstCut(f, text, budget);
    var start := Head(text, Max(8, budget * 3));
    var cut := Squeezed(f, text, budget, head, tail, 0);
    hide Tokens, Chopped, Squeezed, Splices, Chops, FirstCut, Head, IsFirstFit, Max;
    assert Truncated(f, text, budget) == if Tokens(cut) > budget then Chopped(f, start, budget) else cut;
    assert Candidates(f, text, budget) == Splices(f, text, head, tail, 12) + Chops(f, start);
    hide Truncated, Candidates;
    SqueezedFitsFirst(f, text, budget, head, tail, 0);
    ChoppedFitsFirst(f, start, budget);
    FirstOfBoth(Splices(f, text, head, tail, 12), Chops(f, start), budget, cut, Chopped(f, start, budget));
  }

  lemma FirstOfBoth(before: seq<string>, rest: seq<string>, budget: int, cut: string, chopped: string)
    requires IsFirstFit(before, budget, cut) && IsFirstFit(rest, budget, chopped)
    ensures IsFirstFit(before + rest, budget, if Tokens(cut) > budget then chopped else cut)
  {
    hide Tokens, IsFirstFit;
    if Tokens(cut) <= budget {
      FitsAlready(before, rest, budget, cut);
    } else {
      NoneFits(before, budget, cut);
      FitsLater(before, rest, budget, chopped);
    }
  }

  /** The first cut of a long text spends what the mark leaves of the budget, four characters a token. */
  lemma FirstCutSpendsTheRest(f: Fractions, text: string, budget: nat)
    requires var rest := Max(8, budget - 6); 4 <= f.share(rest) <= rest - 4
    ensures var rest, (head, tail) := Max(8, budget - 6), FirstCut(f, text, budget);
            if |text| > 4 * rest then head == 4 * f.share(rest) && head + tail == 4 * rest
            else head == Max(16, |text| / 2) && tail == Max(16, |text| / 5)
  {
  }

  ghost predicate AlwaysFits(f: Fractions, budget: int)
    requires Shrinks(f)
  {
    forall text :: Tokens(Truncated(f, text, budget)) <= budget
  }

  /** Budgets from four tokens up are kept for all texts, and no smaller ones are. */
  lemma SmallBudgetsOverflow(f: Fractions, budget: int)
    requires Shrinks(f) && budget > 0
    ensures AlwaysFits(f, budget) <==> budget >= 4
  {
    if budget >= 4 {
      forall text
        ensures Tokens(Truncated(f, text, budget)) <= budget
      {
        TruncatedFits(f, text, budget);
      }
    } else {
      var text := seq(8, i => 1046 as char);
      EightCyrillic(text);
      TinyBudget(f, text, budget);
    }
  }

  lemma EightCyrillic(text: string)
    requires |text| == 8 && forall i :: 0 <= i < 8 ==> text[i] as int > 127
    ensures Tokens(text) == 4
  {
    AllNonLatin(text);
  }

  lemma {:induction false} AllNonLatin(text: string)
    requires forall i :: 0 <= i < |text| ==> text[i] as int > 127
    ensures NonLatin(text) == |text|
  {
    if text != "" {
      AllNonLatin(text[1..]);
    }
  }

  lemma {:induction false} NonLatinPlus(a: string, b: string)
    ensures NonLatin(a + b) == NonLatin(a) + NonLatin(b)
  {
    if a == "" {
      assert a + b == b;
    } else {
      assert (a + b)[0] == a[0] && (a + b)[1..] == a[1..] + b;
      NonLatinPlus(a[1..], b);
    }
  }

  lemma SplicedIsDear(text: string, head: nat, tail: nat)
    ensures Tokens(Spliced(text, head, tail)) > 3
  {
    hide Head, End, Tokens;
    MarkIsLatin();
    DearAround(Head(text, head), MARK, End(text, tail));
  }

  lemma DearAround(a: string, mark: string, z: string)
    requires |mark| == 24 && forall i :: 0 <= i < |mark| ==> mark[i] as int <= 127
    ensures Tokens(a + mark + z) > 3
  {
    NonLatinPlus(a + mark, z);
    NonLatinPlus(a, mark);
    AllLatin(mark);
    hide NonLatin;
    assert |a + mark + z| == |a| + 24 + |z|;
  }

  lemma {:induction false} SqueezedIsDear(f: Fractions, text: string, budget: int, head: nat, tail: nat, guard: nat)
    requires guard <= 12
    ensures Tokens(Squeezed(f, text, budget, head, tail, guard)) > 3
    decreases 12 - guard
  {
    hide Tokens, Spliced;
    SplicedIsDear(text, head, tail);
    if Tokens(Spliced(text, head, tail)) > budget && guard < 12 {
      SqueezedIsDear(f, text, budget, Max(16, f.shrink(head)), Max(8, f.shrink(tail)), guard + 1);
    }
  }

  lemma TinyBudget(f: Fractions, text: string, budget: int)
    requires Shrinks(f) && 1 <= budget <= 3 && |text| == 8 && Tokens(text) == 4
    ensures Truncated(f, text, budget) == text
  {
    hide Tokens, Spliced, Squeezed;
    var (head, tail) := FirstCut(f, text, budget);
    SqueezedIsDear(f, text, budget, head, tail, 0);
    assert Head(text, Max(8, budget * 3)) == text;
  }

  /** `compress_text`: distilled, and cut when that is not enough. */
  method CompressText(f: Fractions, distill: string -> string, text: string, budget: int)
    returns (out: string, action: Action, within: bool)
    requires Shrinks(f)
    ensures Tokens(out) <= Max(budget, 4) && (within <==> Tokens(out) <= budget)
    ensures action == Shortened <==> Tokens(distill(text)) > budget
    ensures action == Distilled ==> out == distill(text) != text
    ensures action == Kept ==> out == text == distill(text)
    ensures CutFrom(distill(text), out) && (budget >= 4 ==> within)
  {
    hide Tokens, Spliced;
    out := distill(text);
    action := if out != text then Distilled else Kept;
    if Tokens(out) > budget {
      TruncatedIsCutFrom(f, out, budget);
      NothingIsFree();
      if budget > 0 {
        TruncatedFits(f, out, budget);
      }
      hide Truncated, CutFrom;
      out := TruncateToBudget(f, out, budget);
      action := Shortened;
    }
    within := Tokens(out) <= budget;
  }

  lemma NothingIsFree()
    ensures Tokens("") == 0
  {
  }

  // ---------------------------------------------------------------------------------------------
  // A set of files
  // ---------------------------------------------------------------------------------------------

  datatype Action = Kept | Distilled | Dropped | Shortened

  /** One file of the set; `tokens` is the stored estimate of `text`. */
  datatype Item = Item(priority: int, text: string, action: Action, tokens: nat)

  const WORKING_SET := 80

  predicate Consistent(items: seq<Item>) {
    forall i :: 0 <= i < |items| ==>
      items[i].tokens == Tokens(items[i].text) && (items[i].action.Dropped? ==> items[i].text == "")
  }

  function Weight(it: Item): nat {
    if it.action.Dropped? then 0 else it.tokens
  }

  /** `total_out`. */
  function Total(items: seq<Item>): nat {
    if items == [] then 0 else Weight(items[0]) + Total(items[1..])
  }

  function Drop(it: Item): Item {
    Item(it.priority, "", Dropped, 0)
  }

  lemma {:induction false} TotalUpdate(items: seq<Item>, i: nat, it: Item)
    requires i < |items|
    ensures Total(items[i := it]) == Total(items) - Weight(items[i]) + Weight(it)
    ensures Weight(items[i]) <= Total(items)
  {
    if i > 0 {
      TotalUpdate(items[1..], i - 1, it);
      assert items[i := it][1..] == items[1..][i - 1 := it];
    } else {
      assert items[i := it][1..] == items[1..];
    }
  }

  /** Lowest priority first, and the largest first among equals. */
  predicate Before(items: seq<Item>, i: nat, j: nat) {
    if i < |items| && j < |items| then
      items[i].priority < items[j].priority ||
      (items[i].priority == items[j].priority && items[i].tokens >= items[j].tokens)
    else i >= |items|
  }

  predicate NotAbove(items: seq<Item>, i: nat, j: nat) {
    if i < |items| && j < |items| then items[i].priority <= items[j].priority else i >= |items|
  }

  function CheapestFirst(items: seq<Item>): (nat, nat) -> bool {
    (i: nat, j: nat) => Before(items, i, j)
  }

  function LowestFirst(items: seq<Item>): (nat, nat) -> bool {
    (i: nat, j: nat) => NotAbove(items, i, j)
  }

  function Indices(n: nat): (r: seq<nat>)
    ensures |r| == n && forall i :: 0 <= i < n ==> r[i] == i
  {
    seq(n, i => i)
  }

  function DropOrder(items: seq<Item>): seq<nat> {
    SortBy(CheapestFirst(items), Indices(|items|))
  }

  function CutOrder(items: seq<Item>): seq<nat> {
    SortBy(LowestFirst(items), Remaining(items, Indices(|items|)))
  }

  function Remaining(items: seq<Item>, order: seq<nat>): (r: seq<nat>)
    ensures forall i :: i in r <==> i in order && i < |items| && !items[i].action.Dropped?
  {
    if order == [] then []
    else
      (if order[0] < |items| && !items[order[0]].action.Dropped? then [order[0]] else []) + Remaining(items, order[1..])
  }

  predicate InRange(items: seq<Item>, order: seq<nat>) {
    forall k :: 0 <= k < |order| ==> order[k] < |items|
  }

  predicate Distinct(order: seq<nat>) {
    forall k, l :: 0 <= k < l < |order| ==> order[k] != order[l]
  }

  /** The second pass: drop below the working set until the rest fits. */
  function DropPass(items: seq<Item>, order: seq<nat>, budget: int): (r: seq<Item>)
    requires InRange(items, order)
    ensures |r| == |items|
    decreases |order|
  {
    if order == [] || Total(items) <= budget then items
    else
      var it := items[order[0]];
      var items' := if it.priority >= WORKING_SET || it.action.Dropped? then items else items[order[0] := Drop(it)];
      DropPass(items', order[1..], budget)
  }

  /** The third pass: cut what is left until the whole fits. */
  ghost function CutPass(f: Fractions, items: seq<Item>, order: seq<nat>, budget: int): (r: seq<Item>)
    requires Shrinks(f) && InRange(items, order) && Consistent(items)
    ensures |r| == |items|
    decreases |order|
  {
    if order == [] || Total(items) <= budget then items
    else CutPass(f, items[order[0] := CutOne(f, items, order[0], budget)], order[1..], budget)
  }

  function Room(items: seq<Item>, i: nat, budget: int): nat
    requires i < |items|
  {
    Max(0, budget - (Total(items) - items[i].tokens))
  }

  ghost function CutOne(f: Fractions, items: seq<Item>, i: nat, budget: int): (r: Item)
    requires Shrinks(f) && i < |items|
    ensures r.tokens == Tokens(r.text) && (r.action.Dropped? ==> r.text == "")
  {
    var it, room := items[i], Room(items, i, budget);
    if room <= 0 && it.priority < WORKING_SET then Drop(it)
    else
      var cut := Truncated(f, it.text, Max(8, room));
      Item(it.priority, cut, Shortened, Tokens(cut))
  }

  /** All passes over the distilled items. */
  ghost function Compressed(f: Fractions, items: seq<Item>, budget: int): (r: seq<Item>)
    requires Shrinks(f) && Consistent(items)
    ensures |r| == |items|
  {
    DropOrderCovers(items);
    var kept := DropPass(items, DropOrder(items), budget);
    DropKeepsConsistent(items, DropOrder(items), budget);
    CutOrderCovers(kept);
    CutPass(f, kept, CutOrder(kept), budget)
  }

  lemma DropOrderCovers(items: seq<Item>)
    ensures InRange(items, DropOrder(items)) && Distinct(DropOrder(items))
    ensures forall i: nat :: i < |items| ==> i in DropOrder(items)
  {
    var all := Indices(|items|);
    SortByMembers(CheapestFirst(items), all);
    DistinctAgain(all, DropOrder(items));
    hide SortBy, CheapestFirst, Distinct;
    forall k | 0 <= k < |DropOrder(items)|
      ensures DropOrder(items)[k] < |items|
    {
      assert DropOrder(items)[k] in all;
    }
    forall i: nat | i < |items|
      ensures i in DropOrder(items)
    {
      assert all[i] in all;
    }
  }

  lemma CutOrderCovers(items: seq<Item>)
    ensures InRange(items, CutOrder(items))
    ensures forall i: nat :: i in CutOrder(items) <==> i < |items| && !items[i].action.Dropped?
  {
    var all := Indices(|items|);
    SortByMembers(LowestFirst(items), Remaining(items, all));
    hide SortBy, LowestFirst, Remaining;
    forall k | 0 <= k < |CutOrder(items)|
      ensures CutOrder(items)[k] < |items|
    {
      assert CutOrder(items)[k] in Remaining(items, all);
    }
    forall i: nat | i < |items|
      ensures i in all
    {
      assert all[i] in all;
    }
  }

  lemma DistinctAgain(a: seq<nat>, b: seq<nat>)
    requires multiset(a) == multiset(b) && Distinct(a)
    ensures Distinct(b)
  {
    forall k, l | 0 <= k < l < |b|
      ensures b[k] != b[l]
    {
      if b[k] == b[l] {
        var x := b[k];
        assert b == b[..k] + [b[k]] + b[k + 1..l] + [b[l]] + b[l + 1..];
        assert multiset(b)[x] >= 2;
        OnceOnly(a, x);
      }
    }
  }

  lemma {:induction false} OnceOnly(a: seq<nat>, x: nat)
    requires Distinct(a)
    ensures multiset(a)[x] <= 1
  {
    if a != [] {
      assert a == [a[0]] + a[1..];
      OnceOnly(a[1..], x);
      if a[0] == x {
        assert x !in a[1..];
      }
    }
  }

  lemma {:induction false} DropKeepsConsistent(items: seq<Item>, order: seq<nat>, budget: int)
    requires InRange(items, order) && Consistent(items)
    ensures Consistent(DropPass(items, order, budget))
    decreases |order|
  {
    NothingIsFree();
    hide Tokens, Total;
    if order != [] && Total(items) > budget {
      var it := items[order[0]];
      var items' := if it.priority >= WORKING_SET || it.action.Dropped? then items else items[order[0] := Drop(it)];
      DropKeepsConsistent(items', order[1..], budget);
    }
  }

  // ---------------------------------------------------------------------------------------------
  // What is dropped
  // ---------------------------------------------------------------------------------------------

  function DropAll(items: seq<Item>, order: seq<nat>): (r: seq<Item>)
    requires InRange(items, order)
    ensures |r| == |items|
    decreases |order|
  {
    if order == [] then items else DropAll(items[order[0] := Drop(items[order[0]])], order[1..])
  }

  predicate Ascending(items: seq<Item>, order: seq<nat>)
    requires InRange(items, order)
  {
    forall k, l :: 0 <= k < l < |order| ==> items[order[k]].priority <= items[order[l]].priority
  }

  predicate Alive(items: seq<Item>, order: seq<nat>)
    requires InRange(items, order)
  {
    forall k :: 0 <= k < |order| ==> !items[order[k]].action.Dropped?
  }

  /** The first `d` of the order, all below the working set, are what has to go, and no fewer would do. */
  predicate ShortestPrefix(items: seq<Item>, order: seq<nat>, budget: int, d: nat)
    requires InRange(items, order)
  {
    && d <= |order|
    && (forall k :: 0 <= k < d ==> items[order[k]].priority < WORKING_SET)
    && (forall e :: 0 <= e < d ==> Total(DropAll(items, order[..e])) > budget)
    && (Total(DropAll(items, order[..d])) <= budget || d == |order| || items[order[d]].priority >= WORKING_SET)
  }

  lemma {:induction false} NothingToDrop(items: seq<Item>, order: seq<nat>, budget: int)
    requires InRange(items, order) && forall k :: 0 <= k < |order| ==> items[order[k]].priority >= WORKING_SET
    ensures DropPass(items, order, budget) == items
    decreases |order|
  {
    if order != [] && Total(items) > budget {
      NothingToDrop(items, order[1..], budget);
    }
  }

  lemma {:induction false} DropsShortestPrefix(items: seq<Item>, order: seq<nat>, budget: int) returns (d: nat)
    requires InRange(items, order) && Distinct(order) && Ascending(items, order) && Alive(items, order)
    ensures ShortestPrefix(items, order, budget, d) && DropPass(items, order, budget) == DropAll(items, order[..d])
    decreases |order|
  {
    hide Total;
    d := 0;
    if order != [] && Total(items) > budget {
      var i, rest := order[0], order[1..];
      if items[i].priority >= WORKING_SET {
        NothingToDrop(items, order, budget);
      } else {
        var items' := items[i := Drop(items[i])];
        SameElsewhere(items, order);
        var d' := DropsShortestPrefix(items', rest, budget);
        d := d' + 1;
        OneMoreDropped(items, order, budget, d');
      }
    }
  }

  lemma SameElsewhere(items: seq<Item>, order: seq<nat>)
    requires order != [] && InRange(items, order) && Distinct(order) && Ascending(items, order) && Alive(items, order)
    ensures var items', rest := items[order[0] := Drop(items[order[0]])], order[1..];
            && InRange(items', rest) && Distinct(rest) && Ascending(items', rest) && Alive(items', rest)
            && forall k :: 0 <= k < |rest| ==> items'[rest[k]] == items[rest[k]]
  {
    var rest := order[1..];
    assert forall k :: 0 <= k < |rest| ==> rest[k] == order[k + 1];
  }

  lemma OneMoreDropped(items: seq<Item>, order: seq<nat>, budget: int, d: nat)
    requires order != [] && InRange(items, order) && Distinct(order) && items[order[0]].priority < WORKING_SET
    requires Total(items) > budget
    requires var items' := items[order[0] := Drop(items[order[0]])]; ShortestPrefix(items', order[1..], budget, d)
    ensures ShortestPrefix(items, order, budget, d + 1)
    ensures DropAll(items, order[..d + 1]) == DropAll(items[order[0] := Drop(items[order[0]])], order[1..][..d])
  {
    hide Total;
    var items', rest := items[order[0] := Drop(items[order[0]])], order[1..];
    forall e: nat | e <= |rest|
      ensures DropAll(items, order[..e + 1]) == DropAll(items', rest[..e])
    {
      assert order[..e + 1][0] == order[0] && order[..e + 1][1..] == rest[..e];
    }
    forall e | 0 <= e < d + 1
      ensures Total(DropAll(items, order[..e])) > budget
    {
      if e > 0 {
        assert Total(DropAll(items', rest[..e - 1])) > budget;
        assert DropAll(items, order[..(e - 1) + 1]) == DropAll(items', rest[..e - 1]);
      }
    }
    assert forall k :: 0 <= k < |rest| ==> rest[k] == order[k + 1] && items'[rest[k]] == items[rest[k]];
    assert forall k :: 1 <= k < d + 1 ==> items[order[k]] == items'[rest[k - 1]];
    assert d < |rest| ==> items[order[d + 1]] == items'[rest[d]];
  }

  lemma CheapestFirstIsTotal(items: seq<Item>)
    ensures TotalPreorder(CheapestFirst(items))
  {
  }

  /** Priorities rise along the order, and among equal ones the sizes fall. */
  predicate LargestFirst(items: seq<Item>, order: seq<nat>)
    requires InRange(items, order)
  {
    forall k, l :: 0 <= k < l < |order| ==>
      var a, b := items[order[k]], items[order[l]];
      a.priority < b.priority || (a.priority == b.priority && a.tokens >= b.tokens)
  }

  lemma DropOrderAscends(items: seq<Item>)
    ensures InRange(items, DropOrder(items)) && Ascending(items, DropOrder(items))
    ensures LargestFirst(items, DropOrder(items))
  {
    DropOrderCovers(items);
    CheapestFirstIsTotal(items);
    SortBySorts(CheapestFirst(items), Indices(|items|));
    hide SortBy;
  }

  /** The third pass takes every file that is left, the lowest priority first. */
  lemma CutOrderAscends(items: seq<Item>)
    ensures InRange(items, CutOrder(items)) && Ascending(items, CutOrder(items))
    ensures forall i: nat :: i in CutOrder(items) <==> i < |items| && !items[i].action.Dropped?
  {
    CutOrderCovers(items);
    SortBySorts(LowestFirst(items), Remaining(items, Indices(|items|)));
    hide SortBy, Remaining;
  }

  predicate NoneDropped(items: seq<Item>) {
    forall i :: 0 <= i < |items| ==> !items[i].action.Dropped?
  }

  /**
   * The second pass drops the shortest run of files, lowest priority and largest first, that makes the
   * rest fit, or all files below the working set.
   */
  lemma DropsExactly(items: seq<Item>, budget: int) returns (d: nat)
    requires NoneDropped(items)
    ensures InRange(items, DropOrder(items)) && ShortestPrefix(items, DropOrder(items), budget, d)
    ensures DropPass(items, DropOrder(items), budget) == DropAll(items, DropOrder(items)[..d])
    ensures Distinct(DropOrder(items)) && forall i: nat :: i < |items| ==> i in DropOrder(items)
    ensures LargestFirst(items, DropOrder(items))
  {
    DropOrderCovers(items);
    DropOrderAscends(items);
    hide DropOrder, DropPass, DropAll, ShortestPrefix, Total, LargestFirst, Distinct;
    d := DropsShortestPrefix(items, DropOrder(items), budget);
  }

  // ---------------------------------------------------------------------------------------------
  // What is cut
  // ---------------------------------------------------------------------------------------------

  /** All files of the order cut one after the other. */
  ghost function CutAll(f: Fractions, items: seq<Item>, order: seq<nat>, budget: int): (r: seq<Item>)
    requires Shrinks(f) && InRange(items, order)
    ensures |r| == |items|
    decreases |order|
  {
    if order == [] then items
    else CutAll(f, items[order[0] := CutOne(f, items, order[0], budget)], order[1..], budget)
  }

  /** The first `d` of the order are what has to be cut, and no fewer would do. */
  ghost predicate ShortestCut(f: Fractions, items: seq<Item>, order: seq<nat>, budget: int, d: nat)
    requires Shrinks(f) && InRange(items, order)
  {
    && d <= |order|
    && (forall e :: 0 <= e < d ==> Total(CutAll(f, items, order[..e], budget)) > budget)
    && (Total(CutAll(f, items, order[..d], budget)) <= budget || d == |order|)
  }

  lemma {:induction false} CutsShortestPrefix(f: Fractions, items: seq<Item>, order: seq<nat>, budget: int)
    returns (d: nat)
    requires Shrinks(f) && InRange(items, order) && Consistent(items)
    ensures ShortestCut(f, items, order, budget, d)
    ensures CutPass(f, items, order, budget) == CutAll(f, items, order[..d], budget)
    decreases |order|
  {
    hide Total, CutOne, Consistent;
    d := 0;
    if order != [] && Total(items) > budget {
      var i, rest := order[0], order[1..];
      var items' := items[i := CutOne(f, items, i, budget)];
      CutStaysConsistent(f, items, i, budget);
      var d' := CutsShortestPrefix(f, items', rest, budget);
      d := d' + 1;
      forall e: nat | e <= |rest|
        ensures CutAll(f, items, order[..e + 1], budget) == CutAll(f, items', rest[..e], budget)
      {
        assert order[..e + 1][0] == i && order[..e + 1][1..] == rest[..e];
      }
      forall e | 0 <= e < d
        ensures Total(CutAll(f, items, order[..e], budget)) > budget
      {
        if e > 0 {
          assert Total(CutAll(f, items', rest[..e - 1], budget)) > budget;
          assert CutAll(f, items, order[..(e - 1) + 1], budget) == CutAll(f, items', rest[..e - 1], budget);
        }
      }
      assert CutAll(f, items, order[..d' + 1], budget) == CutAll(f, items', rest[..d'], budget);
    }
  }

  lemma {:induction false} CutAllElsewhere(f: Fractions, items: seq<Item>, order: seq<nat>, budget: int, i: nat)
    requires Shrinks(f) && InRange(items, order) && i < |items| && i !in order
    ensures CutAll(f, items, order, budget)[i] == items[i]
    decreases |order|
  {
    hide CutOne;
    if order != [] {
      CutAllElsewhere(f, items[order[0] := CutOne(f, items, order[0], budget)], order[1..], budget, i);
    }
  }

  /** The file at place `k` of the order is cut to the room that the others leave once those before it are cut. */
  lemma {:induction false} CutAllAt(f: Fractions, items: seq<Item>, order: seq<nat>, budget: int, k: nat)
    requires Shrinks(f) && InRange(items, order) && Distinct(order) && k < |order|
    ensures InRange(items, order[..k])
    ensures var earlier := CutAll(f, items, order[..k], budget);
            && earlier[order[k]] == items[order[k]]
            && CutAll(f, items, order, budget)[order[k]] == CutOne(f, earlier, order[k], budget)
    decreases |order|
  {
    hide CutOne;
    var i, rest := order[0], order[1..];
    var items' := items[i := CutOne(f, items, i, budget)];
    if k == 0 {
      assert order[..0] == [];
      CutAllElsewhere(f, items', rest, budget, i);
    } else {
      assert forall l :: 0 <= l < |rest| ==> rest[l] == order[l + 1];
      CutAllAt(f, items', rest, budget, k - 1);
      assert order[..k][0] == i && order[..k][1..] == rest[..k - 1];
      assert CutAll(f, items, order[..k], budget) == CutAll(f, items', rest[..k - 1], budget);
    }
  }

  lemma CutOrderIsDistinct(items: seq<Item>)
    ensures Distinct(CutOrder(items))
  {
    var all := Indices(|items|);
    RemainingIsDistinct(items, all);
    DistinctAgain(Remaining(items, all), CutOrder(items));
  }

  lemma {:induction false} RemainingIsDistinct(items: seq<Item>, order: seq<nat>)
    requires Distinct(order)
    ensures Distinct(Remaining(items, order))
  {
    if order != [] {
      RemainingIsDistinct(items, order[1..]);
      assert order[0] !in order[1..];
    }
  }

  /** Cut to `room` tokens but to no less than eight; what is below the working set goes when there is no room. */
  ghost predicate CutTo(f: Fractions, it: Item, room: int, cut: Item)
    requires Shrinks(f)
  {
    if room <= 0 && it.priority < 80 then cut == Item(it.priority, "", Dropped, 0)
    else cut == Item(it.priority, Truncated(f, it.text, if room > 8 then room else 8), Shortened, Tokens(cut.text))
  }

  /**
   * The third pass cuts the shortest run of the remaining files, lowest priority first, that makes the whole
   * fit, each to what the others leave of the budget at that moment, and leaves the other files alone.
   */
  lemma CutsExactly(f: Fractions, items: seq<Item>, budget: int) returns (d: nat)
    requires Shrinks(f) && Consistent(items)
    ensures InRange(items, CutOrder(items)) && Ascending(items, CutOrder(items)) && Distinct(CutOrder(items))
    ensures ShortestCut(f, items, CutOrder(items), budget, d)
    ensures var r, order := CutPass(f, items, CutOrder(items), budget), CutOrder(items);
            && (forall i: nat :: i < |items| && i !in order[..d] ==> r[i] == items[i])
            && forall k :: 0 <= k < d ==>
                 var earlier := CutAll(f, items, order[..k], budget);
                 CutTo(f, items[order[k]], budget - (Total(earlier) - items[order[k]].tokens), r[order[k]])
  {
    CutOrderAscends(items);
    CutOrderIsDistinct(items);
    var order := CutOrder(items);
    hide CutOrder, Total, Consistent, CutPass, CutAll, Truncated, Tokens, CutTo;
    d := CutsShortestPrefix(f, items, order, budget);
    var first := order[..d];
    assert InRange(items, first) && Distinct(first);
    var r := CutPass(f, items, order, budget);
    forall i: nat | i < |items| && i !in first
      ensures r[i] == items[i]
    {
      CutAllElsewhere(f, items, first, budget, i);
    }
    forall k | 0 <= k < d
      ensures var earlier := CutAll(f, items, order[..k], budget);
              CutTo(f, items[order[k]], budget - (Total(earlier) - items[order[k]].tokens), r[order[k]])
    {
      CutAllAt(f, items, first, budget, k);
      assert first[..k] == order[..k];
      CutOneCuts(f, CutAll(f, items, order[..k], budget), order[k], budget);
    }
  }

  lemma CutOneCuts(f: Fractions, items: seq<Item>, i: nat, budget: int)
    requires Shrinks(f) && i < |items|
    ensures CutTo(f, items[i], budget - (Total(items) - items[i].tokens), CutOne(f, items, i, budget))
  {
    hide Total, Truncated, Tokens;
  }

  // ---------------------------------------------------------------------------------------------
  // The bound
  // ---------------------------------------------------------------------------------------------

  function Working(items: seq<Item>): nat {
    if items == [] then 0 else (if items[0].priority >= WORKING_SET then 1 else 0) + Working(items[1..])
  }

  predicate SamePriorities(a: seq<Item>, b: seq<Item>) {
    |a| == |b| && forall i :: 0 <= i < |a| ==> a[i].priority == b[i].priority
  }

  lemma {:induction false} WorkingSame(a: seq<Item>, b: seq<Item>)
    requires SamePriorities(a, b)
    ensures Working(a) == Working(b)
  {
    if a != [] {
      WorkingSame(a[1..], b[1..]);
    }
  }

  /** Everything below the working set is gone. */
  predicate OnlyWorking(items: seq<Item>) {
    forall i :: 0 <= i < |items| && items[i].priority < WORKING_SET ==> items[i].action.Dropped?
  }

  /** When the second pass ends over the budget, nothing below the working set is left. */
  lemma {:induction false} DropPassOutcome(items: seq<Item>, order: seq<nat>, budget: int)
    requires InRange(items, order)
    requires forall i: nat :: i < |items| && items[i].priority < WORKING_SET && !items[i].action.Dropped? ==> i in order
    ensures var r := DropPass(items, order, budget);
            SamePriorities(r, items) && (Total(r) <= budget || OnlyWorking(r))
    decreases |order|
  {
    hide Total;
    if order != [] && Total(items) > budget {
      var it, rest := items[order[0]], order[1..];
      var items' := if it.priority >= WORKING_SET || it.action.Dropped? then items else items[order[0] := Drop(it)];
      forall i: nat | i < |items'| && items'[i].priority < WORKING_SET && !items'[i].action.Dropped?
        ensures i in rest
      {
        assert i in order && i != order[0];
        assert order == [order[0]] + rest;
      }
      DropPassOutcome(items', rest, budget);
    }
  }

  /** A cut file takes what room there is, or eight tokens. */
  lemma CutOneFits(f: Fractions, items: seq<Item>, i: nat, budget: int)
    requires Shrinks(f) && i < |items|
    ensures var it := CutOne(f, items, i, budget);
            && it.tokens <= Max(8, Room(items, i, budget)) && it.priority == items[i].priority
            && (items[i].priority >= WORKING_SET ==> !it.action.Dropped?)
  {
    hide Truncated, Tokens, Room;
    TruncatedFits(f, items[i].text, Max(8, Room(items, i, budget)));
  }

  /** After cutting one file the whole fits, or that file has at most eight tokens. */
  lemma CutStep(f: Fractions, items: seq<Item>, i: nat, budget: int)
    requires Shrinks(f) && i < |items| && !items[i].action.Dropped?
    ensures var it := CutOne(f, items, i, budget);
            Total(items[i := it]) <= budget || it.tokens <= 8
  {
    CutOneFits(f, items, i, budget);
    TotalUpdate(items, i, CutOne(f, items, i, budget));
    hide Total, CutOne;
  }

  predicate AllSmall(items: seq<Item>) {
    forall i :: 0 <= i < |items| && !items[i].action.Dropped? ==> items[i].tokens <= 8
  }

  /** The third pass drops nothing, and ends within the budget or with eight tokens a file. */
  lemma {:induction false} CutPassOutcome(f: Fractions, items: seq<Item>, order: seq<nat>, budget: int)
    requires Shrinks(f) && InRange(items, order) && Consistent(items) && Alive(items, order)
    requires Total(items) <= budget || OnlyWorking(items)
    requires forall i: nat :: i < |items| && !items[i].action.Dropped? && items[i].tokens > 8 ==> i in order
    ensures var r := CutPass(f, items, order, budget);
            && SamePriorities(r, items) && (Total(r) <= budget || (AllSmall(r) && OnlyWorking(r)))
            && forall i :: 0 <= i < |items| ==> (r[i].action.Dropped? <==> items[i].action.Dropped?)
    decreases |order|
  {
    hide Total, CutOne, Tokens, Consistent;
    if order != [] && Total(items) > budget {
      var i, rest := order[0], order[1..];
      var it := CutOne(f, items, i, budget);
      var items' := items[i := it];
      CutOneFits(f, items, i, budget);
      CutStep(f, items, i, budget);
      CutStaysConsistent(f, items, i, budget);
      if Total(items') <= budget {
        assert CutPass(f, items', rest, budget) == items';
      } else {
        forall j: nat | j < |items'| && !items'[j].action.Dropped? && items'[j].tokens > 8
          ensures j in rest
        {
          assert j in order && j != i;
          assert order == [i] + rest;
        }
        CutPassOutcome(f, items', rest, budget);
      }
    }
  }

  lemma CutStaysConsistent(f: Fractions, items: seq<Item>, i: nat, budget: int)
    requires Shrinks(f) && i < |items| && Consistent(items)
    ensures Consistent(items[i := CutOne(f, items, i, budget)])
  {
    hide CutOne, Tokens;
  }

  lemma {:induction false} SmallTotal(items: seq<Item>)
    requires AllSmall(items) && OnlyWorking(items)
    ensures Total(items) <= 8 * Working(items)
  {
    if items != [] {
      SmallTotal(items[1..]);
    }
  }

  lemma CutAllOutcome(f: Fractions, kept: seq<Item>, budget: int)
    requires Shrinks(f) && Consistent(kept) && (Total(kept) <= budget || OnlyWorking(kept))
    ensures InRange(kept, CutOrder(kept))
    ensures var r := CutPass(f, kept, CutOrder(kept), budget);
            && SamePriorities(r, kept) && Total(r) <= Max(budget, 8 * Working(kept))
            && forall i :: 0 <= i < |kept| ==> (r[i].action.Dropped? <==> kept[i].action.Dropped?)
  {
    CutOrderCovers(kept);
    hide CutOrder, Total, Consistent, CutPass, OnlyWorking, Working;
    var order := CutOrder(kept);
    assert forall k :: 0 <= k < |order| ==> order[k] in order;
    CutPassOutcome(f, kept, order, budget);
    var r := CutPass(f, kept, order, budget);
    WorkingSame(r, kept);
    if Total(r) > budget {
      SmallTotal(r);
    }
  }

  /**
   * The set ends within the budget, or within eight tokens for each file of the working set; the last
   * pass cuts, and never drops a file.
   */
  lemma CompressedFits(f: Fractions, items: seq<Item>, budget: int)
    requires Shrinks(f) && Consistent(items)
    ensures var r := Compressed(f, items, budget);
            && Total(r) <= Max(budget, 8 * Working(items)) && SamePriorities(r, items)
            && InRange(items, DropOrder(items))
            && forall i :: 0 <= i < |items| ==>
                 (r[i].action.Dropped? <==> DropPass(items, DropOrder(items), budget)[i].action.Dropped?)
  {
    DropOrderCovers(items);
    hide DropPass, DropOrder, CutOrder, CutPass, Total, Consistent, OnlyWorking, Working;
    var kept := DropPass(items, DropOrder(items), budget);
    DropPassOutcome(items, DropOrder(items), budget);
    DropKeepsConsistent(items, DropOrder(items), budget);
    CutAllOutcome(f, kept, budget);
    WorkingSame(kept, items);
  }

  // ---------------------------------------------------------------------------------------------
  // The passes over the list of files
  // ---------------------------------------------------------------------------------------------

  /** A file of the set as it was read; a missing file has no text. */
  datatype File = File(priority: int, text: string)

  function DistilledItem(distill: string -> string, file: File): Item {
    var text := distill(file.text);
    Item(file.priority, text, if text != file.text then Distilled else Kept, Tokens(text))
  }

  function Distil(distill: string -> string, files: seq<File>): (r: seq<Item>)
    ensures |r| == |files| && Consistent(r) && NoneDropped(r)
  {
    seq(|files|, i requires 0 <= i < |files| => DistilledItem(distill, files[i]))
  }

  method TotalOut(items: array<Item>) returns (sum: nat)
    ensures sum == Total(items[..])
  {
    sum := 0;
    var i := items.Length;
    assert items[items.Length..] == [];
    while i > 0
      invariant 0 <= i <= items.Length && sum == Total(items[i..])
    {
      i := i - 1;
      assert items[i..][0] == items[i] && items[i..][1..] == items[i + 1..];
      sum := sum + Weight(items[i]);
    }
    assert items[0..] == items[..];
  }

  /** The second pass in place. */
  method DropCheapest(items: array<Item>, order: seq<nat>, budget: int)
    requires InRange(items[..], order)
    modifies items
    ensures items[..] == DropPass(old(items[..]), order, budget)
  {
    hide Total;
    var k := 0;
    while k < |order|
      invariant 0 <= k <= |order|
      invariant DropPass(items[..], order[k..], budget) == DropPass(old(items[..]), order, budget)
    {
      var total := TotalOut(items);
      var i := order[k];
      assert order[k..][0] == i && order[k..][1..] == order[k + 1..];
      if total <= budget {
        return;
      }
      if items[i].priority < WORKING_SET && !items[i].action.Dropped? {
        ghost var before := items[..];
        items[i] := Drop(items[i]);
        assert items[..] == before[i := Drop(before[i])];
      }
      k := k + 1;
    }
  }

  /** The third pass in place. */
  method CutRest(f: Fractions, items: array<Item>, order: seq<nat>, budget: int)
    requires Shrinks(f) && InRange(items[..], order) && Consistent(items[..])
    modifies items
    ensures items[..] == CutPass(f, old(items[..]), order, budget)
  {
    hide Total, Tokens, Truncated;
    var k := 0;
    while k < |order|
      invariant 0 <= k <= |order| && Consistent(items[..])
      invariant CutPass(f, items[..], order[k..], budget) == CutPass(f, old(items[..]), order, budget)
    {
      var total := TotalOut(items);
      var i := order[k];
      assert order[k..][0] == i && order[k..][1..] == order[k + 1..];
      if total <= budget {
        return;
      }
      ghost var before := items[..];
      CutStaysConsistent(f, before, i, budget);
      TotalUpdate(before, i, before[i]);
      var others := total - items[i].tokens;
      var room := Max(0, budget - others);
      if room <= 0 && items[i].priority < WORKING_SET {
        items[i] := Drop(items[i]);
      } else {
        var cut := TruncateToBudget(f, items[i].text, Max(8, room));
        items[i] := Item(items[i].priority, cut, Shortened, Tokens(cut));
      }
      assert items[..] == before[i := CutOne(f, before, i, budget)];
      k := k + 1;
    }
  }

  /** `compress_files` on the texts that were read. */
  method CompressFiles(f: Fractions, distill: string -> string, files: seq<File>, budget: int)
    returns (items: array<Item>, total: nat, within: bool, overBy: nat)
    requires Shrinks(f)
    ensures fresh(items) && items[..] == Compressed(f, Distil(distill, files), budget)
    ensures total == Total(items[..]) && (within <==> total <= budget) && overBy == Max(0, total - budget)
    ensures total <= Max(budget, 8 * Working(Distil(distill, files)))
  {
    hide Total, Tokens, DropPass, CutPass, SortBy, Remaining, CheapestFirst, LowestFirst, Consistent;
    ghost var start := Distil(distill, files);
    items := new Item[|files|](i requires 0 <= i < |files| => DistilledItem(distill, files[i]));
    assert items[..] == start;
    CompressedFits(f, start, budget);
    var order := DropOrder(items[..]);
    DropCheapest(items, order, budget);
    ghost var kept := items[..];
    DropKeepsConsistent(start, order, budget);
    CutOrderCovers(kept);
    total := TotalOut(items);
    if total > budget {
      CutRest(f, items, CutOrder(items[..]), budget);
    } else {
      CutPassWithin(f, kept, CutOrder(kept), budget);
    }
    total := TotalOut(items);
    within := total <= budget;
    overBy := Max(0, total - budget);
  }

  lemma CutPassWithin(f: Fractions, items: seq<Item>, order: seq<nat>, budget: int)
    requires Shrinks(f) && InRange(items, order) && Consistent(items) && Total(items) <= budget
    ensures CutPass(f, items, order, budget) == items
  {
  }
}
