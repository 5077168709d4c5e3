/** Printing a memory state and parsing it back (memory/schema.py). */
module RoundTrip {
  import opened Wrappers
  import opened Text
  import opened Sorting
  import opened Schema

  // ---------------------------------------------------------------------------------------------
  // What survives
  // ---------------------------------------------------------------------------------------------

  const RECENT := "Recent Distillations"

  /** A category name whose heading reads back as that category. */
  predicate GoodCategory(name: string) {
    name != "" && Trimmed(name) && SingleLine(name) && !(RECENT <= name)
  }

  predicate GoodItems(items: seq<Pattern>) {
    forall i :: 0 <= i < |items| ==> GoodDescription(items[i].description)
  }

  predicate GoodPatterns(ps: seq<Category>) {
    DistinctCategories(ps) && forall i :: 0 <= i < |ps| ==> GoodCategory(ps[i].name) && GoodItems(ps[i].items)
  }

  /** Each category with its items in printed order. */
  function WithPrintedItems(lower: Lower, cs: seq<Category>): (r: seq<Category>)
    ensures |r| == |cs| && forall i :: 0 <= i < |cs| ==> r[i] == Category(cs[i].name, PrintedItems(lower, cs[i].items))
  {
    seq(|cs|, i requires 0 <= i < |cs| => Category(cs[i].name, PrintedItems(lower, cs[i].items)))
  }

  function PrintedPatterns(lower: Lower, ps: seq<Category>): seq<Category> {
    WithPrintedItems(lower, PrintedCategories(ps))
  }

  /** No em dash between white space inside the date or, after white space, at its end. */
  predicate DateOk(date: string) {
    forall i :: 0 < i < |date| && date[i] == '—' && IsSpace(date[i - 1]) ==>
      i + 1 < |date| && !IsSpace(date[i + 1])
  }

  predicate PlainDistillation(d: Distillation) {
    && d.date != "" && Trimmed(d.date) && SingleLine(d.date)
    && d.summary != "" && Trimmed(d.summary) && SingleLine(d.summary)
  }

  predicate GoodDistillations(ds: seq<Distillation>) {
    forall i :: 0 <= i < |ds| ==> PlainDistillation(ds[i]) && DateOk(ds[i].date)
  }

  // ---------------------------------------------------------------------------------------------
  // Lines of the pattern section
  // ---------------------------------------------------------------------------------------------

  lemma TrimRightOfVisible(s: string)
    requires s != "" && !IsSpace(s[|s| - 1])
    ensures TrimRight(s) == s
  {
  }

  lemma PrefixAfter(head: string, x: string, y: string)
    ensures head + x <= head + y <==> x <= y
  {
    assert (head + x)[|head|..] == x && (head + y)[|head|..] == y;
    if x <= y {
      assert y == x + y[|x|..];
      assert head + y == (head + x) + y[|x|..];
    }
    if head + x <= head + y {
      assert (head + y)[..|head + x|] == head + x;
      assert y[..|x|] == x;
    }
  }

  lemma LastOfSuffix(d: string, n: nat)
    ensures var s := d + SeenSuffix(n); s[|s| - 1] == ')'
    ensures SingleLine(d) ==> SingleLine(d + SeenSuffix(n))
  {
    var digits := NatText(n);
    assert SingleLine(digits) by {
      assert forall i :: 0 <= i < |digits| ==> IsDigit(digits[i]);
    }
    hide NatText;
    SingleLineConcat(" (seen ", digits);
    SingleLineConcat(" (seen " + digits, " times)");
    if SingleLine(d) {
      SingleLineConcat(d, SeenSuffix(n));
    }
  }

  lemma SingleLineConcat(a: string, b: string)
    requires SingleLine(a) && SingleLine(b)
    ensures SingleLine(a + b)
  {
  }

  lemma PatternLineIsBullet(p: Pattern)
    ensures PatternLine(p) == BULLET + (p.description + SeenSuffix(p.count))
  {
    hide SeenSuffix;
  }

  /** A visible body behind a visible marker and a space: `marker` is "- " or "### ". */
  lemma MarkedLine(marker: string, body: string)
    requires body != "" && Trimmed(body)
    ensures var line := marker + body; TrimRight(line) == line && marker <= line && line[|marker|..] == body
    ensures SingleLine(marker) && SingleLine(body) ==> SingleLine(marker + body)
  {
    var line := marker + body;
    assert line[|line| - 1] == body[|body| - 1];
    TrimRightOfVisible(line);
    hide Text.TrimRight;
    if SingleLine(marker) && SingleLine(body) {
      SingleLineConcat(marker, body);
    }
  }

  lemma BulletForm(body: string)
    requires body != "" && Trimmed(body) && SingleLine(body)
    ensures var line := BULLET + body;
            TrimRight(line) == line && line[0] == '-' && BULLET <= line && SingleLine(line) && Trim(line[2..]) == body
  {
    hide Text.Trim, Text.TrimRight, IsSpace, Trimmed;
    assert SingleLine(BULLET);
    hide SingleLine;
    MarkedLine(BULLET, body);
    TrimIsTrimmed(body);
  }

  lemma PatternLineForm(p: Pattern)
    requires GoodDescription(p.description)
    ensures var line := PatternLine(p);
            TrimRight(line) == line && line[0] == '-' && BULLET <= line && SingleLine(line) &&
            Trim(line[2..]) == p.description + SeenSuffix(p.count)
  {
    var body := p.description + SeenSuffix(p.count);
    LastOfSuffix(p.description, p.count);
    PatternLineIsBullet(p);
    hide SeenSuffix, PatternLine, Text.Trim, Text.TrimRight;
    assert body[0] == p.description[0] && !IsSpace(')');
    BulletForm(body);
  }

  lemma BulletIsNoHeading(line: string)
    requires line != "" && line[0] == '-'
    ensures !(DISTILLATIONS <= line) && !(HEADING <= line)
  {
    assert DISTILLATIONS[0] == '#' && HEADING[0] == '#';
  }

  lemma ParsePatternLine(p: Cursor, name: string, pattern: Pattern)
    requires p.category == Some(name) && name != "" && !p.inDistillations && GoodDescription(pattern.description)
    ensures ParseLine(p, PatternLine(pattern)) ==
            p.(state := p.state.(patterns := Put(p.state.patterns, name, Items(p.state.patterns, name) + [pattern])))
  {
    var line := PatternLine(pattern);
    PatternLineForm(pattern);
    BulletIsNoHeading(line);
    PatternRoundTrip(pattern);
    hide Text.Trim, Text.TrimRight, ParsePattern, PatternLine, Put, Items, GoodDescription;
  }

  /** Where the parser stands after some patterns of the last category. */
  function InCategory(ps: seq<Category>, name: string, items: seq<Pattern>, ds: seq<Distillation>): Cursor {
    Cursor(State(ps + [Category(name, items)], ds), Some(name), false)
  }

  lemma {:induction false} ParsePatternLines(ps: seq<Category>, name: string, items: seq<Pattern>,
                                              ds: seq<Distillation>)
    requires name != "" && !HasCategory(ps, name) && GoodItems(items)
    ensures ParseLines(InCategory(ps, name, [], ds), PatternLines(items)) == InCategory(ps, name, items, ds)
  {
    hide ParseLine, PatternLine, GoodDescription, HasCategory;
    var lines := PatternLines(items);
    if items == [] {
      assert lines == [];
    } else {
      var n := |items| - 1;
      ParsePatternLines(ps, name, items[..n], ds);
      assert lines[..n] == PatternLines(items[..n]);
      var before := InCategory(ps, name, items[..n], ds);
      ParsePatternLine(before, name, items[n]);
      PutAtEnd(ps, name, items[..n], items);
      assert items[..n] + [items[n]] == items;
    }
  }

  lemma ParseBlankLine(p: Cursor)
    ensures ParseLine(p, "") == p
  {
    assert |DISTILLATIONS| > 0 && |HEADING| > 0 && |BULLET| > 0;
    assert ParseDistillation("") == None;
  }

  lemma HeadingForm(name: string)
    requires name != "" && Trimmed(name)
    ensures var line := HEADING + name;
            TrimRight(line) == line && HEADING <= line && Trim(line[3..]) == name &&
            (DISTILLATIONS <= line <==> RECENT <= name)
  {
    var line := HEADING + name;
    assert line[|line| - 1] == name[|name| - 1];
    TrimRightOfVisible(line);
    assert line[3..] == name;
    TrimIsTrimmed(name);
    hide Text.Trim, Text.TrimRight;
    DistillationsHeading();
    PrefixAfter(HEADING, RECENT, name);
  }

  lemma DistillationsHeading()
    ensures DISTILLATIONS == HEADING + RECENT
  {
  }

  lemma ParseLineOfHeading(p: Cursor, line: string, name: string)
    requires !p.inDistillations && TrimRight(line) == line && !(DISTILLATIONS <= line) && HEADING <= line
    requires Trim(line[3..]) == name
    ensures ParseLine(p, line) ==
            p.(category := Some(name),
               state := p.state.(patterns := Put(p.state.patterns, name, Items(p.state.patterns, name))))
  {
    hide Text.Trim, Text.TrimRight, Put, Items, ParseDistillation, ParsePattern;
  }

  lemma ParseHeading(ps: seq<Category>, name: string, ds: seq<Distillation>, category: Option<string>)
    requires GoodCategory(name) && !HasCategory(ps, name)
    ensures ParseLine(Cursor(State(ps, ds), category, false), HEADING + name) == InCategory(ps, name, [], ds)
  {
    hide Text.Trim, Text.TrimRight, HasCategory, Put, Items, ParseLine, SingleLine, Trimmed;
    HeadingForm(name);
    PutAtEnd(ps, name, [], []);
    ParseLineOfHeading(Cursor(State(ps, ds), category, false), HEADING + name, name);
  }

  lemma ParseCategory(lower: Lower, ps: seq<Category>, c: Category, ds: seq<Distillation>, category: Option<string>)
    requires GoodCategory(c.name) && !HasCategory(ps, c.name) && GoodItems(PrintedItems(lower, c.items))
    ensures ParseLines(Cursor(State(ps, ds), category, false), CategoryLines(lower, c)) ==
            InCategory(ps, c.name, PrintedItems(lower, c.items), ds)
  {
    hide ParseLine, PrintedItems, PatternLines, GoodItems, HasCategory, GoodCategory;
    var start := Cursor(State(ps, ds), category, false);
    var items := PrintedItems(lower, c.items);
    var heading, body := [HEADING + c.name], PatternLines(items);
    ParseHeading(ps, c.name, ds, category);
    ParseOne(start, HEADING + c.name);
    assert c.name != "" by { NameNotEmpty(c.name); }
    ParsePatternLines(ps, c.name, items, ds);
    ParseLinesAppend(start, heading, body);
    ParseLinesAppend(start, heading + body, [""]);
    ParseBlankLine(InCategory(ps, c.name, items, ds));
    ParseOne(InCategory(ps, c.name, items, ds), "");
  }

  lemma NameNotEmpty(name: string)
    requires GoodCategory(name)
    ensures name != ""
  {
  }

  lemma PrintedItemsAreGood(lower: Lower, items: seq<Pattern>)
    requires GoodItems(items)
    ensures GoodItems(PrintedItems(lower, items))
  {
    hide GoodDescription, SortBy, PatternLe;
    var le := PatternOrder(lower);
    SortByMembers(le, items);
    forall i | 0 <= i < |PrintedItems(lower, items)|
      ensures GoodDescription(PrintedItems(lower, items)[i].description)
    {
      assert PrintedItems(lower, items)[i] in SortBy(le, items);
    }
  }

  lemma {:induction false} ParseCategories(lower: Lower, cs: seq<Category>)
    requires GoodPatterns(cs)
    ensures var p := ParseLines(FRESH, AllCategoryLines(lower, cs));
            p.state == State(WithPrintedItems(lower, cs), []) && !p.inDistillations
  {
    hide ParseLine, PrintedItems, CategoryLines, GoodItems, GoodCategory;
    if cs == [] {
      assert WithPrintedItems(lower, cs) == [];
    } else {
      var n := |cs| - 1;
      var init, last := cs[..n], cs[n];
      ParseCategories(lower, init);
      var before := ParseLines(FRESH, AllCategoryLines(lower, init));
      PrintedItemsAreGood(lower, last.items);
      assert !HasCategory(WithPrintedItems(lower, init), last.name);
      ParseCategory(lower, WithPrintedItems(lower, init), last, [], before.category);
      ParseLinesAppend(FRESH, AllCategoryLines(lower, init), CategoryLines(lower, last));
      assert WithPrintedItems(lower, cs) ==
             WithPrintedItems(lower, init) + [Category(last.name, PrintedItems(lower, last.items))];
    }
  }

  lemma SortedCategoriesAreGood(ps: seq<Category>)
    requires GoodPatterns(ps)
    ensures GoodPatterns(PrintedCategories(ps))
  {
    hide GoodCategory, GoodItems;
    var le := (a: Category, b: Category) => LexLe(a.name, b.name);
    var sorted := SortBy(le, ps);
    SortByMembers(le, ps);
    assert forall i :: 0 <= i < |sorted| ==> sorted[i] in ps;
    forall i, j | 0 <= i < j < |sorted|
      ensures sorted[i].name != sorted[j].name
    {
      if sorted[i].name == sorted[j].name {
        SameNameTwice(ps, sorted, i, j);
      }
    }
  }

  /** In a dictionary, a permutation has no name twice. */
  lemma SameNameTwice(ps: seq<Category>, sorted: seq<Category>, i: nat, j: nat)
    requires DistinctCategories(ps) && multiset(sorted) == multiset(ps)
    requires i < j < |sorted|
    ensures sorted[i].name != sorted[j].name
  {
    var x, y := sorted[i], sorted[j];
    assert x in multiset(sorted) && y in multiset(sorted);
    assert x in ps && y in ps;
    if x.name == y.name {
      assert x == y;
      assert sorted == sorted[..i] + [x] + sorted[i + 1..j] + [y] + sorted[j + 1..];
      assert multiset(sorted)[x] >= 2;
      AtMostOnce(ps, x);
    }
  }

  lemma {:induction false} AtMostOnce(ps: seq<Category>, x: Category)
    requires DistinctCategories(ps)
    ensures multiset(ps)[x] <= 1
  {
    if ps != [] {
      var n := |ps| - 1;
      AtMostOnce(ps[..n], x);
      assert ps == ps[..n] + [ps[n]];
      if ps[n] == x {
        assert forall i :: 0 <= i < n ==> ps[..n][i].name != ps[n].name;
        assert x !in ps[..n];
      }
    }
  }

  // ---------------------------------------------------------------------------------------------
  // The whole file: patterns
  // ---------------------------------------------------------------------------------------------

  lemma CategoryLinesAreSingle(lower: Lower, c: Category)
    requires GoodCategory(c.name) && GoodItems(c.items)
    ensures forall i :: 0 <= i < |CategoryLines(lower, c)| ==> SingleLine(CategoryLines(lower, c)[i])
  {
    PrintedItemsAreGood(lower, c.items);
    hide PrintedItems, PatternLine, GoodDescription;
    var items := PrintedItems(lower, c.items);
    forall i | 0 <= i < |items|
      ensures SingleLine(PatternLines(items)[i])
    {
      PatternLineForm(items[i]);
    }
    SingleLineConcat(HEADING, c.name);
  }

  lemma {:induction false} AllCategoryLinesAreSingle(lower: Lower, cs: seq<Category>)
    requires forall i :: 0 <= i < |cs| ==> GoodCategory(cs[i].name) && GoodItems(cs[i].items)
    ensures forall i :: 0 <= i < |AllCategoryLines(lower, cs)| ==> SingleLine(AllCategoryLines(lower, cs)[i])
  {
    hide SingleLine, CategoryLines, GoodCategory, GoodItems;
    if cs != [] {
      AllCategoryLinesAreSingle(lower, cs[..|cs| - 1]);
      CategoryLinesAreSingle(lower, cs[|cs| - 1]);
    }
  }

  lemma ParseTitle()
    ensures ParseLines(FRESH, [TITLE, ""]) == FRESH
  {
    TrimRightOfVisible(TITLE);
    assert TITLE[1] == ' ' && DISTILLATIONS[1] == '#' && HEADING[1] == '#' && TITLE[0] == '#' && BULLET[0] == '-';
    assert ParseLine(FRESH, TITLE) == FRESH;
    ParseOne(FRESH, TITLE);
    ParseBlankLine(FRESH);
    ParseOne(FRESH, "");
    ParseLinesAppend(FRESH, [TITLE], [""]);
    assert [TITLE] + [""] == [TITLE, ""];
  }

  /** Once the distillations have begun, no line changes the patterns. */
  lemma {:induction false} PatternsAreFrozen(p: Cursor, lines: seq<string>)
    requires p.inDistillations
    ensures ParseLines(p, lines).inDistillations
    ensures ParseLines(p, lines).state.patterns == p.state.patterns
  {
    hide ParseDistillation, Text.TrimRight;
    if lines != [] {
      PatternsAreFrozen(p, lines[..|lines| - 1]);
    }
  }

  lemma ParseDistillationsHeading(p: Cursor)
    ensures ParseLine(p, DISTILLATIONS) == p.(inDistillations := true, category := None)
  {
    TrimRightOfVisible(DISTILLATIONS);
  }

  lemma ParseHead(lower: Lower, s: State)
    requires GoodPatterns(s.patterns)
    ensures ParseLines(FRESH, HeadLines(lower, s)) == Cursor(State(PrintedPatterns(lower, s.patterns), []), None, true)
  {
    var cs := PrintedCategories(s.patterns);
    SortedCategoriesAreGood(s.patterns);
    hide PrintedCategories, ParseLine, ParseLines, AllCategoryLines, GoodPatterns;
    var title, body := [TITLE, ""], AllCategoryLines(lower, cs);
    ParseTitle();
    ParseCategories(lower, cs);
    ParseLinesAppend(FRESH, title, body);
    ParseLinesAppend(FRESH, title + body, [DISTILLATIONS]);
    var before := ParseLines(FRESH, body);
    ParseOne(before, DISTILLATIONS);
    ParseDistillationsHeading(before);
  }

  lemma HeadLinesAreSingle(lower: Lower, s: State)
    requires GoodPatterns(s.patterns)
    ensures forall i :: 0 <= i < |HeadLines(lower, s)| ==> SingleLine(HeadLines(lower, s)[i])
  {
    hide PrintedCategories, AllCategoryLines, SingleLine, GoodCategory, GoodItems;
    SortedCategoriesAreGood(s.patterns);
    AllCategoryLinesAreSingle(lower, PrintedCategories(s.patterns));
    TitleIsSingle();
  }

  lemma TitleIsSingle()
    ensures SingleLine(TITLE) && SingleLine("") && SingleLine(DISTILLATIONS) && SingleLine(HEADING)
  {
  }

  lemma ParseOfRender(lower: Lower, s: State)
    requires GoodPatterns(s.patterns)
    ensures Parse(Render(lower, s)) ==
            ParseLines(ParseLines(FRESH, HeadLines(lower, s)), SplitLines(Unlines(TailLines(s)))).state
  {
    var head, tail := HeadLines(lower, s), TailLines(s);
    HeadLinesAreSingle(lower, s);
    RenderIsVisible(lower, s);
    hide HeadLines, TailLines, ParseLines, SplitLines, SingleLine, GoodPatterns, Text.Trim;
    UnlinesAppend(head, tail);
    SplitUnlines(head, Unlines(tail));
    ParseLinesAppend(FRESH, head, SplitLines(Unlines(tail)));
  }

  lemma TitleFirst(rest: seq<string>)
    ensures Unlines([TITLE] + rest) == TITLE + "\n" + Unlines(rest)
  {
    UnlinesAppend([TITLE], rest);
    assert [TITLE][..0] == [];
    assert Unlines([TITLE]) == Unlines([]) + TITLE + "\n";
    assert "" + TITLE + "\n" == TITLE + "\n";
  }

  lemma RenderIsVisible(lower: Lower, s: State)
    ensures Trim(Render(lower, s)) != ""
  {
    hide AllCategoryLines, PrintedCategories, TailLines, Text.Trim, Unlines;
    var rest := HeadLines(lower, s)[1..] + TailLines(s);
    assert HeadLines(lower, s) + TailLines(s) == [TITLE] + rest;
    hide HeadLines;
    TitleFirst(rest);
    var text := TITLE + "\n" + Unlines(rest);
    assert text[0] == '#';
    VisibleStart(text);
  }

  /** The patterns survive printing and parsing, in printed order, whatever the distillations contain. */
  lemma PatternsRoundTrip(lower: Lower, s: State)
    requires GoodPatterns(s.patterns)
    ensures Parse(Render(lower, s)).patterns == PrintedPatterns(lower, s.patterns)
  {
    ParseOfRender(lower, s);
    ParseHead(lower, s);
    hide Parse, Render, HeadLines, SplitLines, GoodPatterns;
    PatternsAreFrozen(ParseLines(FRESH, HeadLines(lower, s)), SplitLines(Unlines(TailLines(s))));
  }

  /**
   * The condition on the name is exact: a one-line category keeps its pattern if and only if its
   * name is not empty and does not start like the heading of the distillations.
   */
  lemma CategorySurvivesIff(lower: Lower, name: string, pattern: Pattern)
    requires Trimmed(name) && SingleLine(name) && GoodDescription(pattern.description)
    ensures Items(Parse(Render(lower, State([Category(name, [pattern])], []))).patterns, name) == [pattern] <==>
            name != "" && !(RECENT <= name)
  {
    hide Parse, Render, PrintedCategories, PrintedItems, GoodDescription, Trimmed, SingleLine;
    var c := Category(name, [pattern]);
    var s := State([c], []);
    SingletonsAreSorted(lower, c);
    var parsed := Parse(Render(lower, s)).patterns;
    if GoodCategory(name) {
      assert GoodPatterns(s.patterns);
      PatternsRoundTrip(lower, s);
      assert parsed == [c];
    } else {
      BadCategoryIsLost(lower, s, name, pattern);
      assert Items(parsed, name) == [];
    }
  }

  lemma SingletonsAreSorted(lower: Lower, c: Category)
    requires |c.items| == 1
    ensures PrintedCategories([c]) == [c] && PrintedItems(lower, c.items) == c.items
  {
    assert [c][..0] == [] && c.items[..0] == [];
    assert c.items == [c.items[0]];
  }

  lemma OneCategoryLines(lower: Lower, s: State, name: string, pattern: Pattern)
    requires s == State([Category(name, [pattern])], [])
    requires PrintedCategories(s.patterns) == s.patterns && PrintedItems(lower, [pattern]) == [pattern]
    ensures HeadLines(lower, s) == [TITLE, "", HEADING + name, PatternLine(pattern), "", DISTILLATIONS]
  {
    hide PrintedCategories, PrintedItems, PatternLine;
    var c := s.patterns[0];
    assert s.patterns[..0] == [];
    assert AllCategoryLines(lower, s.patterns) == AllCategoryLines(lower, []) + CategoryLines(lower, c);
    assert PatternLines([pattern]) == [PatternLine(pattern)];
    assert CategoryLines(lower, c) == [HEADING + name, PatternLine(pattern), ""];
  }

  lemma BadCategoryIsLost(lower: Lower, s: State, name: string, pattern: Pattern)
    requires Trimmed(name) && SingleLine(name) && GoodDescription(pattern.description)
    requires s == State([Category(name, [pattern])], []) && (name == "" || RECENT <= name)
    requires PrintedCategories(s.patterns) == s.patterns && PrintedItems(lower, [pattern]) == [pattern]
    ensures Parse(Render(lower, s)).patterns == []
  {
    hide PrintedCategories, PrintedItems, GoodDescription, SingleLine, Text.Trim, Text.TrimRight, TailLines,
         PatternLine;
    OneCategoryLines(lower, s, name, pattern);
    var bullet := PatternLine(pattern);
    var lines := HeadLines(lower, s) + TailLines(s);
    RenderIsVisible(lower, s);
    TailIsSingle(s);
    PatternLineForm(pattern);
    TitleIsSingle();
    SingleLineConcat(HEADING, name);
    hide HeadLines, ParseLine, ParseLines, SplitLines, Unlines;
    assert forall i :: 0 <= i < |lines| ==> SingleLine(lines[i]);
    SplitUnlines(lines, "");
    assert Unlines(lines) + "" == Unlines(lines);
    assert SplitLines("") == [] by { SplitNothing(); }
    assert lines + [] == lines;
    var body := [HEADING + name, bullet];
    var rest := ["", DISTILLATIONS] + TailLines(s);
    assert lines == ([TITLE, ""] + body) + rest;
    BadHeadingOpensNothing(name, bullet);
    ParseTitle();
    ParseLinesAppend(FRESH, [TITLE, ""], body);
    ParseLinesAppend(FRESH, [TITLE, ""] + body, rest);
    NoCategoryNoPatterns(ParseLines(FRESH, body), TailLines(s));
  }

  lemma SplitNothing()
    ensures SplitLines("") == []
  {
  }

  lemma TailIsSingle(s: State)
    requires s.distillations == []
    ensures forall i :: 0 <= i < |TailLines(s)| ==> SingleLine(TailLines(s)[i])
  {
  }

  /** After an empty or a misleading heading the next bullet belongs to no category. */
  lemma BadHeadingOpensNothing(name: string, bullet: string)
    requires Trimmed(name) && (name == "" || RECENT <= name)
    requires TrimRight(bullet) == bullet && bullet != "" && bullet[0] == '-'
    ensures var p := ParseLines(FRESH, [HEADING + name, bullet]);
            p.state.patterns == [] && p.category == None
  {
    hide ParseLines;
    BadHeading(name);
    var first := ParseLine(FRESH, HEADING + name);
    StrayBullet(first, bullet);
    hide ParseLine;
    ParseOne(FRESH, HEADING + name);
    ParseOne(first, bullet);
    ParseLinesAppend(FRESH, [HEADING + name], [bullet]);
    assert [HEADING + name] + [bullet] == [HEADING + name, bullet];
  }

  lemma BadHeading(name: string)
    requires Trimmed(name) && (name == "" || RECENT <= name)
    ensures var p := ParseLine(FRESH, HEADING + name); p.state.patterns == [] && p.category == None
  {
    hide Text.TrimRight, Text.Trim, ParseDistillation, Trimmed;
    if name == "" {
      EmptyHeading();
      assert HEADING + name == HEADING;
    } else {
      HeadingForm(name);
    }
  }

  lemma StrayBullet(p: Cursor, bullet: string)
    requires TrimRight(bullet) == bullet && bullet != "" && bullet[0] == '-' && p.category == None
    ensures ParseLine(p, bullet).state.patterns == p.state.patterns && ParseLine(p, bullet).category == None
  {
    BulletIsNoHeading(bullet);
    hide Text.TrimRight, Text.Trim, ParseDistillation;
  }

  lemma EmptyHeading()
    ensures ParseLine(FRESH, HEADING) == FRESH
  {
    assert HEADING == "##" + " ";
    assert HEADING[..2] == "##";
    assert TrimRight(HEADING) == TrimRight(HEADING[..2]) == "##";
    assert |DISTILLATIONS| > 2 && |HEADING| == 3;
    assert BULLET[0] == '-';
  }

  lemma NoCategoryNoPatterns(p: Cursor, tail: seq<string>)
    requires p.state.patterns == [] && p.category == None
    ensures ParseLines(p, ["", DISTILLATIONS] + tail).state.patterns == []
  {
    ParseBlankLine(p);
    ParseOne(p, "");
    ParseDistillationsHeading(p);
    ParseOne(p, DISTILLATIONS);
    hide ParseLine, ParseLines;
    ParseLinesAppend(p, [""], [DISTILLATIONS]);
    assert [""] + [DISTILLATIONS] == ["", DISTILLATIONS];
    ParseLinesAppend(p, ["", DISTILLATIONS], tail);
    PatternsAreFrozen(ParseLine(p, DISTILLATIONS), tail);
  }

  // ---------------------------------------------------------------------------------------------
  // The whole file: distillations
  // ---------------------------------------------------------------------------------------------

  lemma DashThen(summary: string)
    requires summary != "" && !IsSpace(summary[0])
    ensures MatchDash(" — " + summary) == Some(summary)
  {
    var after := " " + summary;
    var a := "—" + after;
    TrimLeftPast(" ", summary);
    TrimLeftPast(" ", a);
    assert a[1..] == after;
    hide TrimLeft, IsSpace;
    assert " — " + summary == " " + a;
  }

  /** What a match at the head of a string says about its characters. */
  lemma MatchDashForm(s: string) returns (j: nat)
    requires MatchDash(s).Some?
    ensures 0 < j && j + 1 < |s| && s[j] == '—' && IsSpace(s[j - 1]) && IsSpace(s[j + 1])
    ensures forall k :: 0 <= k < j ==> IsSpace(s[k])
  {
    hide IsSpace;
    var a := TrimLeft(s);
    j := |s| - |a|;
    var c := TrimLeft(a[1..]);
    assert s[j] == a[0];
    assert a[1..][0] == a[1] == s[j + 1];
  }

  /** A match that starts inside the date is a spaced em dash in the date. */
  lemma EarlyMatchBreaksDate(date: string, rest: string, i: nat)
    requires date != "" && !IsSpace(date[|date| - 1]) && 0 < i < |date|
    requires rest != "" && IsSpace(rest[0])
    requires MatchDash((date + rest)[i..]).Some?
    ensures !DateOk(date)
  {
    hide MatchDash, IsSpace, DateOk;
    var s := (date + rest)[i..];
    var j := MatchDashForm(s);
    var last := |date| - 1 - i;
    SuffixOfConcat(date, rest, i, last);
    assert j <= last;
    SuffixOfConcat(date, rest, i, j);
    SuffixOfConcat(date, rest, i, j - 1);
    if j < last {
      SuffixOfConcat(date, rest, i, j + 1);
    }
    SpacedDashBreaksDate(date, i + j);
  }

  lemma SuffixOfConcat(a: string, b: string, i: nat, k: nat)
    requires i + k < |a|
    ensures (a + b)[i..][k] == a[i + k]
  {
  }

  lemma SpacedDashBreaksDate(date: string, at: nat)
    requires 0 < at < |date| && date[at] == '—' && IsSpace(date[at - 1])
    requires at + 1 < |date| ==> IsSpace(date[at + 1])
    ensures !DateOk(date)
  {
    hide IsSpace;
  }

  lemma NoEarlierDash(date: string, rest: string, i: nat)
    requires date != "" && !IsSpace(date[|date| - 1]) && DateOk(date) && 0 < i < |date|
    requires rest != "" && IsSpace(rest[0])
    ensures MatchDash((date + rest)[i..]).None?
  {
    hide MatchDash, IsSpace, DateOk;
    if MatchDash((date + rest)[i..]).Some? {
      EarlyMatchBreaksDate(date, rest, i);
    }
  }

  lemma {:induction false} FindDashAt(date: string, summary: string, i: nat)
    requires date != "" && !IsSpace(date[|date| - 1]) && DateOk(date) && 0 < i <= |date|
    requires summary != "" && !IsSpace(summary[0])
    ensures FindDash(date + (" — " + summary), i) == Some(|date|)
    decreases |date| - i
  {
    hide MatchDash, DateOk;
    var rest := " — " + summary;
    if i < |date| {
      assert rest[0] == ' ';
      NoEarlierDash(date, rest, i);
      FindDashAt(date, summary, i + 1);
    } else {
      DashThen(summary);
      assert (date + rest)[|date|..] == rest;
    }
  }

  lemma SpaceIsSpace()
    ensures IsSpace(' ')
  {
  }

  lemma SpacedDashMatches(space: char, after: string, k: nat)
    requires IsSpace(space) && after != "" && IsSpace(after[0]) && k < |after| && !IsSpace(after[k])
    ensures MatchDash([space] + ("—" + after)).Some?
  {
    var a := "—" + after;
    assert a[0] == '—' && !IsSpace('—') && a[1..] == after;
    TrimLeftPast([space], a);
    TrimLeftNotEmpty(after, k);
    assert |TrimLeft(after)| < |after|;
    hide IsSpace, TrimLeft;
  }

  /** The first split of the printed line, when the date itself contains one. */
  lemma BadDateMatchesEarly(date: string, summary: string) returns (i: nat)
    requires !DateOk(date) && date != "" && summary != "" && !IsSpace(summary[0]) && !IsSpace(date[0])
    ensures 0 < i < |date| && MatchDash((date + (" — " + summary))[i..]).Some?
  {
    hide MatchDash, IsSpace;
    var j :| 0 < j < |date| && date[j] == '—' && IsSpace(date[j - 1]) && !(j + 1 < |date| && !IsSpace(date[j + 1]));
    var rest := " — " + summary;
    var after := date[j + 1..] + rest;
    var k := |after| - |summary|;
    i := j - 1;
    assert after[k] == summary[0];
    SpaceIsSpace();
    assert rest[0] == ' ';
    assert IsSpace(after[0]);
    SpacedDashMatches(date[i], after, k);
    assert date[i..] == [date[i]] + ("—" + date[j + 1..]);
    assert (date + rest)[i..] == [date[i]] + ("—" + after);
  }

  lemma TrimLeftNotEmpty(s: string, k: nat)
    requires k < |s| && !IsSpace(s[k])
    ensures TrimLeft(s) != ""
  {
  }

  lemma {:induction false} FindDashEarly(s: string, i: nat, j: nat)
    requires i <= j <= |s| && MatchDash(s[j..]).Some?
    ensures FindDash(s, i).Some? && FindDash(s, i).value <= j
    decreases |s| - i
  {
    hide MatchDash;
    if i < j && MatchDash(s[i..]).None? {
      FindDashEarly(s, i + 1, j);
    }
  }

  lemma DistillationLineIsMarked(d: Distillation)
    ensures DistillationLine(d) == "### " + (d.date + (" — " + d.summary))
  {
  }

  lemma DistillationBody(d: Distillation)
    requires PlainDistillation(d)
    ensures var body := d.date + (" — " + d.summary); body != "" && Trimmed(body) && SingleLine(body)
  {
    hide SingleLine;
    var rest := " — " + d.summary;
    var body := d.date + rest;
    assert body[0] == d.date[0] && body[|body| - 1] == d.summary[|d.summary| - 1];
    hide IsSpace;
    DashIsSingle();
    SingleLineConcat(" — ", d.summary);
    SingleLineConcat(d.date, rest);
  }

  lemma DashIsSingle()
    ensures SingleLine(" — ") && SingleLine("### ")
  {
  }

  lemma HashLineForm(body: string)
    requires body != "" && Trimmed(body) && SingleLine(body)
    ensures var line := "### " + body;
            TrimRight(line) == line && "###" <= line && line[3..] == " " + body && TrimLeft(" " + body) == body &&
            SingleLine(line) && !(DISTILLATIONS <= line)
  {
    hide *;
    DashIsSingle();
    MarkedLine("### ", body);
    VisibleAfterSpace(body);
    AfterHashes("### ", "###", body);
  }

  lemma VisibleAfterSpace(body: string)
    requires body != "" && Trimmed(body)
    ensures TrimLeft(" " + body) == body
  {
    SpaceIsSpace();
    TrimLeftPast(" ", body);
  }

  lemma AfterHashes(mark: string, hashes: string, body: string)
    requires mark == hashes + " " && hashes == "###"
    ensures hashes <= mark + body && (mark + body)[3..] == " " + body && !(DISTILLATIONS <= mark + body)
  {
    var line := mark + body;
    assert line == hashes + (" " + body);
    assert line[2] == '#';
    HeadingThird(line);
  }

  lemma HeadingThird(line: string)
    requires |line| > 2 && line[2] == '#'
    ensures !(DISTILLATIONS <= line)
  {
    assert DISTILLATIONS[2] == ' ';
  }

  lemma DistillationLineForm(d: Distillation)
    requires PlainDistillation(d)
    ensures var line, body := DistillationLine(d), d.date + (" — " + d.summary);
            TrimRight(line) == line && "###" <= line && line[3..] == " " + body && TrimLeft(" " + body) == body &&
            SingleLine(line) && !(DISTILLATIONS <= line)
  {
    var body := d.date + (" — " + d.summary);
    DistillationLineIsMarked(d);
    DistillationBody(d);
    hide SingleLine, DistillationLine, PlainDistillation, Trimmed, Text.TrimRight, Text.TrimLeft;
    HashLineForm(body);
  }

  lemma ParseDistillationOfLine(d: Distillation)
    requires PlainDistillation(d)
    ensures ParseDistillation(DistillationLine(d)) == MatchDistillation(" " + (d.date + (" — " + d.summary)), 1)
  {
    DistillationLineForm(d);
    hide DistillationLine, MatchDistillation;
  }

  /** A distillation reads back from its line if and only if its date contains no spaced em dash. */
  lemma DistillationSurvivesIff(d: Distillation)
    requires PlainDistillation(d)
    ensures ParseDistillation(DistillationLine(d)) == Some(d) <==> DateOk(d.date)
  {
    ParseDistillationOfLine(d);
    var rest := " — " + d.summary;
    var body := d.date + rest;
    assert (" " + body)[1..] == body;
    if DateOk(d.date) {
      FindDashAt(d.date, d.summary, 1);
      DashThen(d.summary);
      assert body[..|d.date|] == d.date && body[|d.date|..] == rest;
      TrimIsTrimmed(d.date);
      TrimIsTrimmed(d.summary);
      hide FindDash, MatchDash, Text.Trim, ParseDistillation, DistillationLine;
    } else {
      var j := BadDateMatchesEarly(d.date, d.summary);
      FindDashEarly(body, 1, j);
      var i := FindDash(body, 1).value;
      TrimShrinks(body[..i]);
      hide FindDash, MatchDash, Text.Trim, ParseDistillation, DistillationLine;
    }
  }

  lemma TrimShrinks(s: string)
    ensures |Trim(s)| <= |s|
  {
  }

  lemma ParseDistillationLine(p: Cursor, d: Distillation)
    requires p.inDistillations && PlainDistillation(d) && DateOk(d.date)
    ensures ParseLine(p, DistillationLine(d)) ==
            p.(state := p.state.(distillations := p.state.distillations + [d]))
  {
    DistillationLineForm(d);
    DistillationSurvivesIff(d);
    hide ParseDistillation, DistillationLine, PlainDistillation, DateOk, Text.TrimRight;
  }

  lemma {:induction false} ParseDistillationLines(p: Cursor, ds: seq<Distillation>)
    requires p.inDistillations && GoodDistillations(ds)
    ensures ParseLines(p, DistillationLines(ds)) ==
            p.(state := p.state.(distillations := p.state.distillations + ds))
  {
    hide ParseLine, DistillationLine, PlainDistillation, DateOk;
    var lines := DistillationLines(ds);
    if ds == [] {
      assert lines == [] && p.state.distillations + ds == p.state.distillations;
    } else {
      var n := |ds| - 1;
      ParseDistillationLines(p, ds[..n]);
      assert lines[..n] == DistillationLines(ds[..n]);
      ParseDistillationLine(ParseLines(p, lines[..n]), ds[n]);
      assert (p.state.distillations + ds[..n]) + [ds[n]] == p.state.distillations + ds;
    }
  }

  lemma DistillationLinesAreSingle(ds: seq<Distillation>)
    requires GoodDistillations(ds)
    ensures forall i :: 0 <= i < |ds| ==> SingleLine(DistillationLines(ds)[i])
  {
    hide SingleLine, DistillationLine, PlainDistillation, DateOk;
    forall i | 0 <= i < |ds|
      ensures SingleLine(DistillationLines(ds)[i])
    {
      DistillationLineForm(ds[i]);
    }
  }

  lemma NoneLine(p: Cursor)
    requires p.inDistillations
    ensures ParseLine(p, "(none)") == p && SingleLine("(none)")
  {
    TrimRightOfVisible("(none)");
    assert "(none)"[0] == '(' && DISTILLATIONS[0] == '#' && "###"[0] == '#';
  }

  lemma ParseTailLines(p: Cursor, s: State)
    requires p.inDistillations && p.state.distillations == [] && GoodDistillations(s.distillations)
    ensures ParseLines(p, TailLines(s)) ==
            p.(state := p.state.(distillations := LastOf(s.distillations, MAX_PRINTED)))
    ensures forall i :: 0 <= i < |TailLines(s)| ==> SingleLine(TailLines(s)[i])
  {
    var shown := LastOf(s.distillations, MAX_PRINTED);
    var body := if s.distillations == [] then ["(none)"] else DistillationLines(shown);
    assert GoodDistillations(shown);
    hide ParseLine, ParseLines, SingleLine, GoodDistillations, DistillationLines;
    ParseBlankLine(p);
    ParseOne(p, "");
    NoneLine(p);
    ParseOne(p, "(none)");
    ParseDistillationLines(p, shown);
    DistillationLinesAreSingle(shown);
    TitleIsSingle();
    ParseLinesAppend(p, [""], body);
  }

  lemma ParseTail(p: Cursor, s: State)
    requires p.inDistillations && p.state.distillations == [] && GoodDistillations(s.distillations)
    ensures ParseLines(p, SplitLines(Unlines(TailLines(s)))) ==
            p.(state := p.state.(distillations := LastOf(s.distillations, MAX_PRINTED)))
  {
    hide ParseLines, SingleLine, GoodDistillations, TailLines, SplitLines, Unlines;
    var lines := TailLines(s);
    ParseTailLines(p, s);
    SplitUnlines(lines, "");
    SplitNothing();
    assert Unlines(lines) + "" == Unlines(lines);
    assert lines + [] == lines;
  }

  /**
   * Parsing what was printed gives the state back, with the patterns in printed order and the last
   * 20 distillations.
   */
  lemma StateRoundTrip(lower: Lower, s: State)
    requires GoodPatterns(s.patterns) && GoodDistillations(s.distillations)
    ensures Parse(Render(lower, s)) ==
            State(PrintedPatterns(lower, s.patterns), LastOf(s.distillations, MAX_PRINTED))
  {
    ParseOfRender(lower, s);
    ParseHead(lower, s);
    hide Parse, Render, HeadLines, SplitLines, GoodPatterns, ParseLines;
    ParseTail(ParseLines(FRESH, HeadLines(lower, s)), s);
  }
}
