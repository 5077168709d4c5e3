/** The memory file: its state, the markdown printer and the markdown parser (memory/schema.py). */
module Schema {
  import opened Wrappers
  import opened Text
  import opened Sorting

  // ---------------------------------------------------------------------------------------------
  // State
  // ---------------------------------------------------------------------------------------------

  datatype Pattern = Pattern(description: string, count: nat)

  datatype Category = Category(name: string, items: seq<Pattern>)

  datatype Distillation = Distillation(date: string, summary: string)

  /** `patterns` is a Python dictionary: entries in insertion order, one per name. */
  datatype State = State(patterns: seq<Category>, distillations: seq<Distillation>)

  /** `str.lower`; every result holds for every such function. */
  type Lower = string -> string

  /** The entry of one category, empty when there is none. */
  function Items(ps: seq<Category>, name: string): seq<Pattern> {
    if ps == [] then [] else if ps[0].name == name then ps[0].items else Items(ps[1..], name)
  }

  predicate HasCategory(ps: seq<Category>, name: string) {
    exists i :: 0 <= i < |ps| && ps[i].name == name
  }

  /** Dictionary assignment: replaces the entry where it stands or adds one at the end. */
  function Put(ps: seq<Category>, name: string, items: seq<Pattern>): seq<Category> {
    if ps == [] then [Category(name, items)]
    else if ps[0].name == name then [Category(name, items)] + ps[1..]
    else [ps[0]] + Put(ps[1..], name, items)
  }

  predicate DistinctCategories(ps: seq<Category>) {
    forall i, j :: 0 <= i < j < |ps| ==> ps[i].name != ps[j].name
  }

  lemma {:induction false} ItemsOfPut(ps: seq<Category>, name: string, items: seq<Pattern>, other: string)
    ensures Items(Put(ps, name, items), other) == if other == name then items else Items(ps, other)
  {
    if ps != [] && ps[0].name != name {
      ItemsOfPut(ps[1..], name, items, other);
      assert ([ps[0]] + Put(ps[1..], name, items))[1..] == Put(ps[1..], name, items);
    } else if ps != [] {
      assert ([Category(name, items)] + ps[1..])[1..] == ps[1..];
    } else {
      assert [Category(name, items)][1..] == [];
    }
  }

  lemma {:induction false} PutAtEnd(ps: seq<Category>, name: string, items: seq<Pattern>, more: seq<Pattern>)
    requires !HasCategory(ps, name)
    ensures Put(ps, name, items) == ps + [Category(name, items)]
    ensures Items(ps, name) == []
    ensures Put(ps + [Category(name, items)], name, more) == ps + [Category(name, more)]
    ensures Items(ps + [Category(name, items)], name) == items
  {
    var last := [Category(name, items)];
    if ps != [] {
      assert ps[0].name != name;
      assert forall i :: 0 <= i < |ps[1..]| ==> ps[1..][i] == ps[i + 1];
      PutAtEnd(ps[1..], name, items, more);
      assert (ps + last)[1..] == ps[1..] + last;
      assert [ps[0]] + (ps[1..] + last) == ps + last;
      assert [ps[0]] + (ps[1..] + [Category(name, more)]) == ps + [Category(name, more)];
    } else {
      assert ps + last == last;
      assert [Category(name, more)] + last[1..] == ps + [Category(name, more)];
    }
  }

  // ---------------------------------------------------------------------------------------------
  // Numbers
  // ---------------------------------------------------------------------------------------------

  predicate IsDigit(c: char) {
    '0' <= c <= '9'
  }

  function DigitValue(c: char): nat
    requires IsDigit(c)
  {
    c as int - '0' as int
  }

  function NatText(n: nat): (s: string)
    ensures s != "" && forall i :: 0 <= i < |s| ==> IsDigit(s[i])
  {
    var digit := ('0' as int + n % 10) as char;
    if n < 10 then [digit] else NatText(n / 10) + [digit]
  }

  function NatOf(s: string): nat
    requires forall i :: 0 <= i < |s| ==> IsDigit(s[i])
  {
    if s == "" then 0 else NatOf(s[..|s| - 1]) * 10 + DigitValue(s[|s| - 1])
  }

  lemma {:induction false} NatTextRoundTrip(n: nat)
    ensures NatOf(NatText(n)) == n
  {
    var s := NatText(n);
    if n >= 10 {
      NatTextRoundTrip(n / 10);
      assert s[..|s| - 1] == NatText(n / 10);
    } else {
      assert s[..|s| - 1] == "";
    }
  }

  /** The length of the leading run of digits. */
  function DigitRun(s: string): (n: nat)
    ensures n <= |s| && forall i :: 0 <= i < n ==> IsDigit(s[i])
    ensures n < |s| ==> !IsDigit(s[n])
  {
    if s == "" || !IsDigit(s[0]) then 0 else 1 + DigitRun(s[1..])
  }

  // ---------------------------------------------------------------------------------------------
  // Printer
  // ---------------------------------------------------------------------------------------------

  const TITLE := "# Agentic Loop Memory"
  const HEADING := "## "
  const BULLET := "- "
  const DISTILLATIONS := "## Recent Distillations"
  const MAX_PRINTED := 20

  /** The key `(-count, description.lower())`. */
  predicate PatternLe(lower: Lower, p: Pattern, q: Pattern) {
    p.count > q.count || (p.count == q.count && LexLe(lower(p.description), lower(q.description)))
  }

  function PatternOrder(lower: Lower): (Pattern, Pattern) -> bool {
    (p, q) => PatternLe(lower, p, q)
  }

  function PrintedItems(lower: Lower, items: seq<Pattern>): seq<Pattern> {
    SortBy(PatternOrder(lower), items)
  }

  function PrintedCategories(ps: seq<Category>): seq<Category> {
    SortBy((a: Category, b: Category) => LexLe(a.name, b.name), ps)
  }

  function LastOf<T>(s: seq<T>, n: nat): seq<T> {
    if |s| <= n then s else s[|s| - n..]
  }

  function SeenSuffix(n: nat): string {
    " (seen " + NatText(n) + " times)"
  }

  function PatternLine(p: Pattern): string {
    BULLET + p.description + SeenSuffix(p.count)
  }

  function PatternLines(items: seq<Pattern>): (r: seq<string>)
    ensures |r| == |items| && forall i :: 0 <= i < |items| ==> r[i] == PatternLine(items[i])
  {
    seq(|items|, i requires 0 <= i < |items| => PatternLine(items[i]))
  }

  function CategoryLines(lower: Lower, c: Category): seq<string> {
    [HEADING + c.name] + PatternLines(PrintedItems(lower, c.items)) + [""]
  }

  function AllCategoryLines(lower: Lower, ps: seq<Category>): seq<string> {
    if ps == [] then [] else AllCategoryLines(lower, ps[..|ps| - 1]) + CategoryLines(lower, ps[|ps| - 1])
  }

  function DistillationLine(d: Distillation): string {
    "### " + d.date + " — " + d.summary
  }

  function DistillationLines(ds: seq<Distillation>): (r: seq<string>)
    ensures |r| == |ds| && forall i :: 0 <= i < |ds| ==> r[i] == DistillationLine(ds[i])
  {
    seq(|ds|, i requires 0 <= i < |ds| => DistillationLine(ds[i]))
  }

  function HeadLines(lower: Lower, s: State): seq<string> {
    [TITLE, ""] + AllCategoryLines(lower, PrintedCategories(s.patterns)) + [DISTILLATIONS]
  }

  function TailLines(s: State): seq<string> {
    [""] + if s.distillations == [] then ["(none)"] else DistillationLines(LastOf(s.distillations, MAX_PRINTED))
  }

  /** Lines, each ended by a newline: what joining with a last empty line gives. */
  function Unlines(lines: seq<string>): string {
    if lines == [] then "" else Unlines(lines[..|lines| - 1]) + lines[|lines| - 1] + "\n"
  }

  function Render(lower: Lower, s: State): string {
    Unlines(HeadLines(lower, s) + TailLines(s))
  }

  /** The part of `render_markdown` that prints one category. */
  method PrintCategory(lower: Lower, c: Category, before: seq<string>) returns (lines: seq<string>)
    ensures lines == before + CategoryLines(lower, c)
  {
    hide SortBy, PatternLe, PatternLine;
    lines := before + [HEADING + c.name];
    ghost var start := lines;
    var items := PrintedItems(lower, c.items);
    if items == [] {
      lines := lines + [""];
      assert PatternLines(items) == [];
      return;
    }
    for j := 0 to |items|
      invariant lines == start + PatternLines(items)[..j]
    {
      lines := lines + [PatternLine(items[j])];
    }
    assert PatternLines(items)[..|items|] == PatternLines(items);
    lines := lines + [""];
  }

  /** `render_markdown`. */
  method RenderMarkdown(lower: Lower, s: State) returns (text: string)
    ensures text == Render(lower, s)
  {
    hide SortBy, PatternLe, CategoryLines, DistillationLine;
    var categories := PrintedCategories(s.patterns);
    var lines := [TITLE, ""];
    for i := 0 to |categories|
      invariant lines == [TITLE, ""] + AllCategoryLines(lower, categories[..i])
    {
      lines := PrintCategory(lower, categories[i], lines);
      assert categories[..i + 1][..i] == categories[..i];
    }
    assert categories[..|categories|] == categories;
    lines := lines + [DISTILLATIONS];
    ghost var head := lines;
    assert head == HeadLines(lower, s);
    hide HeadLines;
    lines := lines + [""];
    if s.distillations == [] {
      lines := lines + ["(none)"];
    } else {
      var shown := LastOf(s.distillations, MAX_PRINTED);
      for j := 0 to |shown|
        invariant lines == head + [""] + DistillationLines(shown)[..j]
      {
        lines := lines + [DistillationLine(shown[j])];
      }
      assert DistillationLines(shown)[..|shown|] == DistillationLines(shown);
    }
    assert lines == head + TailLines(s);
    text := Unlines(lines);
  }

  // ---------------------------------------------------------------------------------------------
  // Parser
  // ---------------------------------------------------------------------------------------------

  /** The first line break, or the length. */
  function BreakAt(s: string): (i: nat)
    ensures i <= |s| && (i < |s| ==> IsLineBreak(s[i]))
    ensures forall j :: 0 <= j < i ==> !IsLineBreak(s[j])
  {
    if s == "" || IsLineBreak(s[0]) then 0 else 1 + BreakAt(s[1..])
  }

  /** `str.splitlines()`. */
  function SplitLines(s: string): seq<string>
    decreases |s|
  {
    if s == "" then [] else
    var i := BreakAt(s);
    if i == |s| then [s] else
    var width := if i + 1 < |s| && s[i] == '\r' && s[i + 1] == '\n' then 2 else 1;
    [s[..i]] + SplitLines(s[i + width..])
  }

  /** Matches `\s+`: what follows the white space, which must not be empty. */
  function AfterSpaces(s: string): Option<string> {
    if s != "" && IsSpace(s[0]) then Some(TrimLeft(s)) else None
  }

  function AfterWord(s: string, word: string): Option<string> {
    if word <= s then Some(s[|word|..]) else None
  }

  /** Matches `\s+times\)\s*$`. */
  predicate MatchTimes(s: string) {
    match AfterSpaces(s)
    case None => false
    case Some(a) =>
      match AfterWord(a, "times)")
      case None => false
      case Some(b) => TrimLeft(b) == ""
  }

  /** Matches `(\d+)\s+times\)\s*$`. */
  function MatchCount(s: string): Option<nat> {
    var n := DigitRun(s);
    if n > 0 && MatchTimes(s[n..]) then Some(NatOf(s[..n])) else None
  }

  /** Matches `\s+\(seen\s+(\d+)\s+times\)\s*$` on a whole string. */
  function MatchSeen(s: string): Option<nat> {
    match AfterSpaces(s)
    case None => None
    case Some(a) =>
      match AfterWord(a, "(seen")
      case None => None
      case Some(b) =>
        match AfterSpaces(b)
        case None => None
        case Some(c) => MatchCount(c)
  }

  /** The lazy group of `^(.+?)\s+\(seen...`: the least split at `i` or later whose rest matches. */
  function FindSeen(body: string, i: nat): (r: Option<nat>)
    ensures r.Some? ==> i <= r.value <= |body| && MatchSeen(body[r.value..]).Some?
    decreases |body| - i
  {
    if i > |body| then None
    else if MatchSeen(body[i..]).Some? then Some(i)
    else FindSeen(body, i + 1)
  }

  function ParsePattern(body: string): Pattern {
    match FindSeen(body, 1)
    case Some(i) => Pattern(Trim(body[..i]), MatchSeen(body[i..]).value)
    case None => Pattern(body, 1)
  }

  /** The pattern `\s+—\s+(.+)$` on a whole right-trimmed string: the last group. */
  function MatchDash(s: string): Option<string> {
    var a := TrimLeft(s);
    if |a| == |s| || a == "" || a[0] != '—' then None else
    var c := TrimLeft(a[1..]);
    if |c| == |a| - 1 || c == "" then None else Some(c)
  }

  function FindDash(s: string, i: nat): (r: Option<nat>)
    ensures r.Some? ==> i <= r.value <= |s| && MatchDash(s[r.value..]).Some?
    decreases |s| - i
  {
    if i > |s| then None
    else if MatchDash(s[i..]).Some? then Some(i)
    else FindDash(s, i + 1)
  }

  /** The lines `### date — summary`: the leading white space of `s` is given back one by one. */
  function MatchDistillation(s: string, spaces: nat): Option<Distillation>
    requires spaces <= |s|
  {
    if spaces == 0 then None else
    var rest := s[spaces..];
    match FindDash(rest, 1)
    case Some(i) => Some(Distillation(Trim(rest[..i]), Trim(MatchDash(rest[i..]).value)))
    case None => MatchDistillation(s, spaces - 1)
  }

  function ParseDistillation(line: string): Option<Distillation> {
    if !("###" <= line) then None
    else MatchDistillation(line[3..], |line[3..]| - |TrimLeft(line[3..])|)
  }

  /** The variables of the parser between two lines. */
  datatype Cursor = Cursor(state: State, category: Option<string>, inDistillations: bool)

  const FRESH := Cursor(State([], []), None, false)

  function ParseLine(p: Cursor, raw: string): Cursor {
    var line := TrimRight(raw);
    if DISTILLATIONS <= line then p.(inDistillations := true, category := None)
    else if p.inDistillations then
      match ParseDistillation(line)
      case Some(d) => p.(state := p.state.(distillations := p.state.distillations + [d]))
      case None => p
    else if HEADING <= line then
      var name := Trim(line[3..]);
      p.(category := Some(name),
         state := p.state.(patterns := Put(p.state.patterns, name, Items(p.state.patterns, name))))
    else if p.category.Some? && p.category.value != "" && BULLET <= line then
      var name := p.category.value;
      var pattern := ParsePattern(Trim(line[2..]));
      p.(state := p.state.(patterns := Put(p.state.patterns, name, Items(p.state.patterns, name) + [pattern])))
    else p
  }

  function ParseLines(p: Cursor, lines: seq<string>): Cursor {
    if lines == [] then p else ParseLine(ParseLines(p, lines[..|lines| - 1]), lines[|lines| - 1])
  }

  function Parse(text: string): State {
    if Trim(text) == "" then State([], []) else ParseLines(FRESH, SplitLines(text)).state
  }

  /** `parse_markdown`. */
  method ParseMarkdown(text: string) returns (state: State)
    ensures state == Parse(text)
  {
    hide ParseDistillation, ParsePattern, Text.Trim, Text.TrimRight, SplitLines, Put, Items;
    state := State([], []);
    if Trim(text) == "" {
      return;
    }
    var lines := SplitLines(text);
    var currentCategory: Option<string> := None;
    var inDistillations := false;
    for i := 0 to |lines|
      invariant ParseLines(FRESH, lines[..i]) == Cursor(state, currentCategory, inDistillations)
    {
      assert lines[..i + 1][..i] == lines[..i];
      var line := TrimRight(lines[i]);
      if DISTILLATIONS <= line {
        inDistillations := true;
        currentCategory := None;
      } else if inDistillations {
        var d := ParseDistillation(line);
        if d.Some? {
          state := state.(distillations := state.distillations + [d.value]);
        }
      } else if HEADING <= line {
        var name := Trim(line[3..]);
        currentCategory := Some(name);
        state := state.(patterns := Put(state.patterns, name, Items(state.patterns, name)));
      } else if currentCategory.Some? && currentCategory.value != "" && BULLET <= line {
        var name := currentCategory.value;
        var pattern := ParsePattern(Trim(line[2..]));
        state := state.(patterns := Put(state.patterns, name, Items(state.patterns, name) + [pattern]));
      }
    }
    assert lines[..|lines|] == lines;
  }

  // ---------------------------------------------------------------------------------------------
  // Lines and text
  // ---------------------------------------------------------------------------------------------

  lemma {:induction false} UnlinesAppend(a: seq<string>, b: seq<string>)
    ensures Unlines(a + b) == Unlines(a) + Unlines(b)
  {
    if b == [] {
      assert a + b == a;
      assert Unlines(a) + "" == Unlines(a);
    } else {
      var n := |b| - 1;
      assert (a + b)[..|a + b| - 1] == a + b[..n];
      UnlinesAppend(a, b[..n]);
      assert Unlines(a) + (Unlines(b[..n]) + b[n] + "\n") == (Unlines(a) + Unlines(b[..n])) + b[n] + "\n";
    }
  }

  lemma {:induction false} BreakAfter(line: string, rest: string)
    requires SingleLine(line) && rest != "" && IsLineBreak(rest[0])
    ensures BreakAt(line + rest) == |line|
  {
    if line != "" {
      assert (line + rest)[1..] == line[1..] + rest;
      BreakAfter(line[1..], rest);
    } else {
      assert line + rest == rest;
    }
  }

  lemma SplitFirst(line: string, rest: string)
    requires SingleLine(line)
    ensures SplitLines(line + "\n" + rest) == [line] + SplitLines(rest)
  {
    var tail := "\n" + rest;
    var s := line + tail;
    assert line + "\n" + rest == s;
    BreakAfter(line, tail);
    assert s[..|line|] == line && s[|line|] == '\n' && s[|line| + 1..] == rest;
  }

  /** A carriage return and a newline end one line, not two; any other line break ends one by itself. */
  lemma SplitAtBreak(line: string, mark: char, rest: string)
    requires SingleLine(line) && IsLineBreak(mark)
    ensures mark != '\r' || rest == "" || rest[0] != '\n' ==>
              SplitLines(line + [mark] + rest) == [line] + SplitLines(rest)
    ensures SplitLines(line + "\r\n" + rest) == [line] + SplitLines(rest)
  {
    hide IsLineBreak;
    var tail, both := [mark] + rest, "\r\n" + rest;
    assert line + [mark] + rest == line + tail && line + "\r\n" + rest == line + both;
    assert IsLineBreak('\r') by { ReturnBreaks(); }
    BreakAfter(line, tail);
    BreakAfter(line, both);
    assert (line + tail)[|line| + 1..] == rest && (line + both)[|line| + 2..] == rest;
    assert (line + tail)[..|line|] == line && (line + both)[..|line|] == line;
  }

  lemma ReturnBreaks()
    ensures IsLineBreak('\r') && IsLineBreak('\n')
  {
  }

  /** Splitting undoes joining, for lines without a line break. */
  lemma {:induction false} SplitUnlines(lines: seq<string>, rest: string)
    requires forall i :: 0 <= i < |lines| ==> SingleLine(lines[i])
    ensures SplitLines(Unlines(lines) + rest) == lines + SplitLines(rest)
  {
    hide SplitLines, SingleLine;
    if lines == [] {
      assert "" + rest == rest;
    } else {
      var n := |lines| - 1;
      var next := lines[n] + "\n" + rest;
      assert Unlines(lines) + rest == Unlines(lines[..n]) + next;
      SplitUnlines(lines[..n], next);
      SplitFirst(lines[n], rest);
      assert lines[..n] + [lines[n]] == lines;
      assert lines[..n] + ([lines[n]] + SplitLines(rest)) == lines + SplitLines(rest);
    }
  }

  lemma {:induction false} ParseLinesAppend(p: Cursor, a: seq<string>, b: seq<string>)
    ensures ParseLines(p, a + b) == ParseLines(ParseLines(p, a), b)
  {
    hide ParseLine;
    if b == [] {
      assert a + b == a;
    } else {
      var n := |b| - 1;
      assert (a + b)[..|a + b| - 1] == a + b[..n];
      ParseLinesAppend(p, a, b[..n]);
    }
  }

  lemma ParseOne(p: Cursor, line: string)
    ensures ParseLines(p, [line]) == ParseLine(p, line)
  {
    assert [line][..0] == [];
    assert ParseLines(p, []) == p;
  }

  /** A text that starts with a visible character is parsed line by line. */
  lemma VisibleStart(s: string)
    requires s != "" && !IsSpace(s[0])
    ensures Trim(s) != ""
  {
    assert TrimLeft(s) == s;
    assert |TrimRight(s)| > 0;
  }

  // ---------------------------------------------------------------------------------------------
  // One pattern line
  // ---------------------------------------------------------------------------------------------

  lemma {:induction false} TrimLeftPast(spaces: string, rest: string)
    requires forall i :: 0 <= i < |spaces| ==> IsSpace(spaces[i])
    requires rest != "" && !IsSpace(rest[0])
    ensures TrimLeft(spaces + rest) == rest
  {
    if spaces != "" {
      assert (spaces + rest)[1..] == spaces[1..] + rest;
      TrimLeftPast(spaces[1..], rest);
    } else {
      assert spaces + rest == rest;
    }
  }

  lemma {:induction false} DigitRunOf(digits: string, rest: string)
    requires forall i :: 0 <= i < |digits| ==> IsDigit(digits[i])
    requires rest != "" && !IsDigit(rest[0])
    ensures DigitRun(digits + rest) == |digits|
  {
    if digits != "" {
      assert (digits + rest)[1..] == digits[1..] + rest;
      DigitRunOf(digits[1..], rest);
    } else {
      assert digits + rest == rest;
    }
  }

  lemma SpaceThen(rest: string)
    requires rest != "" && !IsSpace(rest[0])
    ensures AfterSpaces(" " + rest) == Some(rest)
  {
    TrimLeftPast(" ", rest);
  }

  lemma WordThen(word: string, rest: string)
    ensures AfterWord(word + rest, word) == Some(rest)
  {
  }

  lemma MatchTimesEnds()
    ensures MatchTimes(" times)")
  {
    SpaceThen("times)");
    assert " times)" == " " + "times)";
    assert "times)" == "times)" + "";
    WordThen("times)", "");
  }

  lemma CountThen(digits: string, times: string)
    requires digits != "" && forall i :: 0 <= i < |digits| ==> IsDigit(digits[i])
    requires times != "" && !IsDigit(times[0]) && MatchTimes(times)
    ensures MatchCount(digits + times) == Some(NatOf(digits))
  {
    hide MatchTimes, NatOf;
    DigitRunOf(digits, times);
    var count := digits + times;
    assert count[..|digits|] == digits && count[|digits|..] == times;
  }

  lemma SeenThen(c: string)
    requires c != "" && !IsSpace(c[0])
    ensures MatchSeen(" " + ("(seen" + (" " + c))) == MatchCount(c)
  {
    SpaceThen(c);
    WordThen("(seen", " " + c);
    var word := "(seen" + (" " + c);
    assert word[0] == '(';
    SpaceThen(word);
    hide AfterSpaces, AfterWord, MatchCount, IsSpace;
  }

  lemma SeenSuffixMatches(n: nat)
    ensures MatchSeen(SeenSuffix(n)) == Some(n)
  {
    hide MatchSeen, MatchCount, MatchTimes, NatText, NatOf;
    var digits, times := NatText(n), " times)";
    MatchTimesEnds();
    CountThen(digits, times);
    NatTextRoundTrip(n);
    var count := digits + times;
    assert count[0] == digits[0] && IsDigit(digits[0]);
    SeenThen(count);
    assert SeenSuffix(n) == " " + ("(seen" + (" " + count)) by {
      assert " (seen " == " " + ("(seen" + " ");
    }
  }

  predicate AllSpaces(s: string) {
    forall i :: 0 <= i < |s| ==> IsSpace(s[i])
  }

  predicate NoParen(s: string) {
    forall i :: 0 <= i < |s| ==> s[i] != '('
  }

  lemma NoParenIn(a: string, b: string)
    requires NoParen(a) && NoParen(b)
    ensures NoParen(a + b)
  {
  }

  lemma SpacesHaveNoParen(s: string)
    requires AllSpaces(s)
    ensures NoParen(s)
  {
  }

  lemma AfterSpacesForm(s: string) returns (spaces: string)
    requires AfterSpaces(s).Some?
    ensures s == spaces + AfterSpaces(s).value && AllSpaces(spaces) && spaces != ""
  {
    var a := TrimLeft(s);
    spaces := s[..|s| - |a|];
    assert forall i :: 0 <= i < |spaces| ==> spaces[i] == s[i];
  }

  lemma AfterWordForm(s: string, word: string)
    requires AfterWord(s, word).Some?
    ensures s == word + AfterWord(s, word).value
  {
    assert s == s[..|word|] + s[|word|..];
  }

  lemma TimesForm(d: string) returns (spaces: string, g: string)
    requires MatchTimes(d)
    ensures d == spaces + ("times)" + g) && AllSpaces(spaces) && spaces != "" && AllSpaces(g)
  {
    spaces := AfterSpacesForm(d);
    AfterWordForm(AfterSpaces(d).value, "times)");
    g := AfterWord(AfterSpaces(d).value, "times)").value;
    assert TrimLeft(g) == "";
    hide AfterSpaces, AfterWord, TrimLeft;
  }

  lemma NoParenInTimes(d: string)
    requires MatchTimes(d)
    ensures NoParen(d)
  {
    hide MatchTimes, NoParen, AllSpaces;
    var spaces, g := TimesForm(d);
    SpacesHaveNoParen(spaces);
    SpacesHaveNoParen(g);
    WordsHaveNoParen();
    NoParenIn("times)", g);
    NoParenIn(spaces, "times)" + g);
  }

  lemma NoParenInCount(c: string)
    requires MatchCount(c).Some?
    ensures NoParen(c)
  {
    hide MatchTimes, NatOf;
    var n := DigitRun(c);
    NoParenInTimes(c[n..]);
    assert c == c[..n] + c[n..];
    assert NoParen(c[..n]);
    NoParenIn(c[..n], c[n..]);
  }

  lemma SeenForm(s: string) returns (spaces: string, gap: string, c: string)
    requires MatchSeen(s).Some?
    ensures s == spaces + ("(seen" + (gap + c)) && AllSpaces(spaces) && AllSpaces(gap) && MatchCount(c).Some?
  {
    hide MatchCount;
    var a := AfterSpaces(s).value;
    var b := AfterWord(a, "(seen").value;
    c := AfterSpaces(b).value;
    spaces := AfterSpacesForm(s);
    AfterWordForm(a, "(seen");
    gap := AfterSpacesForm(b);
    hide AfterSpaces, AfterWord, MatchSeen;
  }

  /** A string that matches is white space, one opening parenthesis, and no other one. */
  lemma SeenHasOneParen(s: string) returns (spaces: string, rest: string)
    requires MatchSeen(s).Some?
    ensures s == spaces + ("(" + rest) && AllSpaces(spaces) && NoParen(rest)
  {
    hide NoParen, MatchSeen, MatchCount, AllSpaces;
    var gap, c;
    spaces, gap, c := SeenForm(s);
    NoParenInCount(c);
    SpacesHaveNoParen(gap);
    WordsHaveNoParen();
    NoParenIn(gap, c);
    NoParenIn("seen", gap + c);
    rest := "seen" + (gap + c);
    SeenWord(gap + c);
  }

  lemma WordsHaveNoParen()
    ensures NoParen("times)") && NoParen("seen")
  {
  }

  lemma SeenWord(tail: string)
    ensures "(seen" + tail == "(" + ("seen" + tail)
  {
  }

  predicate GoodDescription(d: string) {
    d != "" && Trimmed(d) && SingleLine(d)
  }

  lemma NoEarlierSeen(d: string, n: nat, i: nat)
    requires d != "" && !IsSpace(d[|d| - 1]) && i < |d|
    ensures MatchSeen((d + SeenSuffix(n))[i..]).None?
  {
    var s := (d + SeenSuffix(n))[i..];
    var last, paren := |d| - i - 1, |d| - i + 1;
    assert s[last] == d[|d| - 1];
    assert s[paren] == '(' by {
      assert SeenSuffix(n)[1] == '(';
    }
    if MatchSeen(s).Some? {
      ParenIsFirstVisible(s, last, paren);
    }
  }

  lemma ParenIsFirstVisible(s: string, visible: nat, paren: nat)
    requires MatchSeen(s).Some? && paren < |s| && s[paren] == '(' && visible < |s| && !IsSpace(s[visible])
    ensures paren <= visible
  {
    var spaces, rest := SeenHasOneParen(s);
    hide MatchSeen, IsSpace;
    ConcatIndex(spaces, rest, visible);
    ConcatIndex(spaces, rest, paren);
  }

  lemma ConcatIndex(spaces: string, rest: string, i: nat)
    requires i < |spaces| + 1 + |rest|
    ensures (spaces + ("(" + rest))[i] ==
            if i < |spaces| then spaces[i] else if i == |spaces| then '(' else rest[i - |spaces| - 1]
  {
  }

  lemma {:induction false} FindSeenAt(d: string, n: nat, i: nat)
    requires d != "" && !IsSpace(d[|d| - 1]) && i <= |d|
    ensures FindSeen(d + SeenSuffix(n), i) == Some(|d|)
    decreases |d| - i
  {
    hide MatchSeen, SeenSuffix;
    if i < |d| {
      NoEarlierSeen(d, n, i);
      FindSeenAt(d, n, i + 1);
    } else {
      SeenSuffixMatches(n);
      assert (d + SeenSuffix(n))[|d|..] == SeenSuffix(n);
    }
  }

  /** Whatever the description looks like, its printed line reads back as the same pattern. */
  lemma PatternRoundTrip(p: Pattern)
    requires GoodDescription(p.description)
    ensures ParsePattern(p.description + SeenSuffix(p.count)) == p
  {
    hide MatchSeen, SeenSuffix, FindSeen;
    var d := p.description;
    var body := d + SeenSuffix(p.count);
    FindSeenAt(d, p.count, 1);
    SeenSuffixMatches(p.count);
    assert body[..|d|] == d && body[|d|..] == SeenSuffix(p.count);
    TrimIsTrimmed(d);
  }
}
