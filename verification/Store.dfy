/** The counting store over the memory file: merge, compaction, print and parse (memory/store.py). */
module Store {
  import opened Wrappers
  import opened Text
  import opened Sorting
  import opened Schema
  import opened RoundTrip
  import opened Normalisation

  // ---------------------------------------------------------------------------------------------
  // One update
  // ---------------------------------------------------------------------------------------------

  const MAX_PATTERNS_PER_CATEGORY := 30
  const MAX_DISTILLATIONS := 20

  /** One submitted pattern, as given. */
  datatype Item = Item(category: string, description: string)

  /** Increments the first pattern of the kind, or appends a new one. */
  function Bump(lower: Lower, bucket: seq<Pattern>, description: string): seq<Pattern> {
    if bucket == [] then [Pattern(description, 1)]
    else if Normalise(lower, bucket[0].description) == Normalise(lower, description) then
      [bucket[0].(count := bucket[0].count + 1)] + bucket[1..]
    else [bucket[0]] + Bump(lower, bucket[1..], description)
  }

  function MergeOne(lower: Lower, ps: seq<Category>, item: Item): seq<Category> {
    var category, description := Trim(item.category), Trim(item.description);
    if description == "" then ps
    else Put(ps, category, Bump(lower, Items(ps, category), description))
  }

  function Merge(lower: Lower, ps: seq<Category>, items: seq<Item>): seq<Category> {
    if items == [] then ps
    else MergeOne(lower, Merge(lower, ps, items[..|items| - 1]), items[|items| - 1])
  }

  function CompactItems(lower: Lower, items: seq<Pattern>): seq<Pattern> {
    if |items| > MAX_PATTERNS_PER_CATEGORY then PrintedItems(lower, items)[..MAX_PATTERNS_PER_CATEGORY] else items
  }

  function CompactCategories(lower: Lower, ps: seq<Category>): (r: seq<Category>)
    ensures |r| == |ps| && forall i :: 0 <= i < |ps| ==> r[i] == Category(ps[i].name, CompactItems(lower, ps[i].items))
  {
    seq(|ps|, i requires 0 <= i < |ps| => Category(ps[i].name, CompactItems(lower, ps[i].items)))
  }

  function Compact(lower: Lower, s: State): State {
    State(CompactCategories(lower, s.patterns), LastOf(s.distillations, MAX_DISTILLATIONS))
  }

  function Read(file: Option<string>): State {
    if file.None? then State([], []) else Parse(file.value)
  }

  function WithDistillation(s: State, d: Option<Distillation>): State {
    if d.Some? && d.value.summary != "" then s.(distillations := s.distillations + [d.value]) else s
  }

  /** The text that one update writes. */
  function Update(lower: Lower, file: Option<string>, items: seq<Item>, d: Option<Distillation>): string {
    var read := Read(file);
    Render(lower, Compact(lower, WithDistillation(read.(patterns := Merge(lower, read.patterns, items)), d)))
  }

  class MemoryStore {
    var file: Option<string>

    constructor ()
      ensures file == None
    {
      file := None;
    }

    method ReadMemory() returns (s: State)
      ensures s == Read(file)
    {
      if file.None? {
        return State([], []);
      }
      s := ParseMarkdown(file.value);
    }

    /** The inner loop of `_merge_patterns`. */
    method BumpBucket(lower: Lower, bucket: seq<Pattern>, description: string) returns (r: seq<Pattern>)
      ensures r == Bump(lower, bucket, description)
    {
      hide Normalise, Bump;
      var norm := Normalise(lower, description);
      for i := 0 to |bucket|
        invariant forall j :: 0 <= j < i ==> Normalise(lower, bucket[j].description) != norm
      {
        if Normalise(lower, bucket[i].description) == norm {
          BumpAt(lower, bucket, i, description);
          return bucket[i := bucket[i].(count := bucket[i].count + 1)];
        }
      }
      BumpAt(lower, bucket, |bucket|, description);
      return bucket + [Pattern(description, 1)];
    }

    /** `_merge_patterns`; `merged` counts the items whose description is not blank. */
    method MergePatterns(lower: Lower, ps: seq<Category>, items: seq<Item>) returns (r: seq<Category>, merged: nat)
      ensures r == Merge(lower, ps, items)
      ensures merged == NotBlank(items)
    {
      hide Text.Trim, Bump, Put, Items;
      r, merged := ps, 0;
      for i := 0 to |items|
        invariant r == Merge(lower, ps, items[..i]) && merged == NotBlank(items[..i])
      {
        assert items[..i + 1][..i] == items[..i];
        var category, description := Trim(items[i].category), Trim(items[i].description);
        if description != "" {
          var bucket := BumpBucket(lower, Items(r, category), description);
          r := Put(r, category, bucket);
          merged := merged + 1;
        }
      }
      assert items[..|items|] == items;
    }

    /** `_compact`; `dropped` counts the patterns and distillations that went. */
    method CompactState(lower: Lower, s: State) returns (r: State, capped: nat, dropped: nat)
      ensures r == Compact(lower, s)
      ensures dropped == Size(s.patterns) - Size(r.patterns) + |s.distillations| - |r.distillations|
    {
      hide PrintedItems, Size;
      SizeOfNothing();
      var ps := [];
      capped, dropped := 0, 0;
      for i := 0 to |s.patterns|
        invariant ps == CompactCategories(lower, s.patterns[..i])
        invariant dropped == Size(s.patterns[..i]) - Size(ps)
      {
        var c := s.patterns[i];
        assert s.patterns[..i + 1][..i] == s.patterns[..i];
        ghost var before := ps;
        SizeOfMore(s.patterns[..i], c);
        SizeOfMore(ps, Category(c.name, CompactItems(lower, c.items)));
        assert s.patterns[..i + 1] == s.patterns[..i] + [c];
        if |c.items| > MAX_PATTERNS_PER_CATEGORY {
          var sorted := PrintedItems(lower, c.items);
          PrintedItemsLength(lower, c.items);
          dropped := dropped + (|c.items| - MAX_PATTERNS_PER_CATEGORY);
          ps := ps + [Category(c.name, sorted[..MAX_PATTERNS_PER_CATEGORY])];
          capped := capped + 1;
        } else {
          ps := ps + [c];
        }
        assert ps[..|ps| - 1] == before;
      }
      assert s.patterns[..|s.patterns|] == s.patterns;
      r := s.(patterns := ps);
      if |r.distillations| > MAX_DISTILLATIONS {
        dropped := dropped + (|r.distillations| - MAX_DISTILLATIONS);
        r := r.(distillations := r.distillations[|r.distillations| - MAX_DISTILLATIONS..]);
      }
    }

    /** `update_memory` under its lock. */
    method UpdateMemory(lower: Lower, items: seq<Item>, d: Option<Distillation>) returns (merged: nat, dropped: nat)
      modifies this
      ensures file == Some(Update(lower, old(file), items, d))
      ensures merged == NotBlank(items)
    {
      hide Read, Merge, Compact, Render;
      var s := ReadMemory();
      var ps;
      ps, merged := MergePatterns(lower, s.patterns, items);
      s := s.(patterns := ps);
      if d.Some? && d.value.summary != "" {
        s := s.(distillations := s.distillations + [d.value]);
      }
      var capped;
      s, capped, dropped := CompactState(lower, s);
      var text := RenderMarkdown(lower, s);
      file := Some(text);
    }

    /** `query_memory`; an empty category stands for all of them, in file order. */
    method QueryMemory(lower: Lower, category: string, topN: int, contains: string) returns (r: seq<Found>)
      ensures r == Top(lower, Read(file).patterns, category, topN, contains)
    {
      hide Read, Items, SortBy, Text.Trim;
      var s := ReadMemory();
      var names := if category != "" then [category] else Names(s.patterns);
      var needle := lower(Trim(contains));
      r := [];
      for i := 0 to |names|
        invariant r == Matches(lower, s.patterns, names[..i], needle)
      {
        ghost var before := r;
        var items := Items(s.patterns, names[i]);
        assert items[..0] == [];
        for j := 0 to |items|
          invariant r == before + MatchesIn(lower, names[i], items[..j], needle)
        {
          assert items[..j + 1][..j] == items[..j];
          if Matching(lower, items[j], needle) {
            r := r + [Found(names[i], items[j])];
          }
        }
        assert items[..|items|] == items;
        assert names[..i + 1][..i] == names[..i];
      }
      assert names[..|names|] == names;
      r := SortBy(FoundOrder(lower), r);
      r := r[..Least(|r|, if topN > 1 then topN else 1)];
    }
  }

  function NotBlank(items: seq<Item>): nat {
    if items == [] then 0
    else NotBlank(items[..|items| - 1]) + if Trim(items[|items| - 1].description) == "" then 0 else 1
  }

  function Size(ps: seq<Category>): nat {
    if ps == [] then 0 else Size(ps[..|ps| - 1]) + |ps[|ps| - 1].items|
  }

  /** The first pattern of the kind, at `i`, is the one that changes; without one the description is appended. */
  lemma {:induction false} BumpAt(lower: Lower, bucket: seq<Pattern>, i: nat, description: string)
    requires i <= |bucket|
    requires forall j :: 0 <= j < i ==> Normalise(lower, bucket[j].description) != Normalise(lower, description)
    requires i < |bucket| ==> Normalise(lower, bucket[i].description) == Normalise(lower, description)
    ensures Bump(lower, bucket, description) ==
            if i < |bucket| then bucket[i := bucket[i].(count := bucket[i].count + 1)]
            else bucket + [Pattern(description, 1)]
  {
    hide Normalise;
    if bucket != [] {
      var first, rest := bucket[0], bucket[1..];
      assert Bump(lower, bucket, description) ==
             if i == 0 then [first.(count := first.count + 1)] + rest else [first] + Bump(lower, rest, description);
      hide Bump;
      if i > 0 {
        assert forall j :: 0 <= j < |rest| ==> rest[j] == bucket[j + 1];
        BumpAt(lower, rest, i - 1, description);
        hide *;
        FirstStays(bucket, i,
                   if i < |bucket| then bucket[i].(count := bucket[i].count + 1) else Pattern(description, 1));
      }
    }
  }

  /** Changing or appending behind the first element. */
  lemma FirstStays(bucket: seq<Pattern>, i: nat, x: Pattern)
    requires 0 < i <= |bucket|
    ensures i < |bucket| ==> bucket[i := x] == [bucket[0]] + bucket[1..][i - 1 := x]
    ensures bucket + [x] == [bucket[0]] + (bucket[1..] + [x])
  {
  }

  lemma SizeOfNothing()
    ensures Size([]) == 0
  {
  }

  lemma SizeOfMore(ps: seq<Category>, c: Category)
    ensures Size(ps + [c]) == Size(ps) + |c.items|
  {
    assert (ps + [c])[..|ps|] == ps;
  }

  lemma PrintedItemsLength(lower: Lower, items: seq<Pattern>)
    ensures |PrintedItems(lower, items)| == |items|
  {
  }

  // ---------------------------------------------------------------------------------------------
  // Queries
  // ---------------------------------------------------------------------------------------------

  datatype Found = Found(category: string, pattern: Pattern)

  function Names(ps: seq<Category>): seq<string> {
    seq(|ps|, i requires 0 <= i < |ps| => ps[i].name)
  }

  predicate Contains(s: string, needle: string) {
    exists i :: 0 <= i <= |s| && needle <= s[i..]
  }

  predicate Matching(lower: Lower, p: Pattern, needle: string) {
    needle == "" || Contains(lower(p.description), needle)
  }

  function MatchesIn(lower: Lower, name: string, items: seq<Pattern>, needle: string): seq<Found> {
    if items == [] then [] else
    var last := items[|items| - 1];
    MatchesIn(lower, name, items[..|items| - 1], needle) +
    if Matching(lower, last, needle) then [Found(name, last)] else []
  }

  function Matches(lower: Lower, ps: seq<Category>, names: seq<string>, needle: string): seq<Found> {
    if names == [] then [] else
    var last := names[|names| - 1];
    Matches(lower, ps, names[..|names| - 1], needle) + MatchesIn(lower, last, Items(ps, last), needle)
  }

  predicate FoundLe(lower: Lower, a: Found, b: Found) {
    PatternLe(lower, a.pattern, b.pattern)
  }

  function Least(a: int, b: int): int {
    if a < b then a else b
  }

  function AllMatches(lower: Lower, ps: seq<Category>, category: string, contains: string): seq<Found> {
    Matches(lower, ps, if category != "" then [category] else Names(ps), lower(Trim(contains)))
  }

  function Top(lower: Lower, ps: seq<Category>, category: string, topN: int, contains: string): seq<Found> {
    var sorted := SortBy(FoundOrder(lower), AllMatches(lower, ps, category, contains));
    sorted[..Least(|sorted|, if topN > 1 then topN else 1)]
  }

  function FoundOrder(lower: Lower): (Found, Found) -> bool {
    (a, b) => FoundLe(lower, a, b)
  }

  lemma FoundOrderIsTotal(lower: Lower)
    ensures TotalPreorder(FoundOrder(lower))
  {
    var le := FoundOrder(lower);
    forall x, y
      ensures le(x, y) || le(y, x)
    {
      LexTotal(lower(x.pattern.description), lower(y.pattern.description));
    }
    forall x, y, z | le(x, y) && le(y, z)
      ensures le(x, z)
    {
      if x.pattern.count == y.pattern.count == z.pattern.count {
        LexTransitive(lower(x.pattern.description), lower(y.pattern.description), lower(z.pattern.description));
      }
    }
  }

  predicate Descending(s: seq<Found>) {
    forall i, j :: 0 <= i < j < |s| ==> s[i].pattern.count >= s[j].pattern.count
  }

  lemma SortedDescends(lower: Lower, all: seq<Found>)
    ensures Descending(SortBy(FoundOrder(lower), all))
  {
    var le := FoundOrder(lower);
    FoundOrderIsTotal(lower);
    SortBySorts(le, all);
    hide SortBy, PatternLe;
    var sorted := SortBy(le, all);
    forall i, j | 0 <= i < j < |sorted|
      ensures sorted[i].pattern.count >= sorted[j].pattern.count
    {
      assert le(sorted[i], sorted[j]);
      LeMeansCount(lower, sorted[i].pattern, sorted[j].pattern);
    }
  }

  lemma PrefixDescends(s: seq<Found>, n: nat)
    requires Descending(s) && n <= |s|
    ensures Descending(s[..n])
  {
  }

  lemma PrefixDominates(sorted: seq<Found>, n: nat, left: Found)
    requires Descending(sorted) && n <= |sorted|
    ensures multiset(sorted[..n]) <= multiset(sorted)
    ensures multiset(sorted)[left] > multiset(sorted[..n])[left] ==>
              forall i :: 0 <= i < n ==> sorted[i].pattern.count >= left.pattern.count
  {
    var r, rest := sorted[..n], sorted[n..];
    assert sorted == r + rest;
    if multiset(sorted)[left] > multiset(r)[left] {
      assert left in multiset(rest);
      var j :| 0 <= j < |rest| && rest[j] == left;
      assert sorted[n + j] == left;
    }
  }

  /** A query returns matches in order, at most the number asked for, and leaves out none with a higher count. */
  lemma QueryReturnsTheTop(lower: Lower, ps: seq<Category>, category: string, topN: int, contains: string, left: Found)
    ensures var r, all := Top(lower, ps, category, topN, contains), AllMatches(lower, ps, category, contains);
            multiset(r) <= multiset(all) && |r| == Least(|all|, if topN > 1 then topN else 1) && Descending(r) &&
            (multiset(all)[left] > multiset(r)[left] ==>
               forall i :: 0 <= i < |r| ==> r[i].pattern.count >= left.pattern.count)
  {
    hide AllMatches, SortBy, Descending, FoundOrder;
    var all := AllMatches(lower, ps, category, contains);
    var sorted := SortBy(FoundOrder(lower), all);
    var n := Least(|sorted|, if topN > 1 then topN else 1);
    SortedDescends(lower, all);
    PrefixDominates(sorted, n, left);
    PrefixDescends(sorted, n);
  }

  lemma LeMeansCount(lower: Lower, p: Pattern, q: Pattern)
    requires PatternLe(lower, p, q)
    ensures p.count >= q.count
  {
  }

  // ---------------------------------------------------------------------------------------------
  // What is counted
  // ---------------------------------------------------------------------------------------------

  /** Over the patterns of one kind: the sum of their counts, or how many there are. */
  function Measure(lower: Lower, items: seq<Pattern>, kind: string, counts: bool): nat {
    if items == [] then 0
    else Measure(lower, items[..|items| - 1], kind, counts) + Share(lower, items[|items| - 1], kind, counts)
  }

  function Share(lower: Lower, p: Pattern, kind: string, counts: bool): nat {
    if Normalise(lower, p.description) != kind then 0 else if counts then p.count else 1
  }

  /** The count on file for a kind in a category. */
  function CountOf(lower: Lower, ps: seq<Category>, category: string, kind: string): nat {
    Measure(lower, Items(ps, category), kind, true)
  }

  /** How often a kind was submitted under a category. */
  function Tally(lower: Lower, items: seq<Item>, category: string, kind: string): nat {
    if items == [] then 0
    else Tally(lower, items[..|items| - 1], category, kind) +
         if Submits(lower, items[|items| - 1], category, kind) then 1 else 0
  }

  predicate Submits(lower: Lower, item: Item, category: string, kind: string) {
    Trim(item.description) != "" && Trim(item.category) == category &&
    Normalise(lower, Trim(item.description)) == kind
  }

  /** No category holds two patterns of one kind. */
  ghost predicate OnePerKind(lower: Lower, items: seq<Pattern>) {
    forall kind :: Measure(lower, items, kind, false) <= 1
  }

  ghost predicate OnePerKindEverywhere(lower: Lower, ps: seq<Category>) {
    forall category :: OnePerKind(lower, Items(ps, category))
  }

  lemma {:induction false} MeasureAppend(lower: Lower, a: seq<Pattern>, b: seq<Pattern>, kind: string, counts: bool)
    ensures Measure(lower, a + b, kind, counts) == Measure(lower, a, kind, counts) + Measure(lower, b, kind, counts)
  {
    hide Share;
    if b == [] {
      assert a + b == a;
    } else {
      var n := |b| - 1;
      assert (a + b)[..|a + b| - 1] == a + b[..n];
      MeasureAppend(lower, a, b[..n], kind, counts);
    }
  }

  lemma MeasureOne(lower: Lower, p: Pattern, kind: string, counts: bool)
    ensures Measure(lower, [p], kind, counts) == Share(lower, p, kind, counts)
  {
    hide Share;
    assert [p][..0] == [];
    assert Measure(lower, [], kind, counts) == 0;
  }

  lemma MeasureFirst(lower: Lower, items: seq<Pattern>, kind: string, counts: bool)
    requires items != []
    ensures Measure(lower, items, kind, counts) ==
            Share(lower, items[0], kind, counts) + Measure(lower, items[1..], kind, counts)
  {
    hide Share, Measure;
    assert items == [items[0]] + items[1..];
    MeasureAppend(lower, [items[0]], items[1..], kind, counts);
    MeasureOne(lower, items[0], kind, counts);
  }

  lemma {:induction false} MeasureOfInsert(lower: Lower, le: (Pattern, Pattern) -> bool, s: seq<Pattern>, x: Pattern,
                                           kind: string, counts: bool)
    ensures Measure(lower, Insert(le, s, x), kind, counts) ==
            Measure(lower, s, kind, counts) + Share(lower, x, kind, counts)
  {
    hide Share, Measure;
    if s == [] || !le(s[0], x) {
      MeasureAppend(lower, [x], s, kind, counts);
      MeasureOne(lower, x, kind, counts);
    } else {
      var rest := Insert(le, s[1..], x);
      MeasureOfInsert(lower, le, s[1..], x, kind, counts);
      MeasureFirst(lower, s, kind, counts);
      MeasureAppend(lower, [s[0]], rest, kind, counts);
      MeasureOne(lower, s[0], kind, counts);
    }
  }

  lemma {:induction false} MeasureOfSort(lower: Lower, le: (Pattern, Pattern) -> bool, s: seq<Pattern>,
                                         kind: string, counts: bool)
    ensures Measure(lower, SortBy(le, s), kind, counts) == Measure(lower, s, kind, counts)
  {
    hide Share;
    if s != [] {
      var n := |s| - 1;
      MeasureOfSort(lower, le, s[..n], kind, counts);
      MeasureOfInsert(lower, le, SortBy(le, s[..n]), s[n], kind, counts);
    }
  }

  lemma MeasureOfPrinted(lower: Lower, items: seq<Pattern>, kind: string, counts: bool)
    ensures Measure(lower, PrintedItems(lower, items), kind, counts) == Measure(lower, items, kind, counts)
  {
    MeasureOfSort(lower, PatternOrder(lower), items, kind, counts);
  }

  /** Compaction never raises a measure, and keeps it when the category is within the cap. */
  lemma MeasureOfCompact(lower: Lower, items: seq<Pattern>, kind: string, counts: bool)
    ensures Measure(lower, CompactItems(lower, items), kind, counts) <= Measure(lower, items, kind, counts)
    ensures |items| <= MAX_PATTERNS_PER_CATEGORY ==> CompactItems(lower, items) == items
  {
    hide PrintedItems, Measure;
    if |items| > MAX_PATTERNS_PER_CATEGORY {
      var sorted := PrintedItems(lower, items);
      PrintedItemsLength(lower, items);
      MeasureOfPrinted(lower, items, kind, counts);
      assert sorted == sorted[..MAX_PATTERNS_PER_CATEGORY] + sorted[MAX_PATTERNS_PER_CATEGORY..];
      MeasureAppend(lower, sorted[..MAX_PATTERNS_PER_CATEGORY], sorted[MAX_PATTERNS_PER_CATEGORY..], kind, counts);
    }
  }

  /** One bump adds one to the count of its kind and to no other, and makes no second pattern of a kind. */
  lemma {:induction false} MeasureOfBump(lower: Lower, bucket: seq<Pattern>, description: string, kind: string)
    ensures var own := kind == Normalise(lower, description);
            var after := Bump(lower, bucket, description);
            Measure(lower, after, kind, true) == Measure(lower, bucket, kind, true) + (if own then 1 else 0) &&
            (Measure(lower, after, kind, false) == Measure(lower, bucket, kind, false) ||
             (own && Measure(lower, bucket, kind, false) == 0 && Measure(lower, after, kind, false) == 1))
    decreases |bucket|
  {
    hide Normalise, Measure;
    var after := Bump(lower, bucket, description);
    MeasureFirst(lower, after, kind, true);
    MeasureFirst(lower, after, kind, false);
    if bucket == [] {
      assert after[1..] == [];
      MeasureOfNothing(lower, kind);
    } else {
      MeasureFirst(lower, bucket, kind, true);
      MeasureFirst(lower, bucket, kind, false);
      if Normalise(lower, bucket[0].description) == Normalise(lower, description) {
        assert after[1..] == bucket[1..];
      } else {
        assert after[1..] == Bump(lower, bucket[1..], description);
        MeasureOfBump(lower, bucket[1..], description, kind);
      }
    }
  }

  lemma MeasureOfNothing(lower: Lower, kind: string)
    ensures Measure(lower, [], kind, true) == 0 && Measure(lower, [], kind, false) == 0
  {
  }

  // ---------------------------------------------------------------------------------------------
  // What every update keeps
  // ---------------------------------------------------------------------------------------------

  /** A submission that fits the file format: one trimmed line each, in a category that survives printing. */
  predicate CleanItem(item: Item) {
    Trim(item.description) != "" ==> SingleLine(Trim(item.description)) && GoodCategory(Trim(item.category))
  }

  predicate CleanItems(items: seq<Item>) {
    forall i :: 0 <= i < |items| ==> CleanItem(items[i])
  }

  lemma {:induction false} BumpKeepsGood(lower: Lower, bucket: seq<Pattern>, description: string)
    requires GoodItems(bucket) && GoodDescription(description)
    ensures GoodItems(Bump(lower, bucket, description))
    decreases |bucket|
  {
    hide Normalise, GoodDescription;
    if bucket != [] && Normalise(lower, bucket[0].description) != Normalise(lower, description) {
      assert forall i :: 0 <= i < |bucket[1..]| ==> bucket[1..][i] == bucket[i + 1];
      BumpKeepsGood(lower, bucket[1..], description);
    }
  }

  lemma {:induction false} ItemsAreGood(ps: seq<Category>, name: string)
    requires forall i :: 0 <= i < |ps| ==> GoodItems(ps[i].items)
    ensures GoodItems(Items(ps, name))
  {
    hide GoodItems;
    if ps != [] && ps[0].name != name {
      ItemsAreGood(ps[1..], name);
    } else {
      assert GoodItems([]) by { NothingIsGood(); }
    }
  }

  lemma NothingIsGood()
    ensures GoodItems([])
  {
  }

  lemma {:induction false} PutKeepsGood(ps: seq<Category>, name: string, items: seq<Pattern>)
    requires GoodPatterns(ps) && GoodCategory(name) && GoodItems(items)
    ensures GoodPatterns(Put(ps, name, items))
    ensures forall i :: 0 <= i < |Put(ps, name, items)| ==>
              Put(ps, name, items)[i].name == name || HasCategory(ps, Put(ps, name, items)[i].name)
    decreases |ps|
  {
    hide GoodCategory, GoodItems;
    if ps != [] {
      var rest, tail := ps[1..], Put(ps[1..], name, items);
      assert forall i :: 0 <= i < |rest| ==> rest[i] == ps[i + 1];
      if ps[0].name != name {
        PutKeepsGood(rest, name, items);
        forall i | 0 <= i < |tail|
          ensures tail[i].name != ps[0].name
          ensures tail[i].name == name || HasCategory(ps, tail[i].name)
        {
          if tail[i].name != name {
            var j :| 0 <= j < |rest| && rest[j].name == tail[i].name;
            assert ps[j + 1].name == tail[i].name;
          }
        }
        assert HasCategory(ps, ps[0].name);
      } else {
        forall i | 0 <= i < |Put(ps, name, items)|
          ensures Put(ps, name, items)[i].name == ps[i].name
        {
        }
      }
    }
  }

  lemma MergeOneKeepsGood(lower: Lower, ps: seq<Category>, item: Item)
    requires GoodPatterns(ps) && CleanItem(item)
    ensures GoodPatterns(MergeOne(lower, ps, item))
  {
    hide GoodPatterns, Text.Trim, Bump, Put, Items, GoodCategory, SingleLine, IsSpace;
    var category, description := Trim(item.category), Trim(item.description);
    if description != "" {
      TrimIsTrimmed(item.description);
      assert GoodDescription(description);
      assert GoodItems(Items(ps, category)) by { GoodPatternsItems(ps, category); }
      BumpKeepsGood(lower, Items(ps, category), description);
      PutKeepsGood(ps, category, Bump(lower, Items(ps, category), description));
    }
  }

  lemma GoodPatternsItems(ps: seq<Category>, name: string)
    requires GoodPatterns(ps)
    ensures GoodItems(Items(ps, name))
  {
    ItemsAreGood(ps, name);
  }

  /** One submission adds one to its own count and leaves every other count alone. */
  lemma CountOfMergeOne(lower: Lower, ps: seq<Category>, item: Item, category: string, kind: string)
    ensures CountOf(lower, MergeOne(lower, ps, item), category, kind) ==
            CountOf(lower, ps, category, kind) + if Submits(lower, item, category, kind) then 1 else 0
    ensures OnePerKindEverywhere(lower, ps) ==> OnePerKindEverywhere(lower, MergeOne(lower, ps, item))
  {
    hide Normalise, Measure, Bump, Put, Items, Text.Trim;
    var own, description := Trim(item.category), Trim(item.description);
    if description != "" {
      var bucket := Items(ps, own);
      var after := Bump(lower, bucket, description);
      MeasureOfBump(lower, bucket, description, kind);
      ItemsOfPut(ps, own, after, category);
      if OnePerKindEverywhere(lower, ps) {
        forall other, k
          ensures Measure(lower, Items(MergeOne(lower, ps, item), other), k, false) <= 1
        {
          ItemsOfPut(ps, own, after, other);
          MeasureOfBump(lower, bucket, description, k);
          assert OnePerKind(lower, Items(ps, other));
          assert OnePerKind(lower, bucket);
          assert Measure(lower, bucket, k, false) <= 1;
        }
      }
    }
  }

  lemma {:induction false} MergeKeepsGood(lower: Lower, ps: seq<Category>, items: seq<Item>)
    requires GoodPatterns(ps) && CleanItems(items)
    ensures GoodPatterns(Merge(lower, ps, items))
  {
    hide GoodPatterns, MergeOne, CleanItem;
    if items != [] {
      var n := |items| - 1;
      MergeKeepsGood(lower, ps, items[..n]);
      MergeOneKeepsGood(lower, Merge(lower, ps, items[..n]), items[n]);
    }
  }

  lemma {:induction false} CountOfMerge(lower: Lower, ps: seq<Category>, items: seq<Item>,
                                         category: string, kind: string)
    requires GoodPatterns(ps) && OnePerKindEverywhere(lower, ps) && CleanItems(items)
    ensures GoodPatterns(Merge(lower, ps, items)) && OnePerKindEverywhere(lower, Merge(lower, ps, items))
    ensures CountOf(lower, Merge(lower, ps, items), category, kind) ==
            CountOf(lower, ps, category, kind) + Tally(lower, items, category, kind)
  {
    hide GoodPatterns, OnePerKindEverywhere, MergeOne, CountOf, Submits, CleanItem;
    if items != [] {
      var n := |items| - 1;
      CountOfMerge(lower, ps, items[..n], category, kind);
      var before := Merge(lower, ps, items[..n]);
      MergeOneKeepsGood(lower, before, items[n]);
      CountOfMergeOne(lower, before, items[n], category, kind);
    }
  }

  // ---- a whole state through compaction, printing and parsing ----

  lemma {:induction false} ItemsOfCompact(lower: Lower, ps: seq<Category>, name: string)
    ensures Items(CompactCategories(lower, ps), name) == CompactItems(lower, Items(ps, name))
    decreases |ps|
  {
    hide CompactItems;
    var after := CompactCategories(lower, ps);
    if ps == [] {
      assert after == [];
      assert CompactItems(lower, []) == [] by { CompactOfNothing(lower); }
    } else {
      assert after[1..] == CompactCategories(lower, ps[1..]);
      ItemsOfCompact(lower, ps[1..], name);
    }
  }

  lemma CompactOfNothing(lower: Lower)
    ensures CompactItems(lower, []) == []
  {
  }

  lemma CompactItemsAreGood(lower: Lower, items: seq<Pattern>)
    requires GoodItems(items)
    ensures GoodItems(CompactItems(lower, items))
  {
    hide PrintedItems, GoodDescription;
    var sorted := PrintedItems(lower, items);
    PrintedItemsAreGood(lower, items);
    if |items| > MAX_PATTERNS_PER_CATEGORY {
      PrintedItemsLength(lower, items);
      assert forall i :: 0 <= i < MAX_PATTERNS_PER_CATEGORY ==> sorted[..MAX_PATTERNS_PER_CATEGORY][i] == sorted[i];
    }
  }

  lemma CompactKeepsGood(lower: Lower, ps: seq<Category>)
    requires GoodPatterns(ps)
    ensures GoodPatterns(CompactCategories(lower, ps))
  {
    hide CompactItems, GoodCategory, GoodItems;
    forall i | 0 <= i < |ps|
      ensures GoodItems(CompactItems(lower, ps[i].items))
    {
      CompactItemsAreGood(lower, ps[i].items);
    }
  }

  lemma {:induction false} ItemsOfMember(ps: seq<Category>, i: nat)
    requires DistinctCategories(ps) && i < |ps|
    ensures Items(ps, ps[i].name) == ps[i].items
  {
    if i > 0 {
      assert forall j :: 0 <= j < |ps[1..]| ==> ps[1..][j] == ps[j + 1];
      ItemsOfMember(ps[1..], i - 1);
    }
  }

  lemma {:induction false} ItemsOfMissing(ps: seq<Category>, name: string)
    requires !HasCategory(ps, name)
    ensures Items(ps, name) == []
  {
    if ps != [] {
      assert ps[0].name != name;
      assert forall j :: 0 <= j < |ps[1..]| ==> ps[1..][j] == ps[j + 1];
      ItemsOfMissing(ps[1..], name);
    }
  }

  /** Printing changes the order of a category, not its members. */
  lemma ItemsOfPrinted(lower: Lower, ps: seq<Category>, name: string)
    requires GoodPatterns(ps)
    ensures Items(PrintedPatterns(lower, ps), name) == PrintedItems(lower, Items(ps, name))
  {
    hide GoodCategory, GoodItems, PrintedItems, PrintedCategories, Items;
    var sorted, printed := PrintedCategories(ps), PrintedPatterns(lower, ps);
    SortedCategoriesAreGood(ps);
    SortedCategoriesMembers(ps);
    if HasCategory(ps, name) {
      var i :| 0 <= i < |ps| && ps[i].name == name;
      assert ps[i] in sorted;
      var j :| 0 <= j < |sorted| && sorted[j] == ps[i];
      ItemsOfMember(ps, i);
      ItemsOfMember(printed, j);
    } else {
      ItemsOfMissing(ps, name);
      forall j | 0 <= j < |printed|
        ensures printed[j].name != name
      {
        assert sorted[j] in ps;
      }
      ItemsOfMissing(printed, name);
      PrintedOfNothing(lower);
    }
  }

  lemma SortedCategoriesMembers(ps: seq<Category>)
    ensures forall c :: c in PrintedCategories(ps) <==> c in ps
  {
    SortByMembers((a: Category, b: Category) => LexLe(a.name, b.name), ps);
  }

  lemma PrintedOfNothing(lower: Lower)
    ensures PrintedItems(lower, []) == []
  {
  }

  lemma PrintedKeepsGood(lower: Lower, ps: seq<Category>)
    requires GoodPatterns(ps)
    ensures GoodPatterns(PrintedPatterns(lower, ps))
  {
    var sorted := PrintedCategories(ps);
    SortedCategoriesAreGood(ps);
    hide GoodCategory, GoodItems, PrintedItems, PrintedCategories;
    forall i | 0 <= i < |sorted|
      ensures GoodItems(PrintedItems(lower, sorted[i].items))
    {
      PrintedItemsAreGood(lower, sorted[i].items);
    }
  }

  /** The patterns that the next reader sees after an update. */
  lemma ReadAfterUpdate(lower: Lower, file: Option<string>, items: seq<Item>, d: Option<Distillation>)
    requires GoodPatterns(Read(file).patterns) && CleanItems(items)
    ensures var merged := Merge(lower, Read(file).patterns, items);
            Read(Some(Update(lower, file, items, d))).patterns ==
            PrintedPatterns(lower, CompactCategories(lower, merged))
    ensures GoodPatterns(CompactCategories(lower, Merge(lower, Read(file).patterns, items)))
  {
    hide GoodPatterns, Merge, CompactCategories, PrintedPatterns, Parse, Render;
    var read := Read(file);
    MergeKeepsGood(lower, read.patterns, items);
    var merged := Merge(lower, read.patterns, items);
    CompactKeepsGood(lower, merged);
    var s := Compact(lower, WithDistillation(read.(patterns := merged), d));
    assert s.patterns == CompactCategories(lower, merged);
    PatternsRoundTrip(lower, s);
  }

  /** One update, with everything it goes through: counts grow by what was submitted, unless compaction cuts. */
  lemma CountAfterUpdate(lower: Lower, file: Option<string>, items: seq<Item>, d: Option<Distillation>,
                         category: string, kind: string)
    requires GoodPatterns(Read(file).patterns) && OnePerKindEverywhere(lower, Read(file).patterns) && CleanItems(items)
    ensures var after := Read(Some(Update(lower, file, items, d))).patterns;
            var grown := CountOf(lower, Read(file).patterns, category, kind) + Tally(lower, items, category, kind);
            GoodPatterns(after) && OnePerKindEverywhere(lower, after) &&
            CountOf(lower, after, category, kind) <= grown &&
            (|Items(Merge(lower, Read(file).patterns, items), category)| <= MAX_PATTERNS_PER_CATEGORY ==>
               CountOf(lower, after, category, kind) == grown &&
               Items(after, category) == PrintedItems(lower, Items(Merge(lower, Read(file).patterns, items), category)))
  {
    hide GoodPatterns, Merge, Update, Read, Items, CompactItems, CompactCategories, PrintedPatterns, PrintedItems,
         Measure, CleanItems;
    var merged := Merge(lower, Read(file).patterns, items);
    var compacted := CompactCategories(lower, merged);
    var after := Read(Some(Update(lower, file, items, d))).patterns;
    CountOfMerge(lower, Read(file).patterns, items, category, kind);
    ReadAfterUpdate(lower, file, items, d);
    PrintedKeepsGood(lower, compacted);
    forall name, k, counts: bool
      ensures Measure(lower, Items(after, name), k, counts) <= Measure(lower, Items(merged, name), k, counts)
    {
      ItemsOfPrinted(lower, compacted, name);
      ItemsOfCompact(lower, merged, name);
      MeasureOfPrinted(lower, CompactItems(lower, Items(merged, name)), k, counts);
      MeasureOfCompact(lower, Items(merged, name), k, counts);
    }
    forall name
      ensures OnePerKind(lower, Items(after, name))
    {
      assert OnePerKind(lower, Items(merged, name));
    }
    ItemsOfPrinted(lower, compacted, category);
    ItemsOfCompact(lower, merged, category);
    MeasureOfPrinted(lower, CompactItems(lower, Items(merged, category)), kind, true);
    MeasureOfCompact(lower, Items(merged, category), kind, true);
  }

  // ---------------------------------------------------------------------------------------------
  // Whole histories
  // ---------------------------------------------------------------------------------------------

  datatype Submission = Submission(items: seq<Item>, distillation: Option<Distillation>)

  /** The file after a sequence of updates of a fresh workspace. */
  function FileAfter(lower: Lower, history: seq<Submission>): Option<string> {
    if history == [] then None else
    var last := history[|history| - 1];
    Some(Update(lower, FileAfter(lower, history[..|history| - 1]), last.items, last.distillation))
  }

  function Submitted(history: seq<Submission>): seq<Item> {
    if history == [] then [] else Submitted(history[..|history| - 1]) + history[|history| - 1].items
  }

  predicate CleanHistory(history: seq<Submission>) {
    forall i :: 0 <= i < |history| ==> CleanItems(history[i].items)
  }

  /** The distinct kinds submitted under a category. */
  function Kinds(lower: Lower, items: seq<Item>, category: string): set<string> {
    set i | 0 <= i < |items| && Trim(items[i].description) != "" && Trim(items[i].category) == category
      :: Normalise(lower, Trim(items[i].description))
  }

  lemma {:induction false} TallyAppend(lower: Lower, a: seq<Item>, b: seq<Item>, category: string, kind: string)
    ensures Tally(lower, a + b, category, kind) == Tally(lower, a, category, kind) + Tally(lower, b, category, kind)
  {
    hide Submits;
    if b == [] {
      assert a + b == a;
    } else {
      var n := |b| - 1;
      assert (a + b)[..|a + b| - 1] == a + b[..n];
      TallyAppend(lower, a, b[..n], category, kind);
    }
  }

  lemma EmptyStateIsGood(lower: Lower)
    ensures GoodPatterns([]) && OnePerKindEverywhere(lower, [])
    ensures forall category, kind :: CountOf(lower, [], category, kind) == 0
  {
  }

  /** Over any run of updates no count on file exceeds the number of submissions. */
  lemma {:induction false} CountsNeverExceed(lower: Lower, history: seq<Submission>, category: string, kind: string)
    requires CleanHistory(history)
    ensures var ps := Read(FileAfter(lower, history)).patterns;
            GoodPatterns(ps) && OnePerKindEverywhere(lower, ps) &&
            CountOf(lower, ps, category, kind) <= Tally(lower, Submitted(history), category, kind)
    decreases |history|
  {
    hide GoodPatterns, OnePerKindEverywhere, CountOf, Tally, Update, Parse, CleanItems;
    if history == [] {
      EmptyStateIsGood(lower);
    } else {
      var n := |history| - 1;
      var last := history[n];
      CountsNeverExceed(lower, history[..n], category, kind);
      CountAfterUpdate(lower, FileAfter(lower, history[..n]), last.items, last.distillation, category, kind);
      TallyAppend(lower, Submitted(history[..n]), last.items, category, kind);
    }
  }

  // ---- the number of patterns is bounded by the number of kinds ----

  lemma MeasurePositive(lower: Lower, items: seq<Pattern>, i: nat)
    requires i < |items|
    ensures Measure(lower, items, Normalise(lower, items[i].description), false) >= 1
    decreases |items|
  {
    hide Normalise;
    if i < |items| - 1 {
      MeasurePositive(lower, items[..|items| - 1], i);
    }
  }

  lemma {:induction false} FewerThanKinds(lower: Lower, items: seq<Pattern>, kinds: set<string>)
    requires OnePerKind(lower, items)
    requires forall i :: 0 <= i < |items| ==> Normalise(lower, items[i].description) in kinds
    ensures |items| <= |kinds|
    decreases |items|
  {
    hide Normalise;
    if items != [] {
      var n := |items| - 1;
      var init, last := items[..n], Normalise(lower, items[n].description);
      forall kind
        ensures Measure(lower, init, kind, false) <= 1
      {
        assert Measure(lower, items, kind, false) <= 1;
      }
      forall i | 0 <= i < n
        ensures Normalise(lower, init[i].description) in kinds - {last}
      {
        MeasurePositive(lower, init, i);
        assert Measure(lower, items, last, false) <= 1;
        assert init[i] == items[i];
      }
      FewerThanKinds(lower, init, kinds - {last});
      assert last in kinds;
    }
  }

  /** Every stored pattern is of a submitted kind. */
  ghost predicate FromKinds(lower: Lower, items: seq<Pattern>, kinds: set<string>) {
    forall i :: 0 <= i < |items| ==> Normalise(lower, items[i].description) in kinds
  }

  lemma {:induction false} BumpFromKinds(lower: Lower, bucket: seq<Pattern>, description: string, kinds: set<string>)
    requires FromKinds(lower, bucket, kinds) && Normalise(lower, description) in kinds
    ensures FromKinds(lower, Bump(lower, bucket, description), kinds)
    decreases |bucket|
  {
    hide Normalise;
    if bucket != [] && Normalise(lower, bucket[0].description) != Normalise(lower, description) {
      assert forall i :: 0 <= i < |bucket[1..]| ==> bucket[1..][i] == bucket[i + 1];
      BumpFromKinds(lower, bucket[1..], description, kinds);
    }
  }

  lemma {:induction false} MergeFromKinds(lower: Lower, ps: seq<Category>, items: seq<Item>,
                                           category: string, kinds: set<string>)
    requires FromKinds(lower, Items(ps, category), kinds) && Kinds(lower, items, category) <= kinds
    ensures FromKinds(lower, Items(Merge(lower, ps, items), category), kinds)
  {
    hide Normalise, FromKinds, Bump, Put, Items, Text.Trim;
    if items != [] {
      var n := |items| - 1;
      var init, item := items[..n], items[n];
      assert Kinds(lower, init, category) <= Kinds(lower, items, category) by {
        assert forall i :: 0 <= i < |init| ==> init[i] == items[i];
      }
      MergeFromKinds(lower, ps, init, category, kinds);
      var before := Merge(lower, ps, init);
      var own, description := Trim(item.category), Trim(item.description);
      if description != "" {
        ItemsOfPut(before, own, Bump(lower, Items(before, own), description), category);
        if own == category {
          assert Normalise(lower, Trim(items[n].description)) in Kinds(lower, items, category);
          BumpFromKinds(lower, Items(before, own), description, kinds);
        }
      }
    }
  }

  lemma PrintedFromKinds(lower: Lower, items: seq<Pattern>, kinds: set<string>)
    requires FromKinds(lower, items, kinds)
    ensures FromKinds(lower, PrintedItems(lower, items), kinds)
  {
    hide Normalise, SortBy, PatternLe;
    var le := PatternOrder(lower);
    SortByMembers(le, items);
    forall i | 0 <= i < |PrintedItems(lower, items)|
      ensures Normalise(lower, PrintedItems(lower, items)[i].description) in kinds
    {
      assert PrintedItems(lower, items)[i] in SortBy(le, items);
    }
  }

  lemma KindsGrow(lower: Lower, a: seq<Item>, b: seq<Item>, category: string)
    ensures Kinds(lower, a, category) <= Kinds(lower, a + b, category)
    ensures Kinds(lower, b, category) <= Kinds(lower, a + b, category)
  {
    hide Normalise, Text.Trim;
    assert forall i :: 0 <= i < |a| ==> (a + b)[i] == a[i];
    forall i | 0 <= i < |b|
      ensures (a + b)[|a| + i] == b[i]
    {
    }
    forall kind | kind in Kinds(lower, b, category)
      ensures kind in Kinds(lower, a + b, category)
    {
      var i :| 0 <= i < |b| && Trim(b[i].description) != "" && Trim(b[i].category) == category &&
               kind == Normalise(lower, Trim(b[i].description));
      assert (a + b)[|a| + i] == b[i];
    }
  }

  /**
   * While no category passes 30 distinct kinds, the count on file for every kind of every category is
   * exactly the number of times it was submitted, although every update went through print and parse.
   */
  lemma {:induction false} CountsAreExact(lower: Lower, history: seq<Submission>, category: string, kind: string)
    requires CleanHistory(history)
    requires |Kinds(lower, Submitted(history), category)| <= MAX_PATTERNS_PER_CATEGORY
    ensures var ps := Read(FileAfter(lower, history)).patterns;
            CountOf(lower, ps, category, kind) == Tally(lower, Submitted(history), category, kind) &&
            FromKinds(lower, Items(ps, category), Kinds(lower, Submitted(history), category))
    decreases |history|
  {
    hide GoodPatterns, OnePerKindEverywhere, CountOf, Tally, Update, Parse, CleanItems, FromKinds, Kinds, Items, Merge,
         PrintedItems, OnePerKind;
    if history == [] {
      EmptyStateIsGood(lower);
      TallyOfNothing(lower, category, kind);
      assert FromKinds(lower, Items([], category), Kinds(lower, Submitted(history), category)) by {
        NothingFromKinds(lower, category, Kinds(lower, Submitted(history), category));
      }
    } else {
      var n := |history| - 1;
      var earlier, last := Submitted(history[..n]), history[n];
      var kinds := Kinds(lower, Submitted(history), category);
      var file := FileAfter(lower, history[..n]);
      KindsGrow(lower, earlier, last.items, category);
      SubsetSize(Kinds(lower, earlier, category), kinds);
      CountsAreExact(lower, history[..n], category, kind);
      CountsNeverExceed(lower, history[..n], category, kind);
      FromMoreKinds(lower, Items(Read(file).patterns, category), Kinds(lower, earlier, category), kinds);
      MergeFromKinds(lower, Read(file).patterns, last.items, category, kinds);
      var merged := Merge(lower, Read(file).patterns, last.items);
      CountOfMerge(lower, Read(file).patterns, last.items, category, kind);
      MergedIsSmall(lower, merged, category, kinds);
      CountAfterUpdate(lower, file, last.items, last.distillation, category, kind);
      PrintedFromKinds(lower, Items(merged, category), kinds);
      TallyAppend(lower, earlier, last.items, category, kind);
    }
  }

  lemma TallyOfNothing(lower: Lower, category: string, kind: string)
    ensures Tally(lower, [], category, kind) == 0
  {
  }

  lemma NothingFromKinds(lower: Lower, category: string, kinds: set<string>)
    ensures FromKinds(lower, Items([], category), kinds)
  {
  }

  lemma FromMoreKinds(lower: Lower, items: seq<Pattern>, few: set<string>, many: set<string>)
    requires FromKinds(lower, items, few) && few <= many
    ensures FromKinds(lower, items, many)
  {
    hide Normalise;
  }

  lemma MergedIsSmall(lower: Lower, merged: seq<Category>, category: string, kinds: set<string>)
    requires OnePerKindEverywhere(lower, merged) && FromKinds(lower, Items(merged, category), kinds)
    ensures |Items(merged, category)| <= |kinds|
  {
    hide Normalise, Items, Measure;
    assert OnePerKind(lower, Items(merged, category));
    FewerThanKinds(lower, Items(merged, category), kinds);
  }

  lemma SubsetSize(a: set<string>, b: set<string>)
    requires a <= b
    ensures |a| <= |b|
  {
    assert b == a + (b - a);
  }

  /** Read pattern by pattern: each one carries the number of times its kind was submitted. */
  lemma EveryPatternCarriesItsTally(lower: Lower, history: seq<Submission>, category: string, i: nat)
    requires CleanHistory(history)
    requires |Kinds(lower, Submitted(history), category)| <= MAX_PATTERNS_PER_CATEGORY
    requires i < |Items(Read(FileAfter(lower, history)).patterns, category)|
    ensures var p := Items(Read(FileAfter(lower, history)).patterns, category)[i];
            p.count == Tally(lower, Submitted(history), category, Normalise(lower, p.description))
  {
    hide Normalise, Read, FileAfter, GoodPatterns, Kinds, Tally, FromKinds, Measure;
    var items := Items(Read(FileAfter(lower, history)).patterns, category);
    var kind := Normalise(lower, items[i].description);
    CountsAreExact(lower, history, category, kind);
    CountsNeverExceed(lower, history, category, kind);
    assert OnePerKind(lower, items);
    OnlyOneShares(lower, items, i);
  }

  lemma OnlyOneShares(lower: Lower, items: seq<Pattern>, i: nat)
    requires i < |items| && Measure(lower, items, Normalise(lower, items[i].description), false) <= 1
    ensures Measure(lower, items, Normalise(lower, items[i].description), true) == items[i].count
    decreases |items|
  {
    hide Normalise;
    var n, kind := |items| - 1, Normalise(lower, items[i].description);
    if i < n {
      MeasurePositive(lower, items[..n], i);
      OnlyOneShares(lower, items[..n], i);
    } else {
      NoneShares(lower, items[..n], kind);
    }
  }

  lemma {:induction false} NoneShares(lower: Lower, items: seq<Pattern>, kind: string)
    requires Measure(lower, items, kind, false) == 0
    ensures Measure(lower, items, kind, true) == 0
  {
    hide Normalise;
    if items != [] {
      NoneShares(lower, items[..|items| - 1], kind);
    }
  }

  // ---- beyond thirty kinds ----

  lemma CompactedIsSmall(lower: Lower, items: seq<Pattern>)
    ensures |PrintedItems(lower, CompactItems(lower, items))| <= MAX_PATTERNS_PER_CATEGORY
  {
    hide PrintedItems;
    PrintedItemsLength(lower, items);
    PrintedItemsLength(lower, CompactItems(lower, items));
  }

  /** No category on file ever has more than 30 patterns. */
  lemma BucketsAreSmall(lower: Lower, history: seq<Submission>, category: string)
    requires CleanHistory(history)
    ensures |Items(Read(FileAfter(lower, history)).patterns, category)| <= MAX_PATTERNS_PER_CATEGORY
  {
    hide GoodPatterns, OnePerKindEverywhere, CountOf, Tally, Update, Read, CleanItems, Merge, CompactCategories,
         PrintedPatterns, PrintedItems, CompactItems;
    if history == [] {
      EmptyStateIsGood(lower);
      NothingOnFile(category);
    } else {
      var n := |history| - 1;
      var last, file := history[n], FileAfter(lower, history[..n]);
      CountsNeverExceed(lower, history[..n], category, "");
      var merged := Merge(lower, Read(file).patterns, last.items);
      ReadAfterUpdate(lower, file, last.items, last.distillation);
      ItemsOfPrinted(lower, CompactCategories(lower, merged), category);
      ItemsOfCompact(lower, merged, category);
      CompactedIsSmall(lower, Items(merged, category));
    }
  }

  lemma NothingOnFile(category: string)
    ensures Items(Read(None).patterns, category) == []
  {
  }

  function KindsOf(lower: Lower, items: seq<Pattern>): set<string> {
    set i | 0 <= i < |items| :: Normalise(lower, items[i].description)
  }

  lemma {:induction false} KindsOfSize(lower: Lower, items: seq<Pattern>)
    ensures |KindsOf(lower, items)| <= |items|
  {
    hide Normalise;
    if items != [] {
      var n := |items| - 1;
      KindsOfSize(lower, items[..n]);
      assert KindsOf(lower, items) == KindsOf(lower, items[..n]) + {Normalise(lower, items[n].description)};
    }
  }

  lemma {:induction false} AbsentCountsNothing(lower: Lower, items: seq<Pattern>, kind: string)
    requires kind !in KindsOf(lower, items)
    ensures Measure(lower, items, kind, true) == 0
  {
    hide Normalise;
    if items != [] {
      var n := |items| - 1;
      assert Normalise(lower, items[n].description) in KindsOf(lower, items);
      assert forall i :: 0 <= i < n ==> items[..n][i] == items[i];
      AbsentCountsNothing(lower, items[..n], kind);
    }
  }

  lemma {:induction false} KindIsTallied(lower: Lower, items: seq<Item>, category: string, kind: string)
    requires kind in Kinds(lower, items, category)
    ensures Tally(lower, items, category, kind) > 0
  {
    hide Normalise, Text.Trim;
    var n := |items| - 1;
    if !Submits(lower, items[n], category, kind) {
      var i :| 0 <= i < |items| && Submits(lower, items[i], category, kind);
      assert items[..n][i] == items[i];
      assert kind in Kinds(lower, items[..n], category);
      KindIsTallied(lower, items[..n], category, kind);
    }
  }

  /** With more kinds than a category keeps, some submitted kind has no count left. */
  lemma SomeKindIsForgotten(lower: Lower, history: seq<Submission>, category: string) returns (kind: string)
    requires CleanHistory(history)
    requires |Kinds(lower, Submitted(history), category)| > MAX_PATTERNS_PER_CATEGORY
    ensures CountOf(lower, Read(FileAfter(lower, history)).patterns, category, kind) == 0
    ensures Tally(lower, Submitted(history), category, kind) > 0
  {
    hide Kinds, KindsOf, Read, FileAfter, Items, Tally, Measure, CleanHistory;
    var items := Items(Read(FileAfter(lower, history)).patterns, category);
    var kinds, present := Kinds(lower, Submitted(history), category), KindsOf(lower, items);
    BucketsAreSmall(lower, history, category);
    KindsOfSize(lower, items);
    if kinds <= present {
      SubsetSize(kinds, present);
      assert false;
    }
    kind :| kind in kinds && kind !in present;
    AbsentCountsNothing(lower, items, kind);
    KindIsTallied(lower, Submitted(history), category, kind);
  }

  /** The bound of 30 kinds is exact: all counts of a category are right if and only if it has no more. */
  lemma CountsAreExactIff(lower: Lower, history: seq<Submission>, category: string)
    requires CleanHistory(history)
    ensures (forall kind :: CountOf(lower, Read(FileAfter(lower, history)).patterns, category, kind) ==
                            Tally(lower, Submitted(history), category, kind)) <==>
            |Kinds(lower, Submitted(history), category)| <= MAX_PATTERNS_PER_CATEGORY
  {
    hide CountOf, Read, FileAfter, Tally, Kinds, CleanHistory, Submitted;
    if |Kinds(lower, Submitted(history), category)| <= MAX_PATTERNS_PER_CATEGORY {
      forall kind
        ensures CountOf(lower, Read(FileAfter(lower, history)).patterns, category, kind) ==
                Tally(lower, Submitted(history), category, kind)
      {
        CountsAreExact(lower, history, category, kind);
      }
    } else {
      var kind := SomeKindIsForgotten(lower, history, category);
    }
  }
}
