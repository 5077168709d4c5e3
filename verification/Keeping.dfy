/** What an update of the memory file keeps and what a query of it returns (memory/store.py). */
module Keeping {
  import opened Wrappers
  import opened Text
  import opened Sorting
  import opened Schema
  import opened RoundTrip
  import opened Normalisation
  import opened Store

  // ---------------------------------------------------------------------------------------------
  // Which patterns are kept
  // ---------------------------------------------------------------------------------------------

  lemma PatternOrderIsTotal(lower: Lower)
    ensures TotalPreorder(PatternOrder(lower))
  {
    var le := PatternOrder(lower);
    forall x, y
      ensures le(x, y) || le(y, x)
    {
      LexTotal(lower(x.description), lower(y.description));
    }
    forall x, y, z | le(x, y) && le(y, z)
      ensures le(x, z)
    {
      if x.count == y.count == z.count {
        LexTransitive(lower(x.description), lower(y.description), lower(z.description));
      }
    }
  }

  lemma PrintedIsSorted(lower: Lower, items: seq<Pattern>)
    ensures PrintedItems(lower, items) == SortBy(PatternOrder(lower), items)
    ensures Sorted(PatternOrder(lower), PrintedItems(lower, items))
  {
    PatternOrderIsTotal(lower);
    SortBySorts(PatternOrder(lower), items);
  }

  /** What is kept of a category is what comes first, by higher count and then by lower-cased text. */
  lemma CompactKeepsTheFirst(lower: Lower, items: seq<Pattern>)
    ensures var kept := PrintedItems(lower, CompactItems(lower, items));
            && |kept| == (if |items| > 30 then 30 else |items|)
            && multiset(kept) <= multiset(items)
            && Sorted(PatternOrder(lower), kept)
            && forall p, q :: p in kept && multiset(items)[q] > multiset(kept)[q] ==> PatternOrder(lower)(p, q)
  {
    hide PrintedItems, PatternOrder;
    var sorted, cut := PrintedItems(lower, items), CompactItems(lower, items);
    PrintedIsPermutation(lower, items);
    PrintedIsSorted(lower, items);
    PrintedIsPermutation(lower, cut);
    PrintedIsSorted(lower, cut);
    if |items| > MAX_PATTERNS_PER_CATEGORY {
      PrefixComesFirst(PatternOrder(lower), sorted, MAX_PATTERNS_PER_CATEGORY);
      var kept := PrintedItems(lower, cut);
      forall p, q | p in kept && multiset(items)[q] > multiset(kept)[q]
        ensures PatternOrder(lower)(p, q)
      {
        assert p in multiset(cut);
      }
    }
  }

  lemma PrintedIsPermutation(lower: Lower, items: seq<Pattern>)
    ensures multiset(PrintedItems(lower, items)) == multiset(items) && |PrintedItems(lower, items)| == |items|
  {
  }

  /**
   * One update of any good file, read back: of every category, all merged patterns, or the first 30 in the
   * order of falling counts and, at equal counts, rising lower-cased text; and in that order.
   */
  lemma UpdateKeepsTheMostFrequent(lower: Lower, file: Option<string>, items: seq<Item>, d: Option<Distillation>,
                                   category: string)
    requires GoodPatterns(Read(file).patterns) && CleanItems(items)
    ensures var merged := Items(Merge(lower, Read(file).patterns, items), category);
            var kept := Items(Read(Some(Update(lower, file, items, d))).patterns, category);
            && |kept| == (if |merged| > 30 then 30 else |merged|)
            && multiset(kept) <= multiset(merged)
            && (forall p, q :: p in kept && multiset(merged)[q] > multiset(kept)[q] ==>
                  p.count > q.count || (p.count == q.count && LexLe(lower(p.description), lower(q.description))))
            && forall i, j :: 0 <= i < j < |kept| ==>
                 kept[i].count > kept[j].count
                 || (kept[i].count == kept[j].count && LexLe(lower(kept[i].description), lower(kept[j].description)))
  {
    hide Merge, Read, Update, Items, CompactItems, CompactCategories, PrintedItems, PrintedPatterns, GoodPatterns,
         LexLe, CleanItems;
    var merged := Merge(lower, Read(file).patterns, items);
    ReadAfterUpdate(lower, file, items, d);
    ItemsOfPrinted(lower, CompactCategories(lower, merged), category);
    ItemsOfCompact(lower, merged, category);
    CompactKeepsTheFirst(lower, Items(merged, category));
    assert forall p, q :: PatternOrder(lower)(p, q) ==> PatternLe(lower, p, q);
  }

  /** The categories on file after an update: those there were and those submitted to, in code-point order. */
  lemma UpdateKeepsCategories(lower: Lower, file: Option<string>, items: seq<Item>, d: Option<Distillation>)
    requires GoodPatterns(Read(file).patterns) && CleanItems(items)
    ensures var after := Read(Some(Update(lower, file, items, d))).patterns;
            && (forall name :: HasCategory(after, name) <==>
                  HasCategory(Read(file).patterns, name) || SubmittedTo(items, name))
            && forall i, j :: 0 <= i < j < |after| ==> LexLe(after[i].name, after[j].name)
  {
    hide Merge, Read, Update, CompactItems, CompactCategories, PrintedItems, PrintedCategories, GoodPatterns, LexLe,
         CleanItems, HasCategory;
    var before := Read(file).patterns;
    var merged := Merge(lower, before, items);
    var cut := CompactCategories(lower, merged);
    ReadAfterUpdate(lower, file, items, d);
    forall name
      ensures HasCategory(PrintedPatterns(lower, cut), name) <==>
              HasCategory(before, name) || SubmittedTo(items, name)
    {
      MergeHas(lower, before, items, name);
      CompactHas(lower, merged, name);
      PrintedHas(lower, cut, name);
    }
    CategoriesAreSorted(lower, cut);
  }

  /** Some submitted item with a description names the category. */
  predicate SubmittedTo(items: seq<Item>, name: string) {
    exists i :: 0 <= i < |items| && Trim(items[i].description) != "" && Trim(items[i].category) == name
  }

  lemma {:induction false} PutHas(ps: seq<Category>, name: string, items: seq<Pattern>, other: string)
    ensures HasCategory(Put(ps, name, items), other) <==> HasCategory(ps, other) || other == name
  {
    var after := Put(ps, name, items);
    if ps == [] {
      assert after[0].name == name;
    } else {
      assert HasCategory(ps, other) <==> ps[0].name == other || HasCategory(ps[1..], other) by {
        FirstOrRest(ps, other);
      }
      FirstOrRest(after, other);
      if ps[0].name != name {
        assert after[1..] == Put(ps[1..], name, items);
        PutHas(ps[1..], name, items, other);
      } else {
        assert after[1..] == ps[1..];
      }
    }
  }

  lemma FirstOrRest(ps: seq<Category>, name: string)
    requires ps != []
    ensures HasCategory(ps, name) <==> ps[0].name == name || HasCategory(ps[1..], name)
  {
    if HasCategory(ps[1..], name) {
      var i :| 0 <= i < |ps[1..]| && ps[1..][i].name == name;
      assert ps[i + 1].name == name;
    }
    if HasCategory(ps, name) && ps[0].name != name {
      var i :| 0 <= i < |ps| && ps[i].name == name;
      assert ps[1..][i - 1].name == name;
    }
  }

  lemma {:induction false} MergeHas(lower: Lower, ps: seq<Category>, items: seq<Item>, name: string)
    ensures HasCategory(Merge(lower, ps, items), name) <==> HasCategory(ps, name) || SubmittedTo(items, name)
  {
    hide HasCategory, Text.Trim, Bump, Put, Items;
    if items != [] {
      var n := |items| - 1;
      var init, item := items[..n], items[n];
      MergeHas(lower, ps, init, name);
      var before := Merge(lower, ps, init);
      var own, description := Trim(item.category), Trim(item.description);
      PutHas(before, own, Bump(lower, Items(before, own), description), name);
      assert SubmittedTo(items, name) <==> SubmittedTo(init, name) || (description != "" && own == name) by {
        if SubmittedTo(init, name) {
          var i :| 0 <= i < n && Trim(init[i].description) != "" && Trim(init[i].category) == name;
          assert items[i] == init[i];
        }
        if i :| 0 <= i < |items| && Trim(items[i].description) != "" && Trim(items[i].category) == name {
          assert i < n ==> init[i] == items[i];
        }
      }
    }
  }

  lemma CompactHas(lower: Lower, ps: seq<Category>, name: string)
    ensures HasCategory(CompactCategories(lower, ps), name) <==> HasCategory(ps, name)
  {
    hide CompactItems;
    var after := CompactCategories(lower, ps);
    assert forall i :: 0 <= i < |ps| ==> after[i].name == ps[i].name;
  }

  lemma PrintedHas(lower: Lower, ps: seq<Category>, name: string)
    ensures HasCategory(PrintedPatterns(lower, ps), name) <==> HasCategory(ps, name)
  {
    hide PrintedItems, PrintedCategories;
    var sorted, after := PrintedCategories(ps), PrintedPatterns(lower, ps);
    SortedCategoriesMembers(ps);
    assert forall i :: 0 <= i < |sorted| ==> after[i].name == sorted[i].name;
    if HasCategory(ps, name) {
      var i :| 0 <= i < |ps| && ps[i].name == name;
      assert ps[i] in sorted;
      var j :| 0 <= j < |sorted| && sorted[j] == ps[i];
      assert after[j].name == name;
    }
    if HasCategory(after, name) {
      var j :| 0 <= j < |after| && after[j].name == name;
      assert sorted[j] in ps;
    }
  }

  lemma CategoriesAreSorted(lower: Lower, ps: seq<Category>)
    ensures var after := PrintedPatterns(lower, ps);
            forall i, j :: 0 <= i < j < |after| ==> LexLe(after[i].name, after[j].name)
  {
    hide PrintedItems;
    var le := (a: Category, b: Category) => LexLe(a.name, b.name);
    NameOrderIsTotal(le);
    SortBySorts(le, ps);
    hide SortBy, LexLe;
    var sorted := PrintedCategories(ps);
    assert sorted == SortBy(le, ps);
    forall i, j | 0 <= i < j < |sorted|
      ensures LexLe(sorted[i].name, sorted[j].name)
    {
      assert le(sorted[i], sorted[j]);
    }
  }

  lemma NameOrderIsTotal(le: (Category, Category) -> bool)
    requires forall a, b :: le(a, b) == LexLe(a.name, b.name)
    ensures TotalPreorder(le)
  {
    forall x, y
      ensures le(x, y) || le(y, x)
    {
      LexTotal(x.name, y.name);
    }
    forall x, y, z | le(x, y) && le(y, z)
      ensures le(x, z)
    {
      LexTransitive(x.name, y.name, z.name);
    }
  }

  // ---- what a merge does to the patterns there are ----

  /** A merge changes no description and no order, lowers no count, and adds submitted descriptions at the end. */
  lemma {:induction false} MergeOnlyAdds(lower: Lower, ps: seq<Category>, items: seq<Item>, category: string)
    ensures var before, after := Items(ps, category), Items(Merge(lower, ps, items), category);
            && |before| <= |after|
            && (forall i :: 0 <= i < |before| ==>
                  after[i].description == before[i].description && after[i].count >= before[i].count)
            && forall i :: |before| <= i < |after| ==>
                 after[i].count > 0 && SubmittedAs(items, category, after[i].description)
  {
    hide Text.Trim, Bump, Put, Items;
    if items != [] {
      var n := |items| - 1;
      var init, item := items[..n], items[n];
      MergeOnlyAdds(lower, ps, init, category);
      var mid := Merge(lower, ps, init);
      var own, description := Trim(item.category), Trim(item.description);
      var bucket := Items(mid, own);
      ItemsOfPut(mid, own, Bump(lower, bucket, description), category);
      BumpOnlyAdds(lower, bucket, description);
      forall text | SubmittedAs(init, category, text)
        ensures SubmittedAs(items, category, text)
      {
        var i :| 0 <= i < |init| && Trim(init[i].category) == category && Trim(init[i].description) == text != "";
        assert items[i] == init[i];
      }
      assert description != "" ==> SubmittedAs(items, own, description);
    }
  }

  /** The text was submitted under the category. */
  predicate SubmittedAs(items: seq<Item>, category: string, text: string) {
    exists i :: 0 <= i < |items| && Trim(items[i].category) == category && Trim(items[i].description) == text != ""
  }

  lemma {:induction false} BumpOnlyAdds(lower: Lower, bucket: seq<Pattern>, description: string)
    ensures var after := Bump(lower, bucket, description);
            && |bucket| <= |after| <= |bucket| + 1
            && (forall i :: 0 <= i < |bucket| ==>
                  after[i].description == bucket[i].description && after[i].count >= bucket[i].count)
            && (|after| > |bucket| ==> after[|bucket|] == Pattern(description, 1))
    decreases |bucket|
  {
    hide Normalise;
    if bucket != [] && Normalise(lower, bucket[0].description) != Normalise(lower, description) {
      var rest := Bump(lower, bucket[1..], description);
      BumpOnlyAdds(lower, bucket[1..], description);
      var after := Bump(lower, bucket, description);
      assert after == [bucket[0]] + rest;
      assert forall i :: 0 < i < |after| ==> after[i] == rest[i - 1];
      assert forall i :: 0 < i < |bucket| ==> bucket[i] == bucket[1..][i - 1];
    }
  }

  // ---------------------------------------------------------------------------------------------
  // Distillations
  // ---------------------------------------------------------------------------------------------

  predicate GoodDistillation(d: Option<Distillation>) {
    d.Some? && d.value.summary != "" ==> PlainDistillation(d.value) && DateOk(d.value.date)
  }

  /** The submitted distillation, if it says anything. */
  function Added(d: Option<Distillation>): seq<Distillation> {
    if d.Some? && d.value.summary != "" then [d.value] else []
  }

  /** The last `n` elements, or all of them. */
  predicate IsLast<T(==)>(kept: seq<T>, all: seq<T>, n: nat) {
    |kept| == (if |all| < n then |all| else n) && kept == all[|all| - |kept|..]
  }

  /** One update, read back, leaves the last 20 of the distillations on file and the submitted one. */
  lemma DistillationIsReadBack(lower: Lower, file: Option<string>, items: seq<Item>, d: Option<Distillation>)
    requires GoodPatterns(Read(file).patterns) && CleanItems(items)
    requires GoodDistillations(Read(file).distillations) && GoodDistillation(d)
    ensures var after := Read(Some(Update(lower, file, items, d))).distillations;
            IsLast(after, Read(file).distillations + Added(d), 20) && GoodDistillations(after)
  {
    hide GoodPatterns, Merge, CompactCategories, PrintedPatterns, Parse, Render, PlainDistillation, DateOk;
    var read := Read(file);
    MergeKeepsGood(lower, read.patterns, items);
    var merged := Merge(lower, read.patterns, items);
    CompactKeepsGood(lower, merged);
    var whole := WithDistillation(read.(patterns := merged), d);
    assert whole.distillations == read.distillations + Added(d);
    var s := Compact(lower, whole);
    assert s.patterns == CompactCategories(lower, merged);
    assert GoodDistillations(s.distillations);
    StateRoundTrip(lower, s);
  }

  /** All distillations submitted over a history that say anything, in order. */
  function AllAdded(history: seq<Submission>): seq<Distillation> {
    if history == [] then [] else AllAdded(history[..|history| - 1]) + Added(history[|history| - 1].distillation)
  }

  /** Over any run of updates the file holds the last 20 submitted distillations. */
  lemma {:induction false} LastTwentyAreKept(lower: Lower, history: seq<Submission>)
    requires CleanHistory(history) && forall i :: 0 <= i < |history| ==> GoodDistillation(history[i].distillation)
    ensures var kept := Read(FileAfter(lower, history)).distillations;
            IsLast(kept, AllAdded(history), 20) && GoodDistillations(kept)
  {
    hide GoodDistillation, GoodDistillations, Update, Parse, CleanItems, IsLast, GoodPatterns, Added;
    if history == [] {
      assert IsLast<Distillation>([], [], 20) && GoodDistillations([]) by { NothingIsLast(); }
    } else {
      var n := |history| - 1;
      var last := history[n];
      LastTwentyAreKept(lower, history[..n]);
      CountsNeverExceed(lower, history[..n], "", "");
      DistillationIsReadBack(lower, FileAfter(lower, history[..n]), last.items, last.distillation);
      LastOfLast(Read(FileAfter(lower, history[..n])).distillations, AllAdded(history[..n]), Added(last.distillation),
                 Read(FileAfter(lower, history)).distillations);
    }
  }

  lemma NothingIsLast()
    ensures IsLast<Distillation>([], [], 20) && GoodDistillations([])
  {
  }

  lemma LastOfLast(kept: seq<Distillation>, all: seq<Distillation>, more: seq<Distillation>, after: seq<Distillation>)
    requires IsLast(kept, all, 20) && IsLast(after, kept + more, 20)
    ensures IsLast(after, all + more, 20)
  {
    var whole, short := all + more, kept + more;
    assert short == whole[|whole| - |short|..];
    assert |after| == if |whole| < 20 then |whole| else 20;
    assert short[|short| - |after|..] == whole[|whole| - |after|..];
  }

  // ---------------------------------------------------------------------------------------------
  // Queries
  // ---------------------------------------------------------------------------------------------

  /** The query asks for this entry: its category, and its lower-cased text contains what was asked for. */
  predicate Asked(lower: Lower, ps: seq<Category>, category: string, contains: string, f: Found) {
    && (if category == "" then HasCategory(ps, f.category) else f.category == category)
    && var text, needle := lower(f.pattern.description), lower(Trim(contains));
       needle == "" || exists i, j :: 0 <= i <= j <= |text| && text[i..j] == needle
  }

  /** How often an answer may contain an entry: as often as its pattern is on file, if it is asked for. */
  function TimesOnFile(lower: Lower, ps: seq<Category>, category: string, contains: string, f: Found): nat {
    if Asked(lower, ps, category, contains, f) then multiset(Items(ps, f.category))[f.pattern] else 0
  }

  lemma MatchingMeaning(lower: Lower, p: Pattern, needle: string)
    ensures var text := lower(p.description);
            Matching(lower, p, needle) <==>
            needle == "" || exists i, j :: 0 <= i <= j <= |text| && text[i..j] == needle
  {
    var text := lower(p.description);
    if i :| 0 <= i <= |text| && needle <= text[i..] {
      assert text[i..i + |needle|] == needle;
    }
    if i, j :| 0 <= i <= j <= |text| && text[i..j] == needle {
      assert needle <= text[i..];
    }
  }

  lemma {:induction false} MatchesInTimes(lower: Lower, name: string, items: seq<Pattern>, needle: string, f: Found)
    ensures multiset(MatchesIn(lower, name, items, needle))[f] ==
            if f.category == name && Matching(lower, f.pattern, needle) then multiset(items)[f.pattern] else 0
  {
    hide Matching;
    if items != [] {
      var n := |items| - 1;
      MatchesInTimes(lower, name, items[..n], needle, f);
      assert items == items[..n] + [items[n]];
    }
  }

  lemma {:induction false} MatchesTimes(lower: Lower, ps: seq<Category>, names: seq<string>, needle: string, f: Found)
    requires forall i, j :: 0 <= i < j < |names| ==> names[i] != names[j]
    ensures multiset(Matches(lower, ps, names, needle))[f] ==
            if f.category in names && Matching(lower, f.pattern, needle)
            then multiset(Items(ps, f.category))[f.pattern] else 0
  {
    hide Matching, Items, MatchesIn;
    if names != [] {
      var n := |names| - 1;
      MatchesTimes(lower, ps, names[..n], needle, f);
      MatchesInTimes(lower, names[n], Items(ps, names[n]), needle, f);
      assert names == names[..n] + [names[n]];
      assert f.category in names <==> f.category in names[..n] || f.category == names[n];
      assert f.category in names[..n] ==> f.category != names[n];
    }
  }

  lemma AllMatchesTimes(lower: Lower, ps: seq<Category>, category: string, contains: string, f: Found)
    requires DistinctCategories(ps)
    ensures multiset(AllMatches(lower, ps, category, contains))[f] == TimesOnFile(lower, ps, category, contains, f)
  {
    hide Matching, Items, Matches, Text.Trim, Asked;
    var names := if category != "" then [category] else Names(ps);
    MatchesTimes(lower, ps, names, lower(Trim(contains)), f);
    AskedIff(lower, ps, names, category, contains, f);
  }

  lemma AskedIff(lower: Lower, ps: seq<Category>, names: seq<string>, category: string, contains: string, f: Found)
    requires names == if category != "" then [category] else Names(ps)
    ensures Asked(lower, ps, category, contains, f) <==>
              f.category in names && Matching(lower, f.pattern, lower(Trim(contains)))
  {
    hide Matching, Text.Trim;
    MatchingMeaning(lower, f.pattern, lower(Trim(contains)));
    if category == "" && HasCategory(ps, f.category) {
      var i :| 0 <= i < |ps| && ps[i].name == f.category;
      assert names[i] == f.category;
    }
  }

  /**
   * The answer to a query. It holds only entries asked for, none more often than on file; it has `topN` of
   * them, at least one, or all there are; it is in the order of falling counts and then rising lower-cased
   * text; and what it leaves out of what was asked for comes after everything in it.
   */
  lemma QueryAnswersExactly(lower: Lower, ps: seq<Category>, category: string, topN: int, contains: string)
    requires DistinctCategories(ps)
    ensures var r := Top(lower, ps, category, topN, contains);
            && (forall f :: multiset(r)[f] <= TimesOnFile(lower, ps, category, contains, f))
            && |r| <= (if topN > 1 then topN else 1)
            && (forall f :: multiset(r)[f] < TimesOnFile(lower, ps, category, contains, f) ==>
                  |r| == (if topN > 1 then topN else 1) && forall g :: g in r ==> NotAfter(lower, g, f))
            && forall i, j :: 0 <= i < j < |r| ==> NotAfter(lower, r[i], r[j])
  {
    hide AllMatches, SortBy, FoundOrder, TimesOnFile, NotAfter;
    var all := AllMatches(lower, ps, category, contains);
    var le := FoundOrder(lower);
    var sorted := SortBy(le, all);
    var n := Least(|sorted|, if topN > 1 then topN else 1);
    FoundOrderIsTotal(lower);
    SortBySorts(le, all);
    PrefixComesFirst(le, sorted, n);
    assert forall f, g :: le(f, g) ==> NotAfter(lower, f, g) by { FoundOrderMeaning(lower); }
    forall f
      ensures multiset(all)[f] == TimesOnFile(lower, ps, category, contains, f)
    {
      AllMatchesTimes(lower, ps, category, contains, f);
    }
    var r := sorted[..n];
    assert Top(lower, ps, category, topN, contains) == r;
    assert multiset(sorted) == multiset(all);
    assert |r| == |sorted| ==> r == sorted;
  }

  /** By higher count, then by lower-cased text. */
  predicate NotAfter(lower: Lower, f: Found, g: Found) {
    || f.pattern.count > g.pattern.count
    || (f.pattern.count == g.pattern.count && LexLe(lower(f.pattern.description), lower(g.pattern.description)))
  }

  lemma FoundOrderMeaning(lower: Lower)
    ensures forall f, g :: FoundOrder(lower)(f, g) == NotAfter(lower, f, g)
  {
  }
}
