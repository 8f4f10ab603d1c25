/** The coping-tools page: the category and search filter over the tool
    catalogue, the counts on the category buttons, the effectiveness lookup
    of a tool card and the "most effective" list. */
module CopingToolsPage {
  import opened Wrappers
  import opened Seqs
  import opened Text
  import opened CopingTools

  /** The category filter: 'all' keeps every tool, 'crisis' the crisis
      tools, any other value the tools of that category. */
  predicate InCategory(t: CopingTool, category: string) {
    if category == "all" then true
    else if category == "crisis" then t.isCrisisTool
    else t.category == category
  }

  /** Some tag contains the lower-cased query. */
  predicate TagMatches(tags: seq<string>, q: string) {
    exists i :: 0 <= i < |tags| && Contains(ToLower(tags[i]), q)
  }

  /** The search filter: an empty query keeps every tool; otherwise the
      name, the description or a tag contains it, ignoring case. */
  predicate MatchesSearch(t: CopingTool, query: string) {
    query == "" ||
    var q := ToLower(query);
    Contains(ToLower(t.name), q) || Contains(ToLower(t.description), q) || TagMatches(t.tags, q)
  }

  /** `filterTools()`: the category filter, then the search filter. */
  function FilterTools(tools: seq<CopingTool>, category: string, query: string): (r: seq<CopingTool>)
    ensures r == Filter(tools, t => InCategory(t, category) && MatchesSearch(t, query))
    ensures IsSubsequence(r, tools)
    ensures forall t :: t in tools ==> (t in r <==> InCategory(t, category) && MatchesSearch(t, query))
  {
    var byCategory := if category != "all" then Filter(tools, t => InCategory(t, category)) else tools;
    var r := if query != "" then Filter(byCategory, t => MatchesSearch(t, query)) else byCategory;
    FilterSteps(tools, category, query);
    r
  }

  /** The two optional filters compose into one. */
  lemma FilterSteps(tools: seq<CopingTool>, category: string, query: string)
    ensures var byCategory := if category != "all" then Filter(tools, t => InCategory(t, category)) else tools;
      (if query != "" then Filter(byCategory, t => MatchesSearch(t, query)) else byCategory) ==
      Filter(tools, t => InCategory(t, category) && MatchesSearch(t, query))
  {
    OptionalFilters(tools, t => InCategory(t, category), t => MatchesSearch(t, query),
      t => InCategory(t, category) && MatchesSearch(t, query), category != "all", query != "");
  }

  /** The count shown on a category button. */
  function CategoryCount(tools: seq<CopingTool>, category: string): nat {
    if category == "all" then |tools|
    else if category == "crisis" then Count(tools, (t: CopingTool) => t.isCrisisTool)
    else Count(tools, (t: CopingTool) => t.category == category)
  }

  /** A button's count is the number of tools its category shows while the
      search box is empty. */
  lemma CategoryCountMatchesFilter(tools: seq<CopingTool>, category: string)
    ensures CategoryCount(tools, category) == |FilterTools(tools, category, "")|
  {
    var p := t => InCategory(t, category) && MatchesSearch(t, "");
    if category == "all" {
      FilterAll(tools, p);
    } else if category == "crisis" {
      FilterSame(tools, p, (t: CopingTool) => t.isCrisisTool);
    } else {
      FilterSame(tools, p, (t: CopingTool) => t.category == category);
    }
  }

  /** `getToolEffectiveness(toolId)` of the page: the average rating and use
      count of the first record naming the tool. */
  function EffectivenessFor(records: seq<ToolEffectiveness>, toolId: string): (r: Option<(real, int)>)
    ensures r.Some? <==> exists i :: 0 <= i < |records| && records[i].toolId == Some(toolId)
    ensures r.Some? ==> exists i :: (0 <= i < |records| && records[i].toolId == Some(toolId) &&
      r.value == (records[i].avgEffectiveness, records[i].usageCount))
  {
    match Find(records, (e: ToolEffectiveness) => e.toolId == Some(toolId))
    case None => None
    case Some(e) => Some((e.avgEffectiveness, e.usageCount))
  }

  /** As written, no tool card ever finds its statistics: the summary
      records carry no tool id to compare with. */
  lemma LookupMissesAsWritten(acc: seq<ToolStats>, toolId: string)
    requires forall i :: 0 <= i < |acc| ==> acc[i].usageCount >= 1
    ensures EffectivenessFor(PublishedAsWritten(acc), toolId) == None
  {
  }

  /** With the tool id in each record, a tool's card shows its own average
      and use count exactly when it has rated uses. */
  lemma LookupFindsRatedTool(us: seq<Rated>, toolId: string)
    ensures var found := EffectivenessFor(Published(Tally(us)), toolId);
      (found.Some? <==> UsedTool(us, toolId)) &&
      (found.Some? ==>
        found.value.1 == UsesOf(us, toolId) && found.value.0 == RatingsOf(us, toolId) as real / UsesOf(us, toolId) as real)
  {
    TallySummarizes(us);
    LookupInSummary(Tally(us), us, toolId);
  }

  /** The lookup over the records published from any accumulator that
      summarizes the uses. */
  lemma LookupInSummary(acc: seq<ToolStats>, us: seq<Rated>, toolId: string)
    requires forall i :: 0 <= i < |acc| ==> acc[i].usageCount >= 1
    requires Summarizes(acc, us)
    ensures var found := EffectivenessFor(Published(acc), toolId);
      (found.Some? <==> UsedTool(us, toolId)) &&
      (found.Some? ==>
        found.value.1 == UsesOf(us, toolId) && found.value.0 == RatingsOf(us, toolId) as real / UsesOf(us, toolId) as real)
  {
    var records := Published(acc);
    if UsedTool(us, toolId) {
      var k :| 0 <= k < |us| && us[k].toolId == toolId;
      var j := EntryOf(acc, us[k].toolId);
      assert records[j].toolId == Some(toolId);
    }
    var found := EffectivenessFor(records, toolId);
    if found.Some? {
      var i :| 0 <= i < |records| && records[i].toolId == Some(toolId) &&
        found.value == (records[i].avgEffectiveness, records[i].usageCount);
      RecordOfTool(acc, us, toolId, i);
    }
  }

  lemma RecordOfTool(acc: seq<ToolStats>, us: seq<Rated>, toolId: string, i: int)
    requires forall i :: 0 <= i < |acc| ==> acc[i].usageCount >= 1
    requires Summarizes(acc, us)
    requires 0 <= i < |acc| && Published(acc)[i].toolId == Some(toolId)
    ensures UsedTool(us, toolId)
    ensures Published(acc)[i].usageCount == UsesOf(us, toolId)
    ensures Published(acc)[i].avgEffectiveness == RatingsOf(us, toolId) as real / UsesOf(us, toolId) as real
  {
    var e := Published(acc)[i];
    assert e == Averaged(acc[i], Some(acc[i].toolId));
    assert acc[i].toolId == toolId;
  }

  predicate SortedByEffectiveness(s: seq<ToolEffectiveness>) {
    forall i, j :: 0 <= i < j < |s| ==> s[i].avgEffectiveness >= s[j].avgEffectiveness
  }

  /** Places `x`, which came before everything in `sorted`, ahead of the
      first record that does not rate strictly higher. */
  function Insert(x: ToolEffectiveness, sorted: seq<ToolEffectiveness>): seq<ToolEffectiveness> {
    if sorted == [] || sorted[0].avgEffectiveness <= x.avgEffectiveness then [x] + sorted
    else [sorted[0]] + Insert(x, sorted[1..])
  }

  lemma {:induction false} InsertElements(x: ToolEffectiveness, sorted: seq<ToolEffectiveness>)
    ensures multiset(Insert(x, sorted)) == multiset(sorted) + multiset{x}
    ensures forall e :: e in Insert(x, sorted) ==> e == x || e in sorted
  {
    if !(sorted == [] || sorted[0].avgEffectiveness <= x.avgEffectiveness) {
      InsertElements(x, sorted[1..]);
      assert sorted == [sorted[0]] + sorted[1..];
    }
  }

  lemma {:induction false} InsertSorted(x: ToolEffectiveness, sorted: seq<ToolEffectiveness>)
    requires SortedByEffectiveness(sorted)
    ensures SortedByEffectiveness(Insert(x, sorted))
  {
    if !(sorted == [] || sorted[0].avgEffectiveness <= x.avgEffectiveness) {
      var head, tail := sorted[0], sorted[1..];
      InsertSorted(x, tail);
      InsertElements(x, tail);
      var rest := Insert(x, tail);
      forall j | 0 <= j < |rest| ensures head.avgEffectiveness >= rest[j].avgEffectiveness {
        assert rest[j] in rest;
        if rest[j] != x {
          assert rest[j] in tail;
          var k :| 0 <= k < |tail| && tail[k] == rest[j];
          assert sorted[k + 1] == tail[k];
        }
      }
      assert Insert(x, sorted) == [head] + rest;
    }
  }

  /** The sort of the "most effective" list by descending average: highest
      average first, equal averages kept in their order. */
  function SortByEffectiveness(s: seq<ToolEffectiveness>): (r: seq<ToolEffectiveness>)
    ensures SortedByEffectiveness(r)
    ensures multiset(r) == multiset(s)
  {
    if s == [] then []
    else
      var rest := SortByEffectiveness(s[1..]);
      InsertSorted(s[0], rest);
      InsertElements(s[0], rest);
      assert s == [s[0]] + s[1..];
      Insert(s[0], rest)
  }

  /** The records with average `v`, in their order. */
  function WithAverage(s: seq<ToolEffectiveness>, v: real): seq<ToolEffectiveness> {
    if s == [] then []
    else (if s[0].avgEffectiveness == v then [s[0]] else []) + WithAverage(s[1..], v)
  }

  lemma WithAverageCons(e: ToolEffectiveness, t: seq<ToolEffectiveness>, v: real)
    ensures WithAverage([e] + t, v) == (if e.avgEffectiveness == v then [e] else []) + WithAverage(t, v)
  {
    assert ([e] + t)[0] == e && ([e] + t)[1..] == t;
  }

  /** Placing a record puts it ahead of the records of equal average and
      keeps theirs in order. */
  lemma {:induction false} InsertStable(x: ToolEffectiveness, sorted: seq<ToolEffectiveness>, v: real)
    ensures WithAverage(Insert(x, sorted), v) == (if x.avgEffectiveness == v then [x] else []) + WithAverage(sorted, v)
    decreases |sorted|
  {
    if sorted == [] || sorted[0].avgEffectiveness <= x.avgEffectiveness {
      WithAverageCons(x, sorted, v);
    } else {
      InsertStable(x, sorted[1..], v);
      assert sorted == [sorted[0]] + sorted[1..];
      WithAverageCons(sorted[0], Insert(x, sorted[1..]), v);
      WithAverageCons(sorted[0], sorted[1..], v);
    }
  }

  /** The sort is stable: the records of each average keep their order,
      as `Array.prototype.sort` keeps them. */
  lemma {:induction false} SortByEffectivenessStable(s: seq<ToolEffectiveness>, v: real)
    ensures WithAverage(SortByEffectiveness(s), v) == WithAverage(s, v)
  {
    if s != [] {
      SortByEffectivenessStable(s[1..], v);
      InsertStable(s[0], SortByEffectiveness(s[1..]), v);
      assert s == [s[0]] + s[1..];
      WithAverageCons(s[0], s[1..], v);
    }
  }

  /** The "most effective" list: the three best-rated records. */
  function MostEffective(records: seq<ToolEffectiveness>): (r: seq<ToolEffectiveness>)
    ensures |r| == if |records| < 3 then |records| else 3
    ensures SortedByEffectiveness(r)
    ensures forall e :: e in r ==> e in records
  {
    var sorted := SortByEffectiveness(records);
    var r := Take(sorted, 3);
    forall e | e in r ensures e in records {
      assert e in multiset(sorted);
    }
    r
  }

  /** No record left out of the list rates higher than one in it. */
  lemma MostEffectiveAreBest(records: seq<ToolEffectiveness>)
    ensures var sorted := SortByEffectiveness(records);
      forall i, j :: 0 <= i < 3 && 3 <= j < |sorted| ==>
        sorted[i] in MostEffective(records) && sorted[i].avgEffectiveness >= sorted[j].avgEffectiveness
  {
    var sorted := SortByEffectiveness(records);
    if |sorted| > 3 {
      assert MostEffective(records) == sorted[..3];
      forall i | 0 <= i < 3 ensures sorted[i] in MostEffective(records) {
        assert sorted[..3][i] == sorted[i];
      }
    }
  }
}
