/** `analyzeTriggerPatterns`: the triggers of the check-ins are counted
    under their lower-cased, trimmed text in a dictionary kept in
    first-mention order, ranked by a stable sort on the count, and the
    three most frequent are reported with the strength and frequency of
    the first. */
module TriggerAnalysis {
  import opened Wrappers
  import opened Seqs
  import opened Text
  import opened Storage
  import opened Mood
  import opened InsightData

  /** The key a trigger is counted under: `trigger.toLowerCase().trim()`. */
  function TriggerKey(t: string): string {
    Trim(ToLower(t))
  }

  /** The check-ins the analysis looks at: those with a non-empty trigger list. */
  function WithTriggers(entries: seq<MoodEntry>): (r: seq<MoodEntry>)
    ensures IsSubsequence(r, entries)
    ensures forall e :: e in r <==> e in entries && HasTriggers(e.details.triggers)
  {
    Filter(entries, (e: MoodEntry) => HasTriggers(e.details.triggers))
  }

  function TriggersOf(e: MoodEntry): seq<string> {
    if e.details.triggers.Some? then e.details.triggers.value else []
  }

  /** One mention of a trigger: its key and the mood of its check-in. */
  datatype Mention = Mention(key: string, mood: int)

  function MentionsIn(ts: seq<string>, mood: int): (r: seq<Mention>)
    ensures |r| == |ts|
    ensures forall i :: 0 <= i < |ts| ==> r[i] == Mention(TriggerKey(ts[i]), mood)
  {
    seq(|ts|, i requires 0 <= i < |ts| => Mention(TriggerKey(ts[i]), mood))
  }

  /** Every mention, check-in by check-in and trigger by trigger, in the
      order the two `forEach` loops visit them. */
  function Mentions(es: seq<MoodEntry>): seq<Mention> {
    if es == [] then []
    else
      var last := es[|es| - 1];
      Mentions(es[..|es| - 1]) + MentionsIn(TriggersOf(last), last.scores.mood)
  }

  /** How often a key is mentioned, and the moods of those mentions summed. */
  function Mentioned(ms: seq<Mention>, key: string): nat {
    if ms == [] then 0
    else Mentioned(ms[..|ms| - 1], key) + (if ms[|ms| - 1].key == key then 1 else 0)
  }

  function MoodWhenMentioned(ms: seq<Mention>, key: string): int {
    if ms == [] then 0
    else MoodWhenMentioned(ms[..|ms| - 1], key) + (if ms[|ms| - 1].key == key then ms[|ms| - 1].mood else 0)
  }

  /** An entry of `triggerMoodMap`. */
  datatype TriggerStat = TriggerStat(key: string, count: nat, totalMood: int)

  predicate DistinctKeys(stats: seq<TriggerStat>) {
    forall i, j :: 0 <= i < j < |stats| ==> stats[i].key != stats[j].key
  }

  /** Where a key sits in the dictionary, or -1. */
  function KeyIndex(stats: seq<TriggerStat>, key: string): (i: int)
    ensures -1 <= i < |stats|
    ensures i >= 0 ==> stats[i].key == key
    ensures i < 0 ==> forall j :: 0 <= j < |stats| ==> stats[j].key != key
  {
    FindIndex(stats, (s: TriggerStat) => s.key == key)
  }

  /** The lower-cased keys under which a fresh object literal already holds
      a truthy value, inherited from `Object.prototype`: the constructor
      function and the prototype itself. */
  predicate Inherited(key: string) {
    key == "constructor" || key == "__proto__"
  }

  /** One mention counted: a new key is added at the end with count 1,
      a known one has its count and mood total raised in place. A key the
      dictionary answers with an inherited value gets no entry: the test
      for a missing entry sees that value, and the increments land on it. */
  function Counted(stats: seq<TriggerStat>, m: Mention): seq<TriggerStat> {
    var i := KeyIndex(stats, m.key);
    if i < 0 && Inherited(m.key) then stats
    else if i < 0 then stats + [TriggerStat(m.key, 1, m.mood)]
    else stats[i := TriggerStat(m.key, stats[i].count + 1, stats[i].totalMood + m.mood)]
  }

  /** The dictionary after counting the mentions in order. */
  function Tally(ms: seq<Mention>): seq<TriggerStat> {
    if ms == [] then [] else Counted(Tally(ms[..|ms| - 1]), ms[|ms| - 1])
  }

  /** What the dictionary says about the mentions counted so far: each
      mentioned key that is not inherited once, with the number of its
      mentions and the sum of their moods, and nothing else. */
  ghost predicate Summarizes(stats: seq<TriggerStat>, ms: seq<Mention>) {
    DistinctKeys(stats) &&
    (forall key :: KeyIndex(stats, key) >= 0 <==> Mentioned(ms, key) > 0 && !Inherited(key)) &&
    (forall i :: 0 <= i < |stats| ==>
      stats[i].count == Mentioned(ms, stats[i].key) && stats[i].totalMood == MoodWhenMentioned(ms, stats[i].key))
  }

  lemma MentionedAppend(ms: seq<Mention>, m: Mention, key: string)
    ensures Mentioned(ms + [m], key) == Mentioned(ms, key) + (if m.key == key then 1 else 0)
    ensures MoodWhenMentioned(ms + [m], key) == MoodWhenMentioned(ms, key) + (if m.key == key then m.mood else 0)
  {
    assert (ms + [m])[..|ms|] == ms;
  }

  /** A key never mentioned contributes no mood. */
  lemma {:induction false} NeverMentioned(ms: seq<Mention>, key: string)
    requires Mentioned(ms, key) == 0
    ensures MoodWhenMentioned(ms, key) == 0
  {
    if ms != [] {
      NeverMentioned(ms[..|ms| - 1], key);
    }
  }

  /** Counting one more mention keeps the dictionary a summary. */
  lemma CountedSummarizes(stats: seq<TriggerStat>, ms: seq<Mention>, m: Mention)
    requires Summarizes(stats, ms)
    ensures Summarizes(Counted(stats, m), ms + [m])
  {
    if KeyIndex(stats, m.key) < 0 && Inherited(m.key) {
      KeptSummarizes(stats, ms, m);
    } else if KeyIndex(stats, m.key) < 0 {
      AddedSummarizes(stats, ms, m);
    } else {
      RaisedSummarizes(stats, ms, m);
    }
  }

  /** The mention counts and mood totals of keys other than the new
      mention's are unchanged by it. */
  lemma OthersUnchanged(ms: seq<Mention>, m: Mention)
    ensures Mentioned(ms + [m], m.key) == Mentioned(ms, m.key) + 1
    ensures MoodWhenMentioned(ms + [m], m.key) == MoodWhenMentioned(ms, m.key) + m.mood
    ensures forall key :: key != m.key ==>
      Mentioned(ms + [m], key) == Mentioned(ms, key) && MoodWhenMentioned(ms + [m], key) == MoodWhenMentioned(ms, key)
  {
    MentionedAppend(ms, m, m.key);
    forall key | key != m.key ensures Mentioned(ms + [m], key) == Mentioned(ms, key) && MoodWhenMentioned(ms + [m], key) == MoodWhenMentioned(ms, key) {
      MentionedAppend(ms, m, key);
    }
  }

  /** A mention of an inherited key changes no entry. */
  lemma KeptSummarizes(stats: seq<TriggerStat>, ms: seq<Mention>, m: Mention)
    requires Summarizes(stats, ms) && KeyIndex(stats, m.key) < 0 && Inherited(m.key)
    ensures Summarizes(Counted(stats, m), ms + [m])
  {
    var ms' := ms + [m];
    OthersUnchanged(ms, m);
    assert Counted(stats, m) == stats;
    forall i | 0 <= i < |stats| ensures stats[i].count == Mentioned(ms', stats[i].key) && stats[i].totalMood == MoodWhenMentioned(ms', stats[i].key) {
      assert stats[i].key != m.key;
    }
  }

  /** A mention of a new key adds its entry at the end. */
  lemma AddedSummarizes(stats: seq<TriggerStat>, ms: seq<Mention>, m: Mention)
    requires Summarizes(stats, ms) && KeyIndex(stats, m.key) < 0 && !Inherited(m.key)
    ensures Summarizes(Counted(stats, m), ms + [m])
  {
    var t' := Counted(stats, m);
    var ms' := ms + [m];
    OthersUnchanged(ms, m);
    assert Mentioned(ms, m.key) == 0;
    assert t' == stats + [TriggerStat(m.key, 1, m.mood)];
    assert DistinctKeys(t');
    forall key ensures KeyIndex(t', key) >= 0 <==> Mentioned(ms', key) > 0 && !Inherited(key) {
      if KeyIndex(stats, key) >= 0 {
        assert t'[KeyIndex(stats, key)].key == key;
      }
      if key == m.key {
        assert t'[|stats|].key == key;
      }
      if KeyIndex(t', key) >= 0 && key != m.key {
        assert stats[KeyIndex(t', key)].key == key;
      }
    }
    forall i | 0 <= i < |t'| ensures t'[i].count == Mentioned(ms', t'[i].key) && t'[i].totalMood == MoodWhenMentioned(ms', t'[i].key) {
      if i < |stats| {
        assert t'[i] == stats[i];
        assert stats[i].key != m.key;
      } else {
        NeverMentioned(ms, m.key);
      }
    }
  }

  /** A mention of a known key raises its entry in place. */
  lemma RaisedSummarizes(stats: seq<TriggerStat>, ms: seq<Mention>, m: Mention)
    requires Summarizes(stats, ms) && KeyIndex(stats, m.key) >= 0
    ensures Summarizes(Counted(stats, m), ms + [m])
  {
    var t' := Counted(stats, m);
    var i0 := KeyIndex(stats, m.key);
    var ms' := ms + [m];
    OthersUnchanged(ms, m);
    assert t' == stats[i0 := TriggerStat(m.key, stats[i0].count + 1, stats[i0].totalMood + m.mood)];
    assert DistinctKeys(t') by {
      forall i, j | 0 <= i < j < |t'| ensures t'[i].key != t'[j].key {
        assert t'[i].key == stats[i].key && t'[j].key == stats[j].key;
      }
    }
    forall key ensures KeyIndex(t', key) >= 0 <==> Mentioned(ms', key) > 0 && !Inherited(key) {
      if KeyIndex(stats, key) >= 0 {
        assert t'[KeyIndex(stats, key)].key == key;
      }
      if KeyIndex(t', key) >= 0 {
        assert stats[KeyIndex(t', key)].key == key;
      }
    }
    forall i | 0 <= i < |t'| ensures t'[i].count == Mentioned(ms', t'[i].key) && t'[i].totalMood == MoodWhenMentioned(ms', t'[i].key) {
      if i != i0 {
        assert t'[i] == stats[i];
        assert stats[i].key != m.key;
      }
    }
  }

  lemma TallyAppend(ms: seq<Mention>, m: Mention)
    ensures Tally(ms + [m]) == Counted(Tally(ms), m)
  {
    assert (ms + [m])[..|ms|] == ms;
  }

  /** The dictionary after any sequence of mentions is their summary. */
  lemma {:induction false} TallyCounts(ms: seq<Mention>)
    ensures Summarizes(Tally(ms), ms)
  {
    if ms != [] {
      var init := ms[..|ms| - 1];
      TallyCounts(init);
      assert init + [ms[|ms| - 1]] == ms;
      CountedSummarizes(Tally(init), init, ms[|ms| - 1]);
    }
  }

  /** The dictionary is empty exactly when every mention is of an
      inherited key. */
  lemma TallyNonEmpty(ms: seq<Mention>)
    ensures Tally(ms) == [] <==> forall m :: m in ms ==> Inherited(m.key)
  {
    var stats := Tally(ms);
    TallyCounts(ms);
    if m :| m in ms && !Inherited(m.key) {
      MentionedPositive(ms, m);
      assert KeyIndex(stats, m.key) >= 0;
    }
    if stats != [] {
      assert KeyIndex(stats, stats[0].key) >= 0;
      MentionedWitness(ms, stats[0].key);
    }
  }

  /** A key with a mention is the key of one of the mentions. */
  lemma {:induction false} MentionedWitness(ms: seq<Mention>, key: string)
    requires Mentioned(ms, key) > 0
    ensures exists m :: m in ms && m.key == key
  {
    var init := ms[..|ms| - 1];
    if ms[|ms| - 1].key != key {
      MentionedWitness(init, key);
      var m :| m in init && m.key == key;
      assert m in ms;
    } else {
      assert ms[|ms| - 1] in ms;
    }
  }

  /** The mentions of check-ins that all have triggers: at least one per
      check-in. */
  lemma {:induction false} MentionsNonEmpty(es: seq<MoodEntry>)
    requires forall e :: e in es ==> HasTriggers(e.details.triggers)
    ensures |Mentions(es)| >= |es|
  {
    if es != [] {
      var init := es[..|es| - 1];
      assert forall e :: e in init ==> e in es;
      MentionsNonEmpty(init);
      assert es[|es| - 1] in es;
    }
  }

  /** Ordered from the highest rank down. */
  predicate ByRankDescending(s: seq<TriggerStat>, rank: TriggerStat -> int) {
    forall i, j :: 0 <= i < j < |s| ==> rank(s[i]) >= rank(s[j])
  }

  /** Places `x` after every element ranked at least as high as it. */
  function InsertByRank(sorted: seq<TriggerStat>, x: TriggerStat, rank: TriggerStat -> int): (r: seq<TriggerStat>)
    ensures |r| == |sorted| + 1
    ensures forall y :: y in r <==> y in sorted || y == x
  {
    if sorted == [] then [x]
    else if rank(sorted[0]) >= rank(x) then
      assert sorted == [sorted[0]] + sorted[1..];
      [sorted[0]] + InsertByRank(sorted[1..], x, rank)
    else
      [x] + sorted
  }

  lemma {:induction false} InsertKeepsOrder(sorted: seq<TriggerStat>, x: TriggerStat, rank: TriggerStat -> int)
    requires ByRankDescending(sorted, rank)
    ensures ByRankDescending(InsertByRank(sorted, x, rank), rank)
  {
    if sorted != [] && rank(sorted[0]) >= rank(x) {
      var rest := InsertByRank(sorted[1..], x, rank);
      InsertKeepsOrder(sorted[1..], x, rank);
      forall k | 0 <= k < |rest| ensures rank(sorted[0]) >= rank(rest[k]) {
        assert rest[k] in rest;
        if rest[k] != x {
          var j :| 0 <= j < |sorted[1..]| && sorted[1..][j] == rest[k];
          assert sorted[j + 1] == rest[k];
        }
      }
    }
  }

  lemma InsertKeepsKeysDistinct(sorted: seq<TriggerStat>, x: TriggerStat, rank: TriggerStat -> int)
    requires DistinctKeys(sorted)
    requires forall y :: y in sorted ==> y.key != x.key
    ensures DistinctKeys(InsertByRank(sorted, x, rank))
  {
    if sorted != [] && rank(sorted[0]) >= rank(x) {
      var rest := InsertByRank(sorted[1..], x, rank);
      InsertKeepsKeysDistinct(sorted[1..], x, rank);
      forall k | 0 <= k < |rest| ensures sorted[0].key != rest[k].key {
        assert rest[k] in rest;
        if rest[k] != x {
          var j :| 0 <= j < |sorted[1..]| && sorted[1..][j] == rest[k];
          assert sorted[j + 1] == rest[k];
        }
      }
    }
  }

  /** A stable sort from the highest rank down: elements of equal rank
      keep their order, as `Array.prototype.sort` keeps them. */
  function SortByRank(s: seq<TriggerStat>, rank: TriggerStat -> int): (r: seq<TriggerStat>)
    ensures |r| == |s|
    ensures forall y :: y in r <==> y in s
    ensures ByRankDescending(r, rank)
  {
    if s == [] then []
    else
      var init := s[..|s| - 1];
      assert s == init + [s[|s| - 1]];
      var sortedInit := SortByRank(init, rank);
      InsertKeepsOrder(sortedInit, s[|s| - 1], rank);
      InsertByRank(sortedInit, s[|s| - 1], rank)
  }

  lemma {:induction false} InsertIsPermutation(sorted: seq<TriggerStat>, x: TriggerStat, rank: TriggerStat -> int)
    ensures multiset(InsertByRank(sorted, x, rank)) == multiset(sorted) + multiset{x}
  {
    if sorted != [] && rank(sorted[0]) >= rank(x) {
      InsertIsPermutation(sorted[1..], x, rank);
      assert sorted == [sorted[0]] + sorted[1..];
    }
  }

  /** A sort is a permutation of its input. */
  lemma {:induction false} SortIsPermutation(s: seq<TriggerStat>, rank: TriggerStat -> int)
    ensures multiset(SortByRank(s, rank)) == multiset(s)
  {
    if s != [] {
      var init := s[..|s| - 1];
      SortIsPermutation(init, rank);
      InsertIsPermutation(SortByRank(init, rank), s[|s| - 1], rank);
      assert s == init + [s[|s| - 1]];
    }
  }

  /** A sort keeps the keys of a dictionary distinct. */
  lemma {:induction false} SortKeepsKeysDistinct(s: seq<TriggerStat>, rank: TriggerStat -> int)
    requires DistinctKeys(s)
    ensures DistinctKeys(SortByRank(s, rank))
  {
    if s != [] {
      var init, x := s[..|s| - 1], s[|s| - 1];
      assert DistinctKeys(init);
      SortKeepsKeysDistinct(init, rank);
      forall y | y in SortByRank(init, rank) ensures y.key != x.key {
        var j :| 0 <= j < |init| && init[j] == y;
        assert s[j] == y;
      }
      InsertKeepsKeysDistinct(SortByRank(init, rank), x, rank);
    }
  }

  function CountRank(s: TriggerStat): int {
    s.count
  }

  predicate ByCountDescending(s: seq<TriggerStat>) {
    forall i, j :: 0 <= i < j < |s| ==> s[i].count >= s[j].count
  }

  /** `sort((a, b) => b.count - a.count)`: the stable sort by count, most
      frequent first; equal counts keep their order in `Object.entries`. */
  function SortByCount(s: seq<TriggerStat>): (r: seq<TriggerStat>)
    ensures |r| == |s|
    ensures forall y :: y in r <==> y in s
    ensures ByCountDescending(r)
  {
    var r := SortByRank(s, CountRank);
    assert forall i, j :: 0 <= i < j < |r| ==> CountRank(r[i]) >= CountRank(r[j]);
    r
  }

  /** Whether JavaScript takes a property key for an array index: the
      decimal text, without leading zeros, of an integer below 2^32 - 1. */
  predicate IsArrayIndex(key: string) {
    |key| > 0 && (forall i :: 0 <= i < |key| ==> '0' <= key[i] <= '9') &&
    (key[0] == '0' ==> |key| == 1) && ParseDecimal(key) < 0xFFFF_FFFF
  }

  predicate IndexEntry(s: TriggerStat) {
    IsArrayIndex(s.key)
  }

  predicate NamedEntry(s: TriggerStat) {
    !IsArrayIndex(s.key)
  }

  /** Ranks array indices so that the smallest comes first. */
  function IndexRank(s: TriggerStat): int {
    -ParseDecimal(s.key)
  }

  /** `Object.entries(triggerMoodMap)`: the entries whose key is an array
      index first, in ascending numeric order, then the others in the order
      they were added. */
  function EntriesOrder(stats: seq<TriggerStat>): seq<TriggerStat> {
    SortByRank(Filter(stats, IndexEntry), IndexRank) + Filter(stats, NamedEntry)
  }

  /** `Object.entries` lists every entry once: a permutation of the
      dictionary with its keys still distinct, the array indices first and
      ascending, the other keys after them in the dictionary's order. */
  lemma EntriesOrderRules(stats: seq<TriggerStat>)
    ensures multiset(EntriesOrder(stats)) == multiset(stats)
    ensures forall x :: x in EntriesOrder(stats) <==> x in stats
    ensures DistinctKeys(stats) ==> DistinctKeys(EntriesOrder(stats))
    ensures var r, k := EntriesOrder(stats), |Filter(stats, IndexEntry)|;
      k <= |r| &&
      (forall i :: 0 <= i < k ==> IsArrayIndex(r[i].key)) &&
      (forall i, j :: 0 <= i < j < k ==> ParseDecimal(r[i].key) <= ParseDecimal(r[j].key)) &&
      r[k..] == Filter(stats, NamedEntry)
  {
    EntriesPermutation(stats);
    EntriesIndicesFirst(stats);
    if DistinctKeys(stats) {
      EntriesDistinct(stats);
    }
  }

  lemma EntriesPermutation(stats: seq<TriggerStat>)
    ensures multiset(EntriesOrder(stats)) == multiset(stats)
    ensures forall x :: x in EntriesOrder(stats) <==> x in stats
  {
    var a, b := Filter(stats, IndexEntry), Filter(stats, NamedEntry);
    var r := SortByRank(a, IndexRank) + b;
    SortIsPermutation(a, IndexRank);
    FilterPartition(stats, IndexEntry, NamedEntry);
    assert multiset(r) == multiset(SortByRank(a, IndexRank)) + multiset(b);
    SameMembers(r, stats);
  }

  lemma EntriesIndicesFirst(stats: seq<TriggerStat>)
    ensures var r, k := EntriesOrder(stats), |Filter(stats, IndexEntry)|;
      k <= |r| &&
      (forall i :: 0 <= i < k ==> IsArrayIndex(r[i].key)) &&
      (forall i, j :: 0 <= i < j < k ==> ParseDecimal(r[i].key) <= ParseDecimal(r[j].key)) &&
      r[k..] == Filter(stats, NamedEntry)
  {
    var a := Filter(stats, IndexEntry);
    var sa := SortByRank(a, IndexRank);
    var r := sa + Filter(stats, NamedEntry);
    forall i | 0 <= i < |a| ensures IsArrayIndex(r[i].key) {
      assert sa[i] in sa;
      var j :| 0 <= j < |a| && a[j] == sa[i];
      assert IndexEntry(a[j]);
    }
    forall i, j | 0 <= i < j < |a| ensures ParseDecimal(r[i].key) <= ParseDecimal(r[j].key) {
      assert IndexRank(sa[i]) >= IndexRank(sa[j]);
    }
    assert r[|a|..] == Filter(stats, NamedEntry);
  }

  lemma EntriesDistinct(stats: seq<TriggerStat>)
    requires DistinctKeys(stats)
    ensures DistinctKeys(EntriesOrder(stats))
  {
    var a, b := Filter(stats, IndexEntry), Filter(stats, NamedEntry);
    var sa := SortByRank(a, IndexRank);
    FilterKeepsKeysDistinct(stats, IndexEntry);
    FilterKeepsKeysDistinct(stats, NamedEntry);
    SortKeepsKeysDistinct(a, IndexRank);
    forall i, j | 0 <= i < |sa| && 0 <= j < |b| ensures sa[i].key != b[j].key {
      assert sa[i] in sa;
      assert IndexEntry(sa[i]) && NamedEntry(b[j]);
    }
    ConcatKeysDistinct(sa, b);
  }

  /** Two dictionaries with distinct keys and no key in common make one. */
  lemma ConcatKeysDistinct(s: seq<TriggerStat>, t: seq<TriggerStat>)
    requires DistinctKeys(s) && DistinctKeys(t)
    requires forall i, j :: 0 <= i < |s| && 0 <= j < |t| ==> s[i].key != t[j].key
    ensures DistinctKeys(s + t)
  {
    forall i, j | 0 <= i < j < |s + t| ensures (s + t)[i].key != (s + t)[j].key {
      if j < |s| {
        assert (s + t)[i] == s[i] && (s + t)[j] == s[j];
      } else if i >= |s| {
        assert (s + t)[i] == t[i - |s|] && (s + t)[j] == t[j - |s|];
      } else {
        assert (s + t)[i] == s[i] && (s + t)[j] == t[j - |s|];
      }
    }
  }

  /** A filter keeps the keys of a dictionary distinct. */
  lemma {:induction false} FilterKeepsKeysDistinct(s: seq<TriggerStat>, p: TriggerStat -> bool)
    requires DistinctKeys(s)
    ensures DistinctKeys(Filter(s, p))
  {
    if s != [] {
      assert DistinctKeys(s[1..]);
      FilterKeepsKeysDistinct(s[1..], p);
      if p(s[0]) {
        var rest := Filter(s[1..], p);
        assert Filter(s, p) == [s[0]] + rest;
        forall k | 0 <= k < |rest| ensures s[0].key != rest[k].key {
          var j :| 0 <= j < |s[1..]| && s[1..][j] == rest[k];
          assert s[j + 1] == rest[k];
        }
      }
    }
  }

  /** A key added later that is an array index is listed before one added
      earlier that is not, and so wins a tie on the count. */
  lemma IndexKeyListedFirst(moodA: int, moodB: int)
    ensures var work, seven := TriggerStat("work", 1, moodA), TriggerStat("7", 1, moodB);
      EntriesOrder([work, seven]) == [seven, work] &&
      SortByCount(EntriesOrder([work, seven]))[0] == seven
  {
    var work, seven := TriggerStat("work", 1, moodA), TriggerStat("7", 1, moodB);
    assert IsArrayIndex("7") by {
      assert ParseDecimal("7") == ParseDecimal("7"[..0]) * 10 + DigitValue('7');
    }
    assert !IsArrayIndex("work") by {
      assert "work"[0] == 'w';
    }
    assert Filter([work, seven], IndexEntry) == [seven] by {
      assert [work, seven][1..] == [seven];
    }
    assert Filter([work, seven], NamedEntry) == [work] by {
      assert [work, seven][1..] == [seven];
      assert [seven][1..] == [];
    }
    assert SortByRank([seven], IndexRank) == [seven];
  }

  /** The head of the ranking has the largest count in the dictionary. */
  lemma HeadIsMostFrequent(s: seq<TriggerStat>)
    requires s != []
    ensures SortByCount(s)[0] in s
    ensures forall x :: x in s ==> SortByCount(s)[0].count >= x.count
  {
    var r := SortByCount(s);
    assert r[0] in r;
    forall x | x in s ensures r[0].count >= x.count {
      assert x in r;
      var j :| 0 <= j < |r| && r[j] == x;
    }
  }

  /** `Object.entries(triggerMoodMap).sort(...)`: the dictionary listed
      as `Object.entries` lists it, then ranked by count. */
  function Ranking(ms: seq<Mention>): seq<TriggerStat> {
    SortByCount(EntriesOrder(Tally(ms)))
  }

  /** The ranking holds the dictionary's entries and nothing else, once
      each, so it is empty exactly when every mention is of an inherited
      key. */
  lemma RankingEntries(ms: seq<Mention>)
    ensures multiset(Ranking(ms)) == multiset(Tally(ms))
    ensures DistinctKeys(Ranking(ms))
    ensures Ranking(ms) == [] <==> forall m :: m in ms ==> Inherited(m.key)
  {
    var stats := Tally(ms);
    EntriesOrderRules(stats);
    TallyDistinct(ms);
    SortIsPermutation(EntriesOrder(stats), CountRank);
    SortKeepsKeysDistinct(EntriesOrder(stats), CountRank);
    TallyNonEmpty(ms);
    if stats != [] {
      assert stats[0] in EntriesOrder(stats);
    }
  }

  /** The top trigger's share of the check-ins with triggers, at most 1. */
  function Strength(count: nat, n: nat): (s: real)
    requires n > 0
    ensures 0.0 <= s <= 1.0
    ensures count > 0 ==> s > 0.0
    ensures s < 1.0 ==> s * n as real == count as real
  {
    var q := count as real / n as real;
    if q < 1.0 then q else 1.0
  }

  /** 'weekly' when the top trigger shows up at least half as often as there
      are check-ins with triggers. */
  function FrequencyOf(count: nat, n: nat): (f: Frequency)
    ensures f == Weekly || f == Irregular
    ensures f == Weekly <==> count as real >= n as real * 0.5
  {
    if 2 * count >= n then Weekly else Irregular
  }

  const DefaultRecommendations: seq<string> := [
    "Practice mindfulness when you notice this trigger arising",
    "Develop a specific coping strategy for this situation",
    "Consider what you can control vs. what you cannot in these situations",
    "Track your response to this trigger to identify what helps most"]

  /** The templated description, without its average mood figure. */
  function TriggerDescription(top: TriggerStat): string {
    "You've identified \"" + top.key + "\" as a trigger " + Decimal(top.count) + " times"
  }

  /** The lines of the text that are not blank. */
  function NonBlankLines(text: string): (lines: seq<string>)
    ensures IsSubsequence(lines, Split(text, '\n'))
    ensures forall l :: l in lines <==> l in Split(text, '\n') && Trim(l) != ""
  {
    Filter(Split(text, '\n'), (l: string) => Trim(l) != "")
  }

  /** The character class of the bullet pattern as the file has it: the
      bullet '•' stored as the three characters 'â', '€', '¢', besides '-'. */
  predicate IsBulletAsWritten(c: char) {
    c == '-' || c == '\U{00E2}' || c == '\U{20AC}' || c == '\U{00A2}'
  }

  /** `line.replace(/^[-â€¢]\s*` + `/, '')` as written: a leading character
      of that class and the spaces after it removed. */
  function StripBulletAsWritten(line: string): (r: string)
    ensures |r| <= |line| && r == line[|line| - |r|..]
    ensures |line| == 0 || !IsBulletAsWritten(line[0]) ==> r == line
    ensures |line| > 0 && IsBulletAsWritten(line[0]) ==> |r| < |line| && (|r| > 0 ==> !IsSpace(r[0]))
  {
    if |line| > 0 && IsBulletAsWritten(line[0]) then TrimStart(line[1..]) else line
  }

  /** The intended class: a hyphen or a bullet. */
  predicate IsBullet(c: char) {
    c == '-' || c == '\U{2022}'
  }

  /** A leading hyphen or bullet and the space after it removed; any other
      line is kept as it is. */
  function StripBullet(line: string): (r: string)
    ensures |r| <= |line| && r == line[|line| - |r|..]
    ensures |line| == 0 || !IsBullet(line[0]) ==> r == line
    ensures |line| > 0 && IsBullet(line[0]) ==> |r| < |line| && (|r| > 0 ==> !IsSpace(r[0]))
  {
    if |line| > 0 && IsBullet(line[0]) then TrimStart(line[1..]) else line
  }

  /** As written, a line the model starts with '• ' keeps its bullet,
      where the intended class removes it. */
  lemma BulletKeptAsWritten(text: string)
    requires |text| == 0 || !IsSpace(text[0])
    ensures StripBulletAsWritten(['\U{2022}', ' '] + text) == ['\U{2022}', ' '] + text
    ensures StripBullet(['\U{2022}', ' '] + text) == text
  {
    var line := ['\U{2022}', ' '] + text;
    assert line[1..] == [' '] + text;
    assert ([' '] + text)[1..] == text;
  }

  /** As written, a line starting with the letter 'â' loses it. */
  lemma LetterStrippedAsWritten(text: string)
    requires |text| == 0 || !IsSpace(text[0])
    ensures StripBulletAsWritten(['\U{00E2}'] + text) == text
    ensures StripBullet(['\U{00E2}'] + text) == ['\U{00E2}'] + text
  {
    assert (['\U{00E2}'] + text)[1..] == text;
  }

  /** The description and recommendations after a model's answer: its first
      non-blank line replaces the description, and the later lines, if any,
      replace the recommendations with their bullets removed. */
  function WithAnswer(answer: Option<string>, description: string, recommendations: seq<string>)
    : (r: (string, seq<string>))
    ensures !Truthy(answer) ==> r == (description, recommendations)
    ensures Truthy(answer) && NonBlankLines(answer.value) == [] ==> r == (description, recommendations)
    ensures Truthy(answer) && NonBlankLines(answer.value) != [] ==>
      var lines := NonBlankLines(answer.value);
      r.0 == lines[0] &&
      (|lines| == 1 ==> r.1 == recommendations) &&
      (|lines| > 1 ==> |r.1| == |lines| - 1 && forall k :: 0 <= k < |r.1| ==> r.1[k] == StripBulletAsWritten(lines[k + 1]))
  {
    if !Truthy(answer) then (description, recommendations)
    else
      var lines := NonBlankLines(answer.value);
      if lines == [] then (description, recommendations)
      else if |lines| == 1 then (lines[0], recommendations)
      else (lines[0], Map(lines[1..], StripBulletAsWritten))
  }

  /** The pattern `analyzeTriggerPatterns` reports, given the answer of the
      language model (`None` when no key is configured or the call failed). */
  function TriggerPattern(entries: seq<MoodEntry>, answer: Option<string>): Option<Pattern> {
    var withTriggers := WithTriggers(entries);
    if |withTriggers| < 2 then None
    else
      var ranked := Take(Ranking(Mentions(withTriggers)), 3);
      if ranked == [] then None
      else
        var top := ranked[0];
        var text := WithAnswer(answer, TriggerDescription(top), DefaultRecommendations);
        Some(Pattern(
          TriggerCorrelation,
          text.0,
          Strength(top.count, |withTriggers|),
          FrequencyOf(top.count, |withTriggers|),
          Keys(ranked),
          text.1))
  }

  /** What the reported trigger list says about the mentions: one to
      three distinct mentioned keys that are not inherited, most frequent
      first, the first at least as frequent as any key with an entry. */
  ghost predicate TopKeys(ts: seq<string>, ms: seq<Mention>) {
    1 <= |ts| <= 3 &&
    (forall i :: 0 <= i < |ts| ==> Mentioned(ms, ts[i]) > 0 && !Inherited(ts[i])) &&
    (forall i, j :: 0 <= i < j < |ts| ==> ts[i] != ts[j] && Mentioned(ms, ts[i]) >= Mentioned(ms, ts[j])) &&
    (forall m :: m in ms && !Inherited(m.key) ==> Mentioned(ms, ts[0]) >= Mentioned(ms, m.key))
  }

  /** The entries of a ranking of the dictionary are entries of the
      dictionary, so their counts are the mention counts of their keys. */
  lemma RankedCounts(ms: seq<Mention>, ranked: seq<TriggerStat>)
    requires forall x :: x in ranked ==> x in Tally(ms)
    ensures forall i :: 0 <= i < |ranked| ==>
      ranked[i].count == Mentioned(ms, ranked[i].key) > 0 && !Inherited(ranked[i].key)
  {
    var stats := Tally(ms);
    TallyCounts(ms);
    forall i | 0 <= i < |ranked| ensures ranked[i].count == Mentioned(ms, ranked[i].key) > 0 && !Inherited(ranked[i].key) {
      assert ranked[i] in ranked;
      var k :| 0 <= k < |stats| && stats[k] == ranked[i];
      assert KeyIndex(stats, ranked[i].key) >= 0;
    }
  }

  /** No mentioned key with an entry is more frequent than the head of
      the ranking. */
  lemma HeadCountsMost(ms: seq<Mention>)
    requires exists m :: m in ms && !Inherited(m.key)
    ensures Ranking(ms) != []
    ensures forall m :: m in ms && !Inherited(m.key) ==> Ranking(ms)[0].count >= Mentioned(ms, m.key)
  {
    var stats := Tally(ms);
    var listed := EntriesOrder(stats);
    RankingEntries(ms);
    TallyCounts(ms);
    EntriesOrderRules(stats);
    assert listed != [] by {
      assert Ranking(ms) != [];
    }
    HeadIsMostFrequent(listed);
    forall m | m in ms && !Inherited(m.key) ensures Ranking(ms)[0].count >= Mentioned(ms, m.key) {
      MentionedPositive(ms, m);
      var k := KeyIndex(stats, m.key);
      assert stats[k] in stats;
      assert stats[k] in listed;
    }
  }

  /** The trigger names, in order of frequency. */
  function Keys(stats: seq<TriggerStat>): (ks: seq<string>)
    ensures |ks| == |stats|
    ensures forall i :: 0 <= i < |stats| ==> ks[i] == stats[i].key
  {
    seq(|stats|, i requires 0 <= i < |stats| => stats[i].key)
  }

  lemma TallyDistinct(ms: seq<Mention>)
    ensures DistinctKeys(Tally(ms))
  {
    TallyCounts(ms);
  }

  /** The three most frequent keys of mentions with at least one key
      that is not inherited. */
  lemma RankedRules(ms: seq<Mention>)
    requires exists m :: m in ms && !Inherited(m.key)
    ensures var ranked := Take(Ranking(ms), 3);
      ranked != [] &&
      (forall i :: 0 <= i < |ranked| ==> ranked[i].count == Mentioned(ms, ranked[i].key)) &&
      TopKeys(Keys(ranked), ms)
  {
    var sorted := Ranking(ms);
    RankingEntries(ms);
    HeadCountsMost(ms);
    var ranked := Take(sorted, 3);
    assert forall i :: 0 <= i < |ranked| ==> ranked[i] == sorted[i];
    forall x | x in ranked ensures x in Tally(ms) {
      assert x in sorted;
      assert x in multiset(sorted);
    }
    RankedCounts(ms, ranked);
    LeadingKeys(ms, sorted, ranked);
  }

  /** The first entries of a ranking with distinct keys, whose counts are
      the mention counts, name the most mentioned keys in order. */
  lemma LeadingKeys(ms: seq<Mention>, sorted: seq<TriggerStat>, ranked: seq<TriggerStat>)
    requires 1 <= |ranked| <= 3 && |ranked| <= |sorted|
    requires forall i :: 0 <= i < |ranked| ==> ranked[i] == sorted[i]
    requires ByCountDescending(sorted) && DistinctKeys(sorted)
    requires forall i :: 0 <= i < |ranked| ==>
      ranked[i].count == Mentioned(ms, ranked[i].key) > 0 && !Inherited(ranked[i].key)
    requires forall m :: m in ms && !Inherited(m.key) ==> sorted[0].count >= Mentioned(ms, m.key)
    ensures TopKeys(Keys(ranked), ms)
  {
    var ks := Keys(ranked);
    forall i, j | 0 <= i < j < |ks| ensures ks[i] != ks[j] && Mentioned(ms, ks[i]) >= Mentioned(ms, ks[j]) {
      assert ranked[i] == sorted[i] && ranked[j] == sorted[j];
    }
    assert ks[0] == sorted[0].key && ranked[0].count == sorted[0].count;
  }

  /** A pattern is reported exactly when two check-ins have triggers and
      one of their triggers is not an inherited key: triggers that are all
      'constructor' or '__proto__' leave the dictionary empty, and the
      analysis gives up. */
  lemma TriggerPatternPresent(entries: seq<MoodEntry>, answer: Option<string>)
    ensures TriggerPattern(entries, answer).Some? <==>
      |WithTriggers(entries)| >= 2 && exists m :: m in Mentions(WithTriggers(entries)) && !Inherited(m.key)
  {
    var withTriggers := WithTriggers(entries);
    if |withTriggers| >= 2 {
      var ms := Mentions(withTriggers);
      RankingEntries(ms);
      var sorted := Ranking(ms);
      assert Take(sorted, 3) == [] <==> sorted == [];
    }
  }

  /** The rules the reported pattern keeps: one to three distinct
      mentioned triggers, most frequent first, the first the most frequent
      of all; a strength in (0, 1] that is the first's share of the
      check-ins with triggers; 'weekly' exactly when that share is at
      least a half. */
  lemma TriggerPatternRules(entries: seq<MoodEntry>, answer: Option<string>)
    requires TriggerPattern(entries, answer).Some?
    ensures var n, p := |WithTriggers(entries)|, TriggerPattern(entries, answer).value;
      var ms := Mentions(WithTriggers(entries));
      var top := Mentioned(ms, p.triggers[0]);
      p.patternType == TriggerCorrelation &&
      TopKeys(p.triggers, ms) &&
      0.0 < p.strength <= 1.0 &&
      p.strength == Strength(top, n) &&
      (p.frequency == Weekly <==> 2 * top >= n)
  {
    var withTriggers := WithTriggers(entries);
    var n := |withTriggers|;
    var ms := Mentions(withTriggers);
    TriggerPatternPresent(entries, answer);
    RankedRules(ms);
    var ranked := Take(Ranking(ms), 3);
    var text := WithAnswer(answer, TriggerDescription(ranked[0]), DefaultRecommendations);
    var ts := Keys(ranked);
    assert TriggerPattern(entries, answer).value == Pattern(
        TriggerCorrelation,
        text.0,
        Strength(ranked[0].count, n),
        FrequencyOf(ranked[0].count, n),
        ts,
        text.1);
    assert ts[0] == ranked[0].key;
  }

  /** A mention makes its key's count positive. */
  lemma {:induction false} MentionedPositive(ms: seq<Mention>, m: Mention)
    requires m in ms
    ensures Mentioned(ms, m.key) > 0
  {
    var init := ms[..|ms| - 1];
    if ms[|ms| - 1] != m {
      var k :| 0 <= k < |ms| && ms[k] == m;
      assert init[k] == m;
      MentionedPositive(init, m);
    }
  }

  lemma MentionsAppend(es: seq<MoodEntry>, i: int)
    requires 0 <= i < |es|
    ensures Mentions(es[..i + 1]) == Mentions(es[..i]) + MentionsIn(TriggersOf(es[i]), es[i].scores.mood)
  {
    assert es[..i + 1][..i] == es[..i];
  }

  lemma MentionsInAppend(ts: seq<string>, j: int, mood: int)
    requires 0 <= j < |ts|
    ensures MentionsIn(ts[..j + 1], mood) == MentionsIn(ts[..j], mood) + [Mention(TriggerKey(ts[j]), mood)]
  {
  }

  /** The body of the inner loop: an entry is created for a new key, then
      its count and mood total are raised. An inherited key is found
      present, and the increments go to the inherited value. */
  method CountMention(stats: seq<TriggerStat>, m: Mention) returns (r: seq<TriggerStat>)
    ensures r == Counted(stats, m)
  {
    r := stats;
    var k := KeyIndex(r, m.key);
    if k < 0 && Inherited(m.key) {
      return;
    }
    if k < 0 {
      r := r + [TriggerStat(m.key, 0, 0)];
      k := |r| - 1;
    }
    r := r[k := TriggerStat(m.key, r[k].count + 1, r[k].totalMood + m.mood)];
  }

  /** The inner `forEach`: the triggers of one check-in counted in turn
      into the dictionary of the mentions before it. */
  method CountEntry(stats: seq<TriggerStat>, entry: MoodEntry, ghost before: seq<Mention>) returns (r: seq<TriggerStat>)
    requires stats == Tally(before)
    ensures r == Tally(before + MentionsIn(TriggersOf(entry), entry.scores.mood))
  {
    var triggers := TriggersOf(entry);
    r := stats;
    var j := 0;
    assert before + MentionsIn(triggers[..j], entry.scores.mood) == before;
    while j < |triggers|
      invariant 0 <= j <= |triggers|
      invariant r == Tally(before + MentionsIn(triggers[..j], entry.scores.mood))
    {
      var m := Mention(TriggerKey(triggers[j]), entry.scores.mood);
      ghost var done := before + MentionsIn(triggers[..j], entry.scores.mood);
      MentionsInAppend(triggers, j, entry.scores.mood);
      assert before + MentionsIn(triggers[..j + 1], entry.scores.mood) == done + [m];
      TallyAppend(done, m);
      r := CountMention(r, m);
      j := j + 1;
    }
    assert triggers[..j] == triggers;
  }

  /** The two `forEach` loops: every trigger of every check-in counted in
      the dictionary, in order. */
  method CountTriggers(withTriggers: seq<MoodEntry>) returns (stats: seq<TriggerStat>)
    ensures stats == Tally(Mentions(withTriggers))
  {
    stats := [];
    var i := 0;
    while i < |withTriggers|
      invariant 0 <= i <= |withTriggers|
      invariant stats == Tally(Mentions(withTriggers[..i]))
    {
      stats := CountEntry(stats, withTriggers[i], Mentions(withTriggers[..i]));
      MentionsAppend(withTriggers, i);
      i := i + 1;
    }
    assert withTriggers[..i] == withTriggers;
  }

  /** `analyzeTriggerPatterns`: the dictionary is filled and ranked, and
      the model's answer, if any, overrides the description and the
      recommendations. */
  method AnalyzeTriggerPatterns(entries: seq<MoodEntry>, answer: Option<string>) returns (r: Option<Pattern>)
    ensures r == TriggerPattern(entries, answer)
  {
    var withTriggers := WithTriggers(entries);
    if |withTriggers| < 2 {
      return None;
    }
    var stats := CountTriggers(withTriggers);
    var ranked := Take(SortByCount(EntriesOrder(stats)), 3);
    if ranked == [] {
      return None;
    }
    var top := ranked[0];
    var description := TriggerDescription(top);
    var recommendations := DefaultRecommendations;
    if Truthy(answer) {
      var lines := NonBlankLines(answer.value);
      if |lines| > 0 {
        description := lines[0];
        if |lines| > 1 {
          recommendations := Map(lines[1..], StripBulletAsWritten);
        }
      }
    }
    assert (description, recommendations) == WithAnswer(answer, TriggerDescription(top), DefaultRecommendations);
    assert ranked == Take(Ranking(Mentions(withTriggers)), 3);
    r := Some(Pattern(
      TriggerCorrelation,
      description,
      Strength(top.count, |withTriggers|),
      FrequencyOf(top.count, |withTriggers|),
      Keys(ranked),
      recommendations));
  }
}
