/** The coping-tools service: tool-usage records with encrypted notes, the
    per-tool effectiveness summary, and the safety plan, kept as one row per
    user and updated in place. */
module CopingTools {
  import opened Wrappers
  import opened Storage
  import opened Encryption
  import opened Auth
  import opened Identity
  import opened Fields
  import opened Seqs

  /** A row of `coping_tools`, as far as the summary and the page use it. */
  datatype CopingTool = CopingTool(
    id: string,
    name: string,
    category: string,
    description: string,
    instructions: string,
    durationMinutes: nat,
    tags: seq<string>,
    isCrisisTool: bool)

  /** The fields of a usage record stored in clear. */
  datatype UsageFields = UsageFields(
    toolId: string,
    moodBefore: Option<int>,
    moodAfter: Option<int>,
    effectivenessRating: Option<int>,
    durationUsed: Option<int>,
    completed: bool)

  /** A row of `tool_usage`. */
  datatype UsageRow = UsageRow(
    id: string,
    owner: Owner,
    fields: UsageFields,
    encryptedNotes: Option<string>,
    createdAt: string)

  /** A usage record as the service returns it. */
  datatype ToolUsage = ToolUsage(
    id: string,
    owner: Owner,
    fields: UsageFields,
    notes: Option<string>,
    createdAt: string)

  /** The usage record a successful write returns: the notes survive when
      they were truthy. */
  function WrittenUsage(owner: Owner, fields: UsageFields, notes: Option<string>, id: string, now: string): ToolUsage {
    ToolUsage(id, owner, fields, if Truthy(notes) then notes else None, now)
  }

  function RevealUsage(cipher: EncryptionService, row: UsageRow): (r: Result<ToolUsage, ServiceError>)
    reads cipher
    ensures r.Success? ==>
      r.value.id == row.id && r.value.owner == row.owner && r.value.fields == row.fields &&
      r.value.createdAt == row.createdAt
    ensures r.Failure? <==> Truthy(row.encryptedNotes) && !cipher.HasKey()
  {
    match RevealText(cipher, row.encryptedNotes)
    case Failure(e) => Failure(e)
    case Success(notes) => Success(ToolUsage(row.id, row.owner, row.fields, notes, row.createdAt))
  }

  function RevealUsages(cipher: EncryptionService, rows: seq<UsageRow>): (r: Result<seq<ToolUsage>, ServiceError>)
    reads cipher
    ensures r.Success? <==> forall i :: 0 <= i < |rows| ==> RevealUsage(cipher, rows[i]).Success?
    ensures r.Success? ==>
      |r.value| == |rows| && forall i :: 0 <= i < |rows| ==> RevealUsage(cipher, rows[i]) == Success(r.value[i])
  {
    if rows == [] then Success([])
    else
      match RevealUsage(cipher, rows[0])
      case Failure(e) => Failure(e)
      case Success(first) =>
        match RevealUsages(cipher, rows[1..])
        case Failure(e) => Failure(e)
        case Success(rest) =>
          assert forall i :: 1 <= i < |rows| ==> rows[i] == rows[1..][i - 1];
          Success([first] + rest)
  }

  predicate OwnsUsage(p: Principal, row: UsageRow) {
    OwnedBy(row.owner, p)
  }

  /** The usage rows of a principal, in the order they were written. */
  function MyUsage(rows: seq<UsageRow>, p: Principal): seq<UsageRow> {
    Filter(rows, row => OwnsUsage(p, row))
  }

  lemma MyUsageAppend(rows: seq<UsageRow>, row: UsageRow, p: Principal)
    ensures MyUsage(rows + [row], p) == MyUsage(rows, p) + (if OwnsUsage(p, row) then [row] else [])
  {
    FilterAppend(rows, row, row => OwnsUsage(p, row));
  }

  /** The rows `getToolUsageHistory(limit)` returns: the principal's,
      newest first, at most `limit`; nothing without a principal. */
  function UsageHistory(rows: seq<UsageRow>, p: Option<Principal>, limit: nat): (r: seq<UsageRow>)
    ensures |r| <= limit
    ensures forall i :: 0 <= i < |r| ==> r[i] in rows && p.Some? && OwnsUsage(p.value, r[i])
  {
    if p.None? then [] else Take(Reverse(MyUsage(rows, p.value)), limit)
  }

  /** A usage record just written heads its owner's history. */
  lemma UsageReadYourWrite(rows: seq<UsageRow>, row: UsageRow, p: Principal, limit: nat)
    requires row.owner == OwnerOf(p) && limit > 0
    ensures UsageHistory(rows + [row], Some(p), limit) == [row] + UsageHistory(rows, Some(p), limit - 1)
  {
    MyUsageAppend(rows, row, p);
    OwnerSeparation(p, p);
    ReverseAppend(MyUsage(rows, p), row);
  }

  /** The effectiveness query's rows: the principal's usage with a rating,
      each joined with its tool's name and category. */
  datatype Rated = Rated(
    toolId: string,
    rating: int,
    moodBefore: Option<int>,
    moodAfter: Option<int>,
    toolName: string,
    category: string)

  /** JavaScript truthiness of an optional number: present and not 0. */
  predicate TruthyNumber(v: Option<int>) {
    v.Some? && v.value != 0
  }

  /** What one use adds to the mood-improvement total: `after − before`
      when both are truthy, nothing otherwise. */
  function Improvement(u: Rated): int {
    if TruthyNumber(u.moodBefore) && TruthyNumber(u.moodAfter) then u.moodAfter.value - u.moodBefore.value else 0
  }

  function FindTool(tools: seq<CopingTool>, id: string): Option<CopingTool> {
    Find(tools, (t: CopingTool) => t.id == id)
  }

  /** The rated rows of a principal joined with their tools; a rating of a
      tool that is not in the catalogue fails the summary (reading the
      joined tool's name throws). */
  function RatedRows(rows: seq<UsageRow>, tools: seq<CopingTool>): (r: Result<seq<Rated>, ServiceError>)
    ensures r.Success? ==> |r.value| == |Filter(rows, (row: UsageRow) => row.fields.effectivenessRating.Some?)|
  {
    if rows == [] then Success([])
    else
      match RatedRows(rows[1..], tools)
      case Failure(e) => Failure(e)
      case Success(rest) =>
        var f := rows[0].fields;
        if f.effectivenessRating.None? then Success(rest)
        else match FindTool(tools, f.toolId)
          case None => Failure(NotFound)
          case Some(t) =>
            Success([Rated(f.toolId, f.effectivenessRating.value, f.moodBefore, f.moodAfter, t.name, t.category)] + rest)
  }

  /** The accumulator entry of one tool. */
  datatype ToolStats = ToolStats(
    toolId: string,
    toolName: string,
    category: string,
    usageCount: int,
    totalEffectiveness: int,
    totalMoodImprovement: int)

  /** Position of a tool's entry in the accumulator, -1 when it has none. */
  function EntryOf(acc: seq<ToolStats>, id: string): int {
    FindIndex(acc, (s: ToolStats) => s.toolId == id)
  }

  /** One step of the `reduce`: create the tool's entry on its first use,
      then count the use, add the rating and, when both moods are truthy,
      the improvement. */
  function Add(acc: seq<ToolStats>, u: Rated): (r: seq<ToolStats>) {
    var i := EntryOf(acc, u.toolId);
    if i < 0 then acc + [ToolStats(u.toolId, u.toolName, u.category, 1, u.rating, Improvement(u))]
    else
      var s := acc[i];
      acc[i := s.(usageCount := s.usageCount + 1,
                  totalEffectiveness := s.totalEffectiveness + u.rating,
                  totalMoodImprovement := s.totalMoodImprovement + Improvement(u))]
  }

  /** The accumulator after the `reduce` over `us`, entries in the order of
      each tool's first use. */
  function Tally(us: seq<Rated>): (acc: seq<ToolStats>)
    ensures forall i :: 0 <= i < |acc| ==> acc[i].usageCount >= 1
  {
    if us == [] then [] else Add(Tally(us[..|us| - 1]), us[|us| - 1])
  }

  /** Independent per-tool definitions: uses, summed ratings and summed
      improvements of one tool. */
  function UsesOf(us: seq<Rated>, id: string): int {
    if us == [] then 0
    else UsesOf(us[..|us| - 1], id) + (if us[|us| - 1].toolId == id then 1 else 0)
  }

  function RatingsOf(us: seq<Rated>, id: string): int {
    if us == [] then 0
    else RatingsOf(us[..|us| - 1], id) + (if us[|us| - 1].toolId == id then us[|us| - 1].rating else 0)
  }

  function ImprovementsOf(us: seq<Rated>, id: string): int {
    if us == [] then 0
    else ImprovementsOf(us[..|us| - 1], id) + (if us[|us| - 1].toolId == id then Improvement(us[|us| - 1]) else 0)
  }

  predicate UsedTool(us: seq<Rated>, id: string) {
    exists k :: 0 <= k < |us| && us[k].toolId == id
  }

  predicate DistinctTools(acc: seq<ToolStats>) {
    forall i, j :: 0 <= i < j < |acc| ==> acc[i].toolId != acc[j].toolId
  }

  /** Every entry is a tool that was used. */
  predicate OnlyUsed(acc: seq<ToolStats>, us: seq<Rated>) {
    forall i :: 0 <= i < |acc| ==> UsedTool(us, acc[i].toolId)
  }

  /** Every tool that was used has an entry. */
  predicate Covers(acc: seq<ToolStats>, us: seq<Rated>) {
    forall k :: 0 <= k < |us| ==> EntryOf(acc, us[k].toolId) >= 0
  }

  /** Each entry's count and totals are those of its tool. */
  predicate Totals(acc: seq<ToolStats>, us: seq<Rated>) {
    forall i :: 0 <= i < |acc| ==>
      acc[i].usageCount == UsesOf(us, acc[i].toolId) &&
      acc[i].totalEffectiveness == RatingsOf(us, acc[i].toolId) &&
      acc[i].totalMoodImprovement == ImprovementsOf(us, acc[i].toolId)
  }

  /** What the accumulator holds: exactly one entry per tool used, and that
      entry's count, rating total and improvement total are the tool's
      own. */
  predicate Summarizes(acc: seq<ToolStats>, us: seq<Rated>) {
    DistinctTools(acc) && OnlyUsed(acc, us) && Covers(acc, us) && Totals(acc, us)
  }

  lemma {:induction false} TallySummarizes(us: seq<Rated>)
    ensures Summarizes(Tally(us), us)
  {
    if us != [] {
      var init, u := us[..|us| - 1], us[|us| - 1];
      TallySummarizes(init);
      assert init + [u] == us;
      AddKeepsSummary(Tally(init), init, u);
    }
  }

  lemma AddKeepsSummary(acc: seq<ToolStats>, init: seq<Rated>, u: Rated)
    requires Summarizes(acc, init)
    ensures Summarizes(Add(acc, u), init + [u])
  {
    AddShape(acc, u);
    AddOnlyUsed(acc, init, u);
    AddCovers(acc, init, u);
    AddTotals(acc, init, u);
  }

  /** How `Add` changes the accumulator: entries keep their tools, a new
      tool's entry is appended, and the tool of `u` has an entry after. */
  lemma AddShape(acc: seq<ToolStats>, u: Rated)
    requires DistinctTools(acc)
    ensures var r := Add(acc, u);
      DistinctTools(r) && EntryOf(r, u.toolId) >= 0 &&
      (EntryOf(acc, u.toolId) >= 0 ==> |r| == |acc|) &&
      (EntryOf(acc, u.toolId) < 0 ==> |r| == |acc| + 1 && r[|acc|].toolId == u.toolId) &&
      forall j :: 0 <= j < |acc| ==> r[j].toolId == acc[j].toolId
  {
    var r := Add(acc, u);
    var i := EntryOf(acc, u.toolId);
    if i < 0 {
      assert r[|acc|].toolId == u.toolId;
    } else {
      assert r[i].toolId == u.toolId;
    }
  }

  lemma AddOnlyUsed(acc: seq<ToolStats>, init: seq<Rated>, u: Rated)
    requires DistinctTools(acc) && OnlyUsed(acc, init)
    ensures OnlyUsed(Add(acc, u), init + [u])
  {
    AddShape(acc, u);
    var us, r := init + [u], Add(acc, u);
    assert UsedTool(us, u.toolId) by {
      assert us[|us| - 1] == u;
    }
    forall j | 0 <= j < |r| ensures UsedTool(us, r[j].toolId) {
      if j < |acc| {
        var k :| 0 <= k < |init| && init[k].toolId == acc[j].toolId;
        assert us[k] == init[k];
      }
    }
  }

  lemma AddCovers(acc: seq<ToolStats>, init: seq<Rated>, u: Rated)
    requires DistinctTools(acc) && Covers(acc, init)
    ensures Covers(Add(acc, u), init + [u])
  {
    AddShape(acc, u);
    var us, r := init + [u], Add(acc, u);
    forall k | 0 <= k < |us| ensures EntryOf(r, us[k].toolId) >= 0 {
      if k < |init| {
        assert us[k] == init[k];
        var e := EntryOf(acc, init[k].toolId);
        assert r[e].toolId == us[k].toolId;
      }
    }
  }

  /** One more use changes the per-tool definitions of its tool only. */
  lemma TotalsStep(init: seq<Rated>, u: Rated, id: string)
    ensures UsesOf(init + [u], id) == UsesOf(init, id) + (if u.toolId == id then 1 else 0)
    ensures RatingsOf(init + [u], id) == RatingsOf(init, id) + (if u.toolId == id then u.rating else 0)
    ensures ImprovementsOf(init + [u], id) == ImprovementsOf(init, id) + (if u.toolId == id then Improvement(u) else 0)
  {
    var us := init + [u];
    assert us[..|us| - 1] == init;
  }

  lemma AddTotals(acc: seq<ToolStats>, init: seq<Rated>, u: Rated)
    requires DistinctTools(acc) && Covers(acc, init) && Totals(acc, init)
    ensures Totals(Add(acc, u), init + [u])
  {
    AddShape(acc, u);
    var us, r := init + [u], Add(acc, u);
    var i := EntryOf(acc, u.toolId);
    forall j | 0 <= j < |r|
      ensures r[j].usageCount == UsesOf(us, r[j].toolId)
      ensures r[j].totalEffectiveness == RatingsOf(us, r[j].toolId)
      ensures r[j].totalMoodImprovement == ImprovementsOf(us, r[j].toolId)
    {
      TotalsStep(init, u, r[j].toolId);
      if j == |acc| {
        assert i < 0;
        assert !UsedTool(init, u.toolId);
        NoUses(init, u.toolId);
      }
    }
  }

  /** A tool nobody used has no uses, ratings or improvements. */
  lemma {:induction false} NoUses(us: seq<Rated>, id: string)
    requires !UsedTool(us, id)
    ensures UsesOf(us, id) == 0 && RatingsOf(us, id) == 0 && ImprovementsOf(us, id) == 0
  {
    if us != [] {
      var init := us[..|us| - 1];
      assert !UsedTool(init, id) by {
        forall k | 0 <= k < |init| ensures init[k].toolId != id {
          assert init[k] == us[k];
        }
      }
      NoUses(init, id);
    }
  }

  /** The `reduce` of `getToolEffectiveness`, step by step: find or create
      the tool's entry, count the use, add the rating, and add the
      improvement when both moods are truthy. */
  method TallyUses(us: seq<Rated>) returns (acc: seq<ToolStats>)
    ensures acc == Tally(us)
    ensures Summarizes(acc, us)
    ensures forall i :: 0 <= i < |acc| ==> acc[i].usageCount >= 1
  {
    acc := [];
    for k := 0 to |us|
      invariant acc == Tally(us[..k])
    {
      var u := us[k];
      ghost var before := acc;
      var i := EntryOf(acc, u.toolId);
      if i < 0 {
        acc := acc + [ToolStats(u.toolId, u.toolName, u.category, 0, 0, 0)];
        i := |acc| - 1;
      }
      acc := acc[i := acc[i].(usageCount := acc[i].usageCount + 1,
                              totalEffectiveness := acc[i].totalEffectiveness + u.rating)];
      if TruthyNumber(u.moodBefore) && TruthyNumber(u.moodAfter) {
        acc := acc[i := acc[i].(totalMoodImprovement := acc[i].totalMoodImprovement + (u.moodAfter.value - u.moodBefore.value))];
      }
      assert acc == Add(before, u);
      TallyStep(us, k);
    }
    assert us[..|us|] == us;
    TallySummarizes(us);
  }

  lemma TallyStep(us: seq<Rated>, k: int)
    requires 0 <= k < |us|
    ensures Tally(us[..k + 1]) == Add(Tally(us[..k]), us[k])
  {
    assert us[..k + 1][..k] == us[..k];
  }

  /** A record of the effectiveness summary. As written, the record carries
      no tool id: the accumulator is keyed by it but the entries do not hold
      it. */
  datatype ToolEffectiveness = ToolEffectiveness(
    toolId: Option<string>,
    toolName: string,
    category: string,
    usageCount: int,
    avgEffectiveness: real,
    avgMoodImprovement: real)

  /** The averages of one entry; the improvement is averaged over every
      use, including uses whose moods were not both given. */
  function Averaged(s: ToolStats, id: Option<string>): (e: ToolEffectiveness)
    requires s.usageCount >= 1
    ensures e.usageCount >= 1
    ensures e.avgEffectiveness * s.usageCount as real == s.totalEffectiveness as real
    ensures e.avgMoodImprovement * s.usageCount as real == s.totalMoodImprovement as real
  {
    ToolEffectiveness(id, s.toolName, s.category, s.usageCount,
      s.totalEffectiveness as real / s.usageCount as real,
      s.totalMoodImprovement as real / s.usageCount as real)
  }

  /** `Object.values(toolStats).map(...)` as written: no tool id. */
  function PublishedAsWritten(acc: seq<ToolStats>): (r: seq<ToolEffectiveness>)
    requires forall i :: 0 <= i < |acc| ==> acc[i].usageCount >= 1
    ensures |r| == |acc|
    ensures forall i :: 0 <= i < |r| ==> r[i] == Averaged(acc[i], None) && r[i].toolId == None
  {
    seq(|acc|, i requires 0 <= i < |acc| => Averaged(acc[i], None))
  }

  /** What the records say about the rated uses: one record per tool
      used, in the order of the tally, none naming its tool, each with the
      tool's number of uses and its average rating and improvement. */
  ghost predicate Reports(records: seq<ToolEffectiveness>, us: seq<Rated>) {
    var acc := Tally(us);
    |records| == |acc| &&
    (forall k :: 0 <= k < |us| ==> exists i :: 0 <= i < |acc| && acc[i].toolId == us[k].toolId) &&
    DistinctTools(acc) &&
    forall i :: 0 <= i < |records| ==>
      var id := acc[i].toolId;
      UsedTool(us, id) && records[i].toolId == None &&
      records[i].usageCount == UsesOf(us, id) >= 1 &&
      records[i].avgEffectiveness == RatingsOf(us, id) as real / UsesOf(us, id) as real &&
      records[i].avgMoodImprovement == ImprovementsOf(us, id) as real / UsesOf(us, id) as real
  }

  /** The records as written report the rated uses. */
  lemma PublishedReports(us: seq<Rated>)
    ensures Reports(PublishedAsWritten(Tally(us)), us)
  {
    var acc := Tally(us);
    var records := PublishedAsWritten(acc);
    TallySummarizes(us);
    assert Covers(acc, us) && Totals(acc, us) && OnlyUsed(acc, us);
    forall k | 0 <= k < |us| ensures exists i :: 0 <= i < |acc| && acc[i].toolId == us[k].toolId {
      assert acc[EntryOf(acc, us[k].toolId)].toolId == us[k].toolId;
    }
    forall i | 0 <= i < |records|
      ensures records[i].usageCount == UsesOf(us, acc[i].toolId)
      ensures records[i].avgEffectiveness == RatingsOf(us, acc[i].toolId) as real / UsesOf(us, acc[i].toolId) as real
      ensures records[i].avgMoodImprovement == ImprovementsOf(us, acc[i].toolId) as real / UsesOf(us, acc[i].toolId) as real
    {
      assert records[i] == Averaged(acc[i], None);
    }
  }

  /** The summary with each record naming its tool. */
  function Published(acc: seq<ToolStats>): (r: seq<ToolEffectiveness>)
    requires forall i :: 0 <= i < |acc| ==> acc[i].usageCount >= 1
    ensures |r| == |acc|
    ensures forall i :: 0 <= i < |r| ==> r[i] == Averaged(acc[i], Some(acc[i].toolId))
  {
    seq(|acc|, i requires 0 <= i < |acc| => Averaged(acc[i], Some(acc[i].toolId)))
  }

  /** The six sections of a safety plan, each plaintext or ciphertext. */
  datatype Sections = Sections(
    warningSigns: Option<string>,
    copingStrategies: Option<string>,
    supportContacts: Option<string>,
    professionalContacts: Option<string>,
    environmentSafety: Option<string>,
    reasonsToLive: Option<string>)

  /** A row of `safety_plans`: the sections as ciphertexts. */
  datatype PlanRow = PlanRow(id: string, owner: Owner, sealed: Sections, createdAt: string, updatedAt: string)

  /** A safety plan as the service returns it. */
  datatype SafetyPlan = SafetyPlan(id: string, owner: Owner, sections: Sections, createdAt: string, updatedAt: string)

  function TruthyOnly(v: Option<string>): Option<string> {
    if Truthy(v) then v else None
  }

  /** The sections that get written: falsy ones are dropped. */
  function NormalizeSections(s: Sections): Sections {
    Sections(TruthyOnly(s.warningSigns), TruthyOnly(s.copingStrategies), TruthyOnly(s.supportContacts),
      TruthyOnly(s.professionalContacts), TruthyOnly(s.environmentSafety), TruthyOnly(s.reasonsToLive))
  }

  predicate AnyTruthy(s: Sections) {
    Truthy(s.warningSigns) || Truthy(s.copingStrategies) || Truthy(s.supportContacts) ||
    Truthy(s.professionalContacts) || Truthy(s.environmentSafety) || Truthy(s.reasonsToLive)
  }

  /** Each section encrypted when truthy, absent otherwise. */
  function SealSections(cipher: EncryptionService, s: Sections): (r: Result<Sections, ServiceError>)
    reads cipher
    ensures r.Failure? <==> AnyTruthy(s) && !cipher.HasKey()
    ensures r.Success? ==> (r.value.warningSigns.Some? <==> Truthy(s.warningSigns))
  {
    match SealText(cipher, s.warningSigns)
    case Failure(e) => Failure(e)
    case Success(a) =>
    match SealText(cipher, s.copingStrategies)
    case Failure(e) => Failure(e)
    case Success(b) =>
    match SealText(cipher, s.supportContacts)
    case Failure(e) => Failure(e)
    case Success(c) =>
    match SealText(cipher, s.professionalContacts)
    case Failure(e) => Failure(e)
    case Success(d) =>
    match SealText(cipher, s.environmentSafety)
    case Failure(e) => Failure(e)
    case Success(f) =>
    match SealText(cipher, s.reasonsToLive)
    case Failure(e) => Failure(e)
    case Success(g) => Success(Sections(a, b, c, d, f, g))
  }

  /** Each section decrypted when its ciphertext is truthy. */
  function RevealSections(cipher: EncryptionService, s: Sections): (r: Result<Sections, ServiceError>)
    reads cipher
    ensures cipher.HasKey() ==> r.Success?
  {
    match RevealText(cipher, s.warningSigns)
    case Failure(e) => Failure(e)
    case Success(a) =>
    match RevealText(cipher, s.copingStrategies)
    case Failure(e) => Failure(e)
    case Success(b) =>
    match RevealText(cipher, s.supportContacts)
    case Failure(e) => Failure(e)
    case Success(c) =>
    match RevealText(cipher, s.professionalContacts)
    case Failure(e) => Failure(e)
    case Success(d) =>
    match RevealText(cipher, s.environmentSafety)
    case Failure(e) => Failure(e)
    case Success(f) =>
    match RevealText(cipher, s.reasonsToLive)
    case Failure(e) => Failure(e)
    case Success(g) => Success(Sections(a, b, c, d, f, g))
  }

  /** A plan written and read back under one key is the plan, less its
      empty sections. */
  lemma RevealSealSections(cipher: EncryptionService, s: Sections)
    requires SealSections(cipher, s).Success?
    ensures RevealSections(cipher, SealSections(cipher, s).value) == Success(NormalizeSections(s))
  {
    RevealSealText(cipher, s.warningSigns);
    RevealSealText(cipher, s.copingStrategies);
    RevealSealText(cipher, s.supportContacts);
    RevealSealText(cipher, s.professionalContacts);
    RevealSealText(cipher, s.environmentSafety);
    RevealSealText(cipher, s.reasonsToLive);
  }

  function RevealPlan(cipher: EncryptionService, row: PlanRow): (r: Result<SafetyPlan, ServiceError>)
    reads cipher
    ensures r.Success? ==> r.value.id == row.id && r.value.owner == row.owner
    ensures cipher.HasKey() ==> r.Success?
  {
    match RevealSections(cipher, row.sealed)
    case Failure(e) => Failure(e)
    case Success(s) => Success(SafetyPlan(row.id, row.owner, s, row.createdAt, row.updatedAt))
  }

  /** `.update({...encryptedData})` as written: a section missing from the
      payload keeps the ciphertext already stored. */
  function MergeAsWritten(stored: Sections, payload: Sections): Sections {
    Sections(
      if payload.warningSigns.Some? then payload.warningSigns else stored.warningSigns,
      if payload.copingStrategies.Some? then payload.copingStrategies else stored.copingStrategies,
      if payload.supportContacts.Some? then payload.supportContacts else stored.supportContacts,
      if payload.professionalContacts.Some? then payload.professionalContacts else stored.professionalContacts,
      if payload.environmentSafety.Some? then payload.environmentSafety else stored.environmentSafety,
      if payload.reasonsToLive.Some? then payload.reasonsToLive else stored.reasonsToLive)
  }

  /** As written, a section the user emptied keeps its old text: saving a
      plan whose warning signs are blank over a plan that had some leaves
      them in the store. */
  lemma EmptiedSectionSurvives(cipher: EncryptionService, stored: Sections, plan: Sections)
    requires SealSections(cipher, plan).Success? && !Truthy(plan.warningSigns)
    ensures MergeAsWritten(stored, SealSections(cipher, plan).value).warningSigns == stored.warningSigns
  {
  }

  predicate OwnsPlan(p: Principal, row: PlanRow) {
    OwnedBy(row.owner, p)
  }

  function MyPlans(plans: seq<PlanRow>, p: Principal): seq<PlanRow> {
    Filter(plans, row => OwnsPlan(p, row))
  }

  /** `.single()` on the principal's plans: the plan when there is exactly
      one row; none otherwise, and none without a principal. */
  function PlanOf(cipher: EncryptionService, plans: seq<PlanRow>, p: Option<Principal>)
    : (r: Result<Option<SafetyPlan>, ServiceError>)
    reads cipher
    ensures p.None? ==> r == Success(None)
    ensures p.Some? && |MyPlans(plans, p.value)| != 1 ==> r == Success(None)
    ensures r.Success? && r.value.Some? ==>
      p.Some? && |MyPlans(plans, p.value)| == 1 && r.value.value.id == MyPlans(plans, p.value)[0].id
  {
    if p.None? then Success(None)
    else
      var mine := MyPlans(plans, p.value);
      if |mine| != 1 then Success(None)
      else match RevealPlan(cipher, mine[0])
        case Failure(e) => Failure(e)
        case Success(plan) => Success(Some(plan))
  }

  /** The intended update: every section of the plan is written, so an
      emptied one is cleared. */
  function ClearingWrite(stored: Sections, payload: Sections): Sections {
    payload
  }

  /** The update of the rows with id `id`: their sections are combined
      with the payload by `write`, which is `MergeAsWritten` for the
      update as written, and their time is set. */
  function Updated(row: PlanRow, id: string, payload: Sections, now: string,
                   write: (Sections, Sections) -> Sections): PlanRow {
    if row.id == id then row.(sealed := write(row.sealed, payload), updatedAt := now) else row
  }

  function UpdateById(plans: seq<PlanRow>, id: string, payload: Sections, now: string,
                      write: (Sections, Sections) -> Sections): (r: seq<PlanRow>)
    ensures |r| == |plans|
    ensures forall i :: 0 <= i < |plans| ==>
      r[i].id == plans[i].id && r[i].owner == plans[i].owner && r[i].createdAt == plans[i].createdAt &&
      (plans[i].id != id ==> r[i] == plans[i]) &&
      (plans[i].id == id ==> r[i].sealed == write(plans[i].sealed, payload) && r[i].updatedAt == now)
  {
    Map(plans, row => Updated(row, id, payload, now, write))
  }

  /** The table after `saveSafetyPlan` and the row it returns: the plan
      found by the existence check is updated by its id; when none was
      found, or the check failed, a new row is inserted. */
  function SavedPlans(cipher: EncryptionService, plans: seq<PlanRow>, p: Principal, sealed: Sections,
                      lookupFails: bool, id: string, now: string,
                      write: (Sections, Sections) -> Sections): (r: (seq<PlanRow>, PlanRow))
    reads cipher
  {
    var existing := if lookupFails then Failure(NotFound) else PlanOf(cipher, plans, Some(p));
    if existing.Success? && existing.value.Some? then
      var target := existing.value.value.id;
      (UpdateById(plans, target, sealed, now, write), Updated(MyPlans(plans, p)[0], target, sealed, now, write))
    else
      var row := PlanRow(id, OwnerOf(p), sealed, now, now);
      (plans + [row], row)
  }

  /** Updating rows by id keeps who owns which row. */
  lemma UpdateKeepsMine(plans: seq<PlanRow>, p: Principal, target: string, sealed: Sections, now: string,
                        write: (Sections, Sections) -> Sections)
    ensures MyPlans(UpdateById(plans, target, sealed, now, write), p) ==
      Map(MyPlans(plans, p), row => Updated(row, target, sealed, now, write))
  {
    FilterMap(plans, row => Updated(row, target, sealed, now, write), row => OwnsPlan(p, row), row => OwnsPlan(p, row));
  }

  /** Saving over at most one plan leaves the principal exactly one: the
      old row updated by `write`, or the new row. */
  lemma SavedSoleRow(cipher: EncryptionService, plans: seq<PlanRow>, p: Principal, sealed: Sections,
                     id: string, now: string, write: (Sections, Sections) -> Sections)
    requires cipher.HasKey() && |MyPlans(plans, p)| <= 1
    ensures var mine := MyPlans(plans, p);
      PlanOf(cipher, plans, Some(p)).Success? &&
      MyPlans(SavedPlans(cipher, plans, p, sealed, false, id, now, write).0, p) ==
        [if |mine| == 1 then Updated(mine[0], mine[0].id, sealed, now, write) else PlanRow(id, OwnerOf(p), sealed, now, now)]
  {
    var mine := MyPlans(plans, p);
    if |mine| == 1 {
      var target := mine[0].id;
      assert PlanOf(cipher, plans, Some(p)).value.value.id == target;
      UpdateKeepsMine(plans, p, target, sealed, now, write);
      assert SavedPlans(cipher, plans, p, sealed, false, id, now, write).0 == UpdateById(plans, target, sealed, now, write);
    } else {
      var row := PlanRow(id, OwnerOf(p), sealed, now, now);
      assert SavedPlans(cipher, plans, p, sealed, false, id, now, write).0 == plans + [row];
      FilterAppend(plans, row, row => OwnsPlan(p, row));
      OwnerSeparation(p, p);
    }
  }

  /** One section after the update as written, read back: the saved text
      when it was truthy, the stored one otherwise. */
  lemma RevealMergedText(cipher: EncryptionService, stored: Option<string>, plain: Option<string>)
    requires cipher.HasKey()
    ensures SealText(cipher, plain).Success? && RevealText(cipher, stored).Success?
    ensures var sealed := SealText(cipher, plain).value;
      RevealText(cipher, if sealed.Some? then sealed else stored) ==
        Success(if Truthy(plain) then plain else RevealText(cipher, stored).value)
  {
    RevealSealText(cipher, plain);
  }

  /** A plan updated as written and read back: the sections the save gave
      replace the ones read before, the others stay. */
  lemma RevealMerged(cipher: EncryptionService, stored: Sections, plan: Sections)
    requires cipher.HasKey()
    ensures SealSections(cipher, plan).Success? && RevealSections(cipher, stored).Success?
    ensures RevealSections(cipher, MergeAsWritten(stored, SealSections(cipher, plan).value)) ==
      Success(MergeAsWritten(RevealSections(cipher, stored).value, NormalizeSections(plan)))
  {
    RevealMergedText(cipher, stored.warningSigns, plan.warningSigns);
    RevealMergedText(cipher, stored.copingStrategies, plan.copingStrategies);
    RevealMergedText(cipher, stored.supportContacts, plan.supportContacts);
    RevealMergedText(cipher, stored.professionalContacts, plan.professionalContacts);
    RevealMergedText(cipher, stored.environmentSafety, plan.environmentSafety);
    RevealMergedText(cipher, stored.reasonsToLive, plan.reasonsToLive);
  }

  /** Saving, as written, keeps a principal at one plan, and reading it
      back gives the plan read before with each section the save gave
      replaced; a principal without a plan reads back the plan just saved,
      less its empty sections. */
  lemma SaveThenGet(cipher: EncryptionService, plans: seq<PlanRow>, p: Principal, plan: Sections, id: string, now: string)
    requires cipher.HasKey() && |MyPlans(plans, p)| <= 1
    ensures var sealed := SealSections(cipher, plan);
      var before := PlanOf(cipher, plans, Some(p));
      sealed.Success? && before.Success? &&
      var after := SavedPlans(cipher, plans, p, sealed.value, false, id, now, MergeAsWritten).0;
      |MyPlans(after, p)| == 1 &&
      PlanOf(cipher, after, Some(p)).Success? &&
      PlanOf(cipher, after, Some(p)).value.Some? &&
      PlanOf(cipher, after, Some(p)).value.value.sections ==
        (if before.value.Some? then MergeAsWritten(before.value.value.sections, NormalizeSections(plan))
         else NormalizeSections(plan))
  {
    var sealed := SealSections(cipher, plan).value;
    RevealSealSections(cipher, plan);
    var mine := MyPlans(plans, p);
    SavedSoleRow(cipher, plans, p, sealed, id, now, MergeAsWritten);
    var after := SavedPlans(cipher, plans, p, sealed, false, id, now, MergeAsWritten).0;
    if |mine| == 1 {
      RevealMerged(cipher, mine[0].sealed, plan);
      var row := Updated(mine[0], mine[0].id, sealed, now, MergeAsWritten);
      ReadsSoleRow(cipher, after, p, row, MergeAsWritten(RevealSections(cipher, mine[0].sealed).value, NormalizeSections(plan)));
    } else {
      ReadsSoleRow(cipher, after, p, PlanRow(id, OwnerOf(p), sealed, now, now), NormalizeSections(plan));
    }
  }

  /** With the intended update, reading back after a save gives exactly
      the plan just saved, less its empty sections, so an emptied section
      is gone. */
  lemma ClearingSaveThenGet(cipher: EncryptionService, plans: seq<PlanRow>, p: Principal, plan: Sections, id: string, now: string)
    requires cipher.HasKey() && |MyPlans(plans, p)| <= 1
    ensures var sealed := SealSections(cipher, plan);
      sealed.Success? &&
      var after := SavedPlans(cipher, plans, p, sealed.value, false, id, now, ClearingWrite).0;
      |MyPlans(after, p)| == 1 &&
      PlanOf(cipher, after, Some(p)).Success? &&
      PlanOf(cipher, after, Some(p)).value.Some? &&
      PlanOf(cipher, after, Some(p)).value.value.sections == NormalizeSections(plan)
  {
    var sealed := SealSections(cipher, plan).value;
    RevealSealSections(cipher, plan);
    var mine := MyPlans(plans, p);
    SavedSoleRow(cipher, plans, p, sealed, id, now, ClearingWrite);
    var after := SavedPlans(cipher, plans, p, sealed, false, id, now, ClearingWrite).0;
    if |mine| == 1 {
      ReadsSoleRow(cipher, after, p, Updated(mine[0], mine[0].id, sealed, now, ClearingWrite), NormalizeSections(plan));
    } else {
      ReadsSoleRow(cipher, after, p, PlanRow(id, OwnerOf(p), sealed, now, now), NormalizeSections(plan));
    }
  }

  /** The principal's only row is read back with its revealed sections. */
  lemma ReadsSoleRow(cipher: EncryptionService, plans: seq<PlanRow>, p: Principal, row: PlanRow, sections: Sections)
    requires MyPlans(plans, p) == [row]
    requires RevealSections(cipher, row.sealed) == Success(sections)
    ensures PlanOf(cipher, plans, Some(p)).Success?
    ensures PlanOf(cipher, plans, Some(p)).value.Some?
    ensures PlanOf(cipher, plans, Some(p)).value.value.sections == sections
  {
  }

  /** When the existence check fails, the save inserts a further row. */
  lemma FailedLookupInserts(cipher: EncryptionService, plans: seq<PlanRow>, p: Principal, sealed: Sections, id: string, now: string)
    ensures var after := SavedPlans(cipher, plans, p, sealed, true, id, now, MergeAsWritten).0;
      |MyPlans(after, p)| == |MyPlans(plans, p)| + 1
  {
    var row := PlanRow(id, OwnerOf(p), sealed, now, now);
    FilterAppend(plans, row, row => OwnsPlan(p, row));
    OwnerSeparation(p, p);
  }

  /** The remote tables of the coping-tools service. */
  class CopingTables {
    var usage: seq<UsageRow>
    var tools: seq<CopingTool>
    var plans: seq<PlanRow>

    constructor(tools: seq<CopingTool>)
      ensures usage == [] && this.tools == tools && plans == []
    {
      usage := [];
      this.tools := tools;
      plans := [];
    }
  }

  class CopingToolsService {
    const cipher: EncryptionService
    const storage: LocalStorage
    const tables: CopingTables

    constructor(cipher: EncryptionService, storage: LocalStorage, tables: CopingTables)
      ensures this.cipher == cipher && this.storage == storage && this.tables == tables
    {
      this.cipher := cipher;
      this.storage := storage;
      this.tables := tables;
    }

    /** `recordToolUsage(usage)`: identity first, then the notes encrypted
        when truthy, then the insert, which the database may refuse. */
    method RecordToolUsage(user: Option<User>, fields: UsageFields, notes: Option<string>, id: string,
                           now: string, rejection: Option<string>) returns (r: Result<ToolUsage, ServiceError>)
      modifies tables
      ensures var p := CurrentPrincipal(user, storage);
        (p.None? ==> r == Failure(NoUserSession)) &&
        (p.Some? && Truthy(notes) && !cipher.HasKey() ==> r == Failure(CipherFailed(KeyNotInitialized))) &&
        (p.Some? && SealText(cipher, notes).Success? && rejection.Some? ==> r == Failure(Rejected(rejection.value))) &&
        (r.Success? <==> p.Some? && SealText(cipher, notes).Success? && rejection.None?) &&
        (r.Success? ==>
          r.value == WrittenUsage(OwnerOf(p.value), fields, notes, id, now) &&
          tables.usage == old(tables.usage) + [UsageRow(id, OwnerOf(p.value), fields, SealText(cipher, notes).value, now)]) &&
        (r.Failure? ==> tables.usage == old(tables.usage))
      ensures tables.tools == old(tables.tools) && tables.plans == old(tables.plans)
    {
      var anonymousId := storage.GetItem(AnonymousIdKey);
      var principal := ResolvePrincipal(user, anonymousId);
      if principal.None? {
        return Failure(NoUserSession);
      }
      var encryptedNotes := SealText(cipher, notes);
      if encryptedNotes.Failure? {
        return Failure(encryptedNotes.error);
      }
      if rejection.Some? {
        return Failure(Rejected(rejection.value));
      }
      var row := UsageRow(id, OwnerOf(principal.value), fields, encryptedNotes.value, now);
      tables.usage := tables.usage + [row];
      RevealSealText(cipher, notes);
      r := RevealUsage(cipher, row);
    }

    /** `getToolUsageHistory(limit)`. */
    function GetToolUsageHistory(user: Option<User>, limit: nat): (r: Result<seq<ToolUsage>, ServiceError>)
      reads storage, cipher, tables
      ensures CurrentPrincipal(user, storage).None? ==> r == Success([])
      ensures r.Success? ==> |r.value| <= limit
    {
      RevealUsages(cipher, UsageHistory(tables.usage, CurrentPrincipal(user, storage), limit))
    }

    /** `getToolEffectiveness()`: the principal's rated uses, tallied per
        tool, one record per tool used, each with its averages and, as
        written, without the tool's id. */
    method GetToolEffectiveness(user: Option<User>) returns (r: Result<seq<ToolEffectiveness>, ServiceError>)
      ensures var p := CurrentPrincipal(user, storage);
        (p.None? ==> r == Success([])) &&
        (p.Some? ==> match RatedRows(MyUsage(tables.usage, p.value), tables.tools)
          case Failure(e) => r == Failure(e)
          case Success(us) =>
            r == Success(PublishedAsWritten(Tally(us))) && Reports(r.value, us))
    {
      var principal := CurrentPrincipal(user, storage);
      if principal.None? {
        return Success([]);
      }
      var rated := RatedRows(MyUsage(tables.usage, principal.value), tables.tools);
      if rated.Failure? {
        return Failure(rated.error);
      }
      var acc := TallyUses(rated.value);
      r := Success(PublishedAsWritten(acc));
      PublishedReports(rated.value);
    }

    /** `getSafetyPlan()`. */
    function GetSafetyPlan(user: Option<User>): (r: Result<Option<SafetyPlan>, ServiceError>)
      reads storage, cipher, tables
      ensures CurrentPrincipal(user, storage).None? ==> r == Success(None)
    {
      PlanOf(cipher, tables.plans, CurrentPrincipal(user, storage))
    }

    /** `saveSafetyPlan(plan)`, whose update writes only the truthy
        sections; `lookupFails` says whether the existence
        check's own query failed, `rejection` whether the write did. */
    method SaveSafetyPlan(user: Option<User>, plan: Sections, id: string, now: string, lookupFails: bool,
                          rejection: Option<string>) returns (r: Result<SafetyPlan, ServiceError>)
      modifies tables
      ensures var p := CurrentPrincipal(user, storage);
        var sealed := SealSections(cipher, plan);
        (p.None? ==> r == Failure(NoUserSession) && tables.plans == old(tables.plans)) &&
        (p.Some? && sealed.Failure? ==> r == Failure(sealed.error) && tables.plans == old(tables.plans)) &&
        (p.Some? && sealed.Success? && rejection.Some? ==>
          r == Failure(Rejected(rejection.value)) && tables.plans == old(tables.plans)) &&
        (p.Some? && sealed.Success? && rejection.None? ==>
          var (after, row) := SavedPlans(cipher, old(tables.plans), p.value, sealed.value, lookupFails, id, now, MergeAsWritten);
          tables.plans == after && r == RevealPlan(cipher, row))
      ensures tables.usage == old(tables.usage) && tables.tools == old(tables.tools)
    {
      var anonymousId := storage.GetItem(AnonymousIdKey);
      var principal := ResolvePrincipal(user, anonymousId);
      if principal.None? {
        return Failure(NoUserSession);
      }
      var sealed := SealSections(cipher, plan);
      if sealed.Failure? {
        return Failure(sealed.error);
      }
      var existing := if lookupFails then Failure(NotFound) else PlanOf(cipher, tables.plans, principal);
      if rejection.Some? {
        return Failure(Rejected(rejection.value));
      }
      var row;
      if existing.Success? && existing.value.Some? {
        var target := existing.value.value.id;
        row := Updated(MyPlans(tables.plans, principal.value)[0], target, sealed.value, now, MergeAsWritten);
        tables.plans := UpdateById(tables.plans, target, sealed.value, now, MergeAsWritten);
      } else {
        row := PlanRow(id, OwnerOf(principal.value), sealed.value, now, now);
        tables.plans := tables.plans + [row];
      }
      r := RevealPlan(cipher, row);
    }
  }
}
