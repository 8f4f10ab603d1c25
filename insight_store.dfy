/** Where the insight engine keeps what it found: the `ai_insights`,
    `pattern_analysis` and `risk_assessments` tables. Each save stamps the
    rows with the caller's owner columns and encrypts the one free-text
    field; each read returns the caller's rows newest first and decrypts
    that field. Saves swallow every error, so a failed save leaves the
    tables as they were and tells nobody. */
module InsightStore {
  import opened Wrappers
  import opened Seqs
  import opened Storage
  import opened Encryption
  import opened Auth
  import opened Identity
  import opened Fields
  import opened InsightData

  /** A row of `ai_insights`. */
  datatype InsightRow = InsightRow(
    owner: Owner,
    insightType: InsightType,
    encryptedContent: string,
    confidence: real,
    periodStart: string,
    periodEnd: string,
    isReviewed: bool)

  /** A row of `pattern_analysis`. */
  datatype PatternRow = PatternRow(
    owner: Owner,
    patternType: PatternType,
    encryptedDescription: string,
    strength: real,
    frequency: Frequency,
    triggers: seq<string>,
    recommendations: seq<string>)

  /** A row of `risk_assessments`; the advice column is null when the
      assessment had none. */
  datatype RiskRow = RiskRow(
    owner: Owner,
    level: RiskLevel,
    riskFactors: seq<string>,
    protectiveFactors: seq<string>,
    encryptedRecommendations: Option<string>,
    requiresIntervention: bool)

  /** A risk assessment as `getLatestRiskAssessment` returns it: the advice
      is `undefined` when none was stored. */
  datatype StoredAssessment = StoredAssessment(
    level: RiskLevel,
    riskFactors: seq<string>,
    protectiveFactors: seq<string>,
    recommendations: Option<string>,
    requiresIntervention: bool)

  function InsightOwner(row: InsightRow): Owner { row.owner }
  function PatternOwner(row: PatternRow): Owner { row.owner }
  function RiskOwner(row: RiskRow): Owner { row.owner }

  /** The owner columns a save writes: the user's id when signed in, else
      the stored anonymous id. Unlike the other services
      there is no session check, so a device with neither writes a row
      with no usable owner. */
  function SaveOwner(user: Option<User>, anonymousId: Option<string>): (o: Owner)
    ensures var p := ResolvePrincipal(user, anonymousId); p.Some? ==> o == OwnerOf(p.value)
    ensures ResolvePrincipal(user, anonymousId).None? ==> o.userId.None? && !Truthy(o.anonymousId)
  {
    if user.Some? then Owner(Some(user.value.id), None) else Owner(None, anonymousId)
  }

  /** A row saved without a user and without a usable anonymous id is
      never read back, by any device, signed in or not. */
  lemma OrphanRowNeverRead(user: Option<User>, anonymousId: Option<string>,
                           reader: Option<User>, readerId: Option<string>)
    requires ResolvePrincipal(user, anonymousId).None?
    ensures var q := ResolvePrincipal(reader, readerId);
      q.Some? ==> !OwnedBy(SaveOwner(user, anonymousId), q.value)
  {
    var o := SaveOwner(user, anonymousId);
    var q := ResolvePrincipal(reader, readerId);
    if q.Some? && q.value.ByAnonymous? {
      assert Truthy(readerId);
      assert !Truthy(o.anonymousId);
    }
  }

  /** The row an insight is saved as. */
  function SealInsight(owner: Owner, key: string, i: Insight): (row: InsightRow)
    ensures row.owner == owner && RevealInsight(key, row) == i
  {
    OpenSeal(key, i.content);
    InsightRow(owner, i.insightType, Seal(key, i.content), i.confidence, i.periodStart, i.periodEnd, i.isReviewed)
  }

  /** A stored insight with its content decrypted. */
  function RevealInsight(key: string, row: InsightRow): Insight {
    Insight(row.insightType, Open(key, row.encryptedContent), row.confidence, row.periodStart, row.periodEnd, row.isReviewed)
  }

  /** The row a pattern is saved as. */
  function SealPattern(owner: Owner, key: string, p: Pattern): (row: PatternRow)
    ensures row.owner == owner && RevealPattern(key, row) == p
  {
    OpenSeal(key, p.description);
    PatternRow(owner, p.patternType, Seal(key, p.description), p.strength, p.frequency, p.triggers, p.recommendations)
  }

  /** A stored pattern with its description decrypted. */
  function RevealPattern(key: string, row: PatternRow): Pattern {
    Pattern(row.patternType, Open(key, row.encryptedDescription), row.strength, row.frequency, row.triggers, row.recommendations)
  }

  /** `items.map(...)` building the rows of a batch save: the first
      `encrypt` throws when the cipher has no key, which only an empty
      batch escapes. */
  function SealAll<T, R>(cipher: EncryptionService, owner: Owner, xs: seq<T>, seal: (Owner, string, T) -> R)
    : (r: Result<seq<R>, ServiceError>)
    reads cipher
    ensures r.Failure? <==> xs != [] && !cipher.HasKey()
    ensures r.Failure? ==> r.error == CipherFailed(KeyNotInitialized)
    ensures r.Success? ==> |r.value| == |xs|
    ensures r.Success? ==>
      forall k :: 0 <= k < |xs| ==> r.value[k] == seal(owner, cipher.encryptionKey.value, xs[k])
  {
    if xs == [] then Success([])
    else if !cipher.HasKey() then Failure(CipherFailed(KeyNotInitialized))
    else
      var key := cipher.encryptionKey.value;
      Success(Map(xs, (x: T) => seal(owner, key, x)))
  }

  /** `data.map(...)` decrypting the rows a read returned: the first
      `decrypt` throws when the cipher has no key, which only an empty
      result escapes. */
  function RevealRows<R, T>(cipher: EncryptionService, rows: seq<R>, open: (string, R) -> T)
    : (r: Result<seq<T>, ServiceError>)
    reads cipher
    ensures r.Failure? <==> rows != [] && !cipher.HasKey()
    ensures r.Success? ==> |r.value| == |rows|
    ensures r.Success? ==>
      forall k :: 0 <= k < |rows| ==> r.value[k] == open(cipher.encryptionKey.value, rows[k])
  {
    if rows == [] then Success([])
    else if !cipher.HasKey() then Failure(CipherFailed(KeyNotInitialized))
    else
      var key := cipher.encryptionKey.value;
      Success(Map(rows, (row: R) => open(key, row)))
  }

  /** The rows a read selects: `.eq(owner column).order(created_at desc)
      .limit(limit)`, nothing without a principal. */
  function Newest<R(==)>(rows: seq<R>, ownerOf: R -> Owner, p: Option<Principal>, limit: nat): (r: seq<R>)
    ensures |r| <= limit
    ensures forall i :: 0 <= i < |r| ==> r[i] in rows && p.Some? && OwnedBy(ownerOf(r[i]), p.value)
  {
    if p.None? then [] else Take(Reverse(Filter(rows, (row: R) => OwnedBy(ownerOf(row), p.value))), limit)
  }

  /** A batch saved by a principal comes back first, newest first, ahead
      of what that principal had saved before. */
  lemma NewestAfterSave<R>(rows: seq<R>, written: seq<R>, ownerOf: R -> Owner, p: Principal, limit: nat)
    requires forall k :: 0 <= k < |written| ==> OwnedBy(ownerOf(written[k]), p)
    requires limit >= |written|
    ensures Newest(rows + written, ownerOf, Some(p), limit) ==
      Reverse(written) + Newest(rows, ownerOf, Some(p), limit - |written|)
  {
    var mine := (row: R) => OwnedBy(ownerOf(row), p);
    FilterConcat(rows, written, mine);
    FilterAll(written, mine);
    ReverseConcat(Filter(rows, mine), written);
    TakeConcat(Reverse(written), Reverse(Filter(rows, mine)), limit);
  }

  /** Rows another principal saves never show up in a read. */
  lemma NewestIgnoresOthers<R>(rows: seq<R>, written: seq<R>, ownerOf: R -> Owner, q: Principal, limit: nat)
    requires forall k :: 0 <= k < |written| ==> !OwnedBy(ownerOf(written[k]), q)
    ensures Newest(rows + written, ownerOf, Some(q), limit) == Newest(rows, ownerOf, Some(q), limit)
  {
    var mine := (row: R) => OwnedBy(ownerOf(row), q);
    FilterConcat(rows, written, mine);
    assert Filter(written, mine) == [];
    assert Filter(rows + written, mine) == Filter(rows, mine);
  }

  /** Insights a device saves are the first ones it reads back, newest
      first, with their contents decrypted, when the read asks for at
      least as many. */
  lemma InsightsReadBack(cipher: EncryptionService, rows: seq<InsightRow>, user: Option<User>,
                         stored: Option<string>, xs: seq<Insight>, limit: nat)
    requires cipher.HasKey() && ResolvePrincipal(user, stored).Some? && limit >= |xs|
    ensures var written := SealAll(cipher, SaveOwner(user, stored), xs, SealInsight).value;
      var r := RevealRows(cipher, Newest(rows + written, InsightOwner, ResolvePrincipal(user, stored), limit), RevealInsight);
      r.Success? && |r.value| >= |xs| && r.value[..|xs|] == Reverse(xs)
  {
    var p := ResolvePrincipal(user, stored).value;
    var owner := SaveOwner(user, stored);
    var written := SealAll(cipher, owner, xs, SealInsight).value;
    var key := cipher.encryptionKey.value;
    OwnerSeparation(p, p);
    NewestAfterSave(rows, written, InsightOwner, p, limit);
    var more := Newest(rows, InsightOwner, Some(p), limit - |written|);
    forall k | 0 <= k < |xs| ensures RevealInsight(key, written[k]) == xs[k] {
      assert written[k] == SealInsight(owner, key, xs[k]);
    }
    var r := RevealRows(cipher, Reverse(written) + more, RevealInsight);
    RevealedPrefix(key, xs, written, more, r.value, RevealInsight);
  }

  /** Rows written for `xs`, newest first and followed by older ones, read
      back as `xs` reversed when each row opens to its item. */
  lemma RevealedPrefix<R, T>(key: string, xs: seq<T>, written: seq<R>, more: seq<R>, revealed: seq<T>,
                             open: (string, R) -> T)
    requires |written| == |xs|
    requires forall k :: 0 <= k < |xs| ==> open(key, written[k]) == xs[k]
    requires |revealed| == |written| + |more|
    requires forall k :: 0 <= k < |revealed| ==> revealed[k] == open(key, (Reverse(written) + more)[k])
    ensures |revealed| >= |xs| && revealed[..|xs|] == Reverse(xs)
  {
    forall k | 0 <= k < |xs| ensures revealed[k] == Reverse(xs)[k] {
      assert (Reverse(written) + more)[k] == written[|xs| - 1 - k];
    }
  }

  /** The same for patterns and their descriptions. */
  lemma PatternsReadBack(cipher: EncryptionService, rows: seq<PatternRow>, user: Option<User>,
                         stored: Option<string>, xs: seq<Pattern>, limit: nat)
    requires cipher.HasKey() && ResolvePrincipal(user, stored).Some? && limit >= |xs|
    ensures var written := SealAll(cipher, SaveOwner(user, stored), xs, SealPattern).value;
      var r := RevealRows(cipher, Newest(rows + written, PatternOwner, ResolvePrincipal(user, stored), limit), RevealPattern);
      r.Success? && |r.value| >= |xs| && r.value[..|xs|] == Reverse(xs)
  {
    var p := ResolvePrincipal(user, stored).value;
    var owner := SaveOwner(user, stored);
    var written := SealAll(cipher, owner, xs, SealPattern).value;
    var key := cipher.encryptionKey.value;
    OwnerSeparation(p, p);
    NewestAfterSave(rows, written, PatternOwner, p, limit);
    var more := Newest(rows, PatternOwner, Some(p), limit - |written|);
    forall k | 0 <= k < |xs| ensures RevealPattern(key, written[k]) == xs[k] {
      assert written[k] == SealPattern(owner, key, xs[k]);
    }
    var r := RevealRows(cipher, Reverse(written) + more, RevealPattern);
    RevealedPrefix(key, xs, written, more, r.value, RevealPattern);
  }

  /** The row `saveRiskAssessment` writes: the advice is encrypted only
      when there is some, and an `encrypt` with no key fails the save. */
  function SealAssessment(cipher: EncryptionService, owner: Owner, a: Assessment): (r: Result<RiskRow, ServiceError>)
    reads cipher
    ensures r.Failure? <==> a.recommendations != "" && !cipher.HasKey()
    ensures r.Success? ==> (r.value.owner == owner && r.value.level == a.level &&
      (r.value.encryptedRecommendations.Some? <==> a.recommendations != ""))
  {
    match SealText(cipher, Some(a.recommendations))
    case Failure(e) => Failure(e)
    case Success(advice) =>
      Success(RiskRow(owner, a.level, a.riskFactors, a.protectiveFactors, advice, a.requiresIntervention))
  }

  /** A stored assessment with its advice decrypted when there is some. */
  function RevealAssessment(cipher: EncryptionService, row: RiskRow): (r: Result<StoredAssessment, ServiceError>)
    reads cipher
    ensures r.Failure? <==> Truthy(row.encryptedRecommendations) && !cipher.HasKey()
    ensures r.Success? ==> (r.value.level == row.level && r.value.riskFactors == row.riskFactors &&
      r.value.protectiveFactors == row.protectiveFactors && r.value.requiresIntervention == row.requiresIntervention)
  {
    match RevealText(cipher, row.encryptedRecommendations)
    case Failure(e) => Failure(e)
    case Success(advice) =>
      Success(StoredAssessment(row.level, row.riskFactors, row.protectiveFactors, advice, row.requiresIntervention))
  }

  /** What an assessment reads back as: advice that was empty is `undefined`. */
  function Stored(a: Assessment): StoredAssessment {
    StoredAssessment(a.level, a.riskFactors, a.protectiveFactors,
      if a.recommendations != "" then Some(a.recommendations) else None, a.requiresIntervention)
  }

  /** An assessment a device saves is the latest one it reads back, with
      its advice decrypted, or `undefined` when it had none. */
  lemma AssessmentReadBack(cipher: EncryptionService, rows: seq<RiskRow>, user: Option<User>,
                           stored: Option<string>, a: Assessment)
    requires ResolvePrincipal(user, stored).Some?
    requires SealAssessment(cipher, SaveOwner(user, stored), a).Success?
    ensures var row := SealAssessment(cipher, SaveOwner(user, stored), a).value;
      Newest(rows + [row], RiskOwner, ResolvePrincipal(user, stored), 1) == [row] &&
      RevealAssessment(cipher, row) == Success(Stored(a))
  {
    var p := ResolvePrincipal(user, stored).value;
    var row := SealAssessment(cipher, SaveOwner(user, stored), a).value;
    OwnerSeparation(p, p);
    NewestAfterSave(rows, [row], RiskOwner, p, 1);
    RevealSealText(cipher, Some(a.recommendations));
  }

  /** The remote tables of the insight engine. */
  class InsightTables {
    var insights: seq<InsightRow>
    var patterns: seq<PatternRow>
    var risks: seq<RiskRow>

    constructor()
      ensures insights == [] && patterns == [] && risks == []
    {
      insights := [];
      patterns := [];
      risks := [];
    }
  }

  /** The save and read half of the AI service. `user` is what
      `auth.getUser()` returned and `rejection` the error an insert
      returns, if any. */
  class InsightStore {
    const cipher: EncryptionService
    const storage: LocalStorage
    const tables: InsightTables

    constructor(cipher: EncryptionService, storage: LocalStorage, tables: InsightTables)
      ensures this.cipher == cipher && this.storage == storage && this.tables == tables
    {
      this.cipher := cipher;
      this.storage := storage;
      this.tables := tables;
    }

    function Owner(user: Option<User>): Owner
      reads storage
    {
      SaveOwner(user, storage.GetItem(AnonymousIdKey))
    }

    /** `saveInsights(insights)`: one insert of the whole batch, or
        nothing when the batch is empty, the cipher has no key or the
        insert is refused. */
    method SaveInsights(user: Option<User>, insights: seq<Insight>, rejection: Option<string>)
      modifies tables
      ensures var rows := SealAll(cipher, Owner(user), insights, SealInsight);
        tables.insights == old(tables.insights) + (if rows.Success? && rejection.None? then rows.value else [])
      ensures tables.patterns == old(tables.patterns) && tables.risks == old(tables.risks)
    {
      if |insights| == 0 {
        return;
      }
      var anonymousId := storage.GetItem(AnonymousIdKey);
      var owner := SaveOwner(user, anonymousId);
      var rows := SealAll(cipher, owner, insights, SealInsight);
      if rows.Failure? || rejection.Some? {
        return;
      }
      tables.insights := tables.insights + rows.value;
    }

    /** `savePatterns(patterns)`, the same for patterns. */
    method SavePatterns(user: Option<User>, patterns: seq<Pattern>, rejection: Option<string>)
      modifies tables
      ensures var rows := SealAll(cipher, Owner(user), patterns, SealPattern);
        tables.patterns == old(tables.patterns) + (if rows.Success? && rejection.None? then rows.value else [])
      ensures tables.insights == old(tables.insights) && tables.risks == old(tables.risks)
    {
      if |patterns| == 0 {
        return;
      }
      var anonymousId := storage.GetItem(AnonymousIdKey);
      var owner := SaveOwner(user, anonymousId);
      var rows := SealAll(cipher, owner, patterns, SealPattern);
      if rows.Failure? || rejection.Some? {
        return;
      }
      tables.patterns := tables.patterns + rows.value;
    }

    /** `saveRiskAssessment(assessment)`: one insert, or nothing when the
        advice cannot be encrypted or the insert is refused. */
    method SaveRiskAssessment(user: Option<User>, assessment: Assessment, rejection: Option<string>)
      modifies tables
      ensures var row := SealAssessment(cipher, Owner(user), assessment);
        tables.risks == old(tables.risks) + (if row.Success? && rejection.None? then [row.value] else [])
      ensures tables.insights == old(tables.insights) && tables.patterns == old(tables.patterns)
    {
      var anonymousId := storage.GetItem(AnonymousIdKey);
      var owner := SaveOwner(user, anonymousId);
      var row := SealAssessment(cipher, owner, assessment);
      if row.Failure? || rejection.Some? {
        return;
      }
      tables.risks := tables.risks + [row.value];
    }

    /** `getInsights(limit)`. */
    function GetInsights(user: Option<User>, limit: nat): (r: Result<seq<Insight>, ServiceError>)
      reads storage, cipher, tables
      ensures CurrentPrincipal(user, storage).None? ==> r == Success([])
      ensures r.Success? ==> |r.value| <= limit
      ensures r.Failure? ==> !cipher.HasKey()
    {
      RevealRows(cipher, Newest(tables.insights, InsightOwner, CurrentPrincipal(user, storage), limit), RevealInsight)
    }

    /** `getPatterns(limit)`. */
    function GetPatterns(user: Option<User>, limit: nat): (r: Result<seq<Pattern>, ServiceError>)
      reads storage, cipher, tables
      ensures CurrentPrincipal(user, storage).None? ==> r == Success([])
      ensures r.Success? ==> |r.value| <= limit
      ensures r.Failure? ==> !cipher.HasKey()
    {
      RevealRows(cipher, Newest(tables.patterns, PatternOwner, CurrentPrincipal(user, storage), limit), RevealPattern)
    }

    /** `getLatestRiskAssessment()`: the newest of the principal's
        assessments, null when there is none or no principal. */
    function GetLatestRiskAssessment(user: Option<User>): (r: Result<Option<StoredAssessment>, ServiceError>)
      reads storage, cipher, tables
      ensures CurrentPrincipal(user, storage).None? ==> r == Success(None)
      ensures r.Success? && r.value.Some? ==>
        exists row :: row in tables.risks && OwnedBy(row.owner, CurrentPrincipal(user, storage).value) &&
          RevealAssessment(cipher, row) == Success(r.value.value)
      ensures r.Failure? ==> !cipher.HasKey()
    {
      var latest := Newest(tables.risks, RiskOwner, CurrentPrincipal(user, storage), 1);
      if latest == [] then Success(None)
      else match RevealAssessment(cipher, latest[0])
        case Failure(e) => Failure(e)
        case Success(a) => Success(Some(a))
    }
  }
}
