/** The mood service: check-ins written with their sensitive fields
    encrypted, read back newest first and decrypted, the streak row, the
    statistics of the last thirty check-ins and today's check-in.

    The remote tables are a class holding the rows in the order they were
    inserted, which is the order of `created_at`; the identifiers and
    timestamps the database assigns, and whether it refuses a write, are
    parameters. */
module Mood {
  import opened Wrappers
  import opened Json
  import opened Storage
  import opened Encryption
  import opened Auth
  import opened Identity
  import opened Seqs
  import opened Stats
  import opened Text
  import opened Fields

  datatype CheckInType = Quick | Detailed

  /** The scales of a check-in, stored in clear. */
  datatype Scores = Scores(
    mood: int,
    energy: Option<int>,
    anxiety: Option<int>,
    sleep: Option<int>)

  /** The fields stored encrypted. */
  datatype Details = Details(
    notes: Option<string>,
    triggers: Option<seq<string>>,
    gratitude: Option<string>)

  /** What the caller of `createMoodEntry` passes. */
  datatype MoodInput = MoodInput(scores: Scores, details: Details, checkInType: CheckInType)

  /** A row of `mood_entries`. */
  datatype MoodRow = MoodRow(
    id: string,
    owner: Owner,
    scores: Scores,
    checkInType: CheckInType,
    encryptedNotes: Option<string>,
    encryptedTriggers: Option<string>,
    encryptedGratitude: Option<string>,
    createdAt: string)

  /** A check-in as the service returns it, decrypted. */
  datatype MoodEntry = MoodEntry(
    id: string,
    owner: Owner,
    scores: Scores,
    checkInType: CheckInType,
    details: Details,
    createdAt: string)

  /** A row of `mood_streaks`, maintained by the database. */
  datatype MoodStreak = MoodStreak(
    id: string,
    owner: Owner,
    currentStreak: int,
    longestStreak: int,
    lastCheckIn: string,
    totalCheckIns: int)

  datatype Trend = Improving | Declining | Stable

  /** `MoodStats`; the average is kept in tenths (`averageMood * 10`). */
  datatype MoodStats = MoodStats(
    averageTenths: int,
    trend: Trend,
    totalEntries: int,
    currentStreak: int,
    longestStreak: int,
    lastCheckIn: Option<string>)

  /** The number of check-ins `getMoodStats` looks at. */
  const StatsWindow: nat := 30

  /** A trigger list is stored only when it is given and non-empty. */
  predicate HasTriggers(t: Option<seq<string>>) {
    t.Some? && |t.value| > 0
  }

  /** The sensitive fields that get written: falsy text and an empty
      trigger list are dropped. */
  function Normalize(d: Details): (n: Details)
    ensures n.notes.Some? <==> Truthy(d.notes)
    ensures n.triggers.Some? <==> HasTriggers(d.triggers)
    ensures n.gratitude.Some? <==> Truthy(d.gratitude)
    ensures n.notes.Some? ==> n.notes == d.notes
    ensures n.triggers.Some? ==> n.triggers == d.triggers
    ensures n.gratitude.Some? ==> n.gratitude == d.gratitude
  {
    Details(
      if Truthy(d.notes) then d.notes else None,
      if HasTriggers(d.triggers) then d.triggers else None,
      if Truthy(d.gratitude) then d.gratitude else None)
  }

  /** Encrypts `JSON.stringify(triggers)` when the list is non-empty. */
  function SealTriggers(cipher: EncryptionService, triggers: Option<seq<string>>): (r: Result<Option<string>, ServiceError>)
    reads cipher
    ensures !HasTriggers(triggers) ==> r == Success(None)
    ensures HasTriggers(triggers) ==> (r.Success? <==> cipher.HasKey())
    ensures r.Failure? ==> r.error == CipherFailed(KeyNotInitialized)
    ensures r.Success? && HasTriggers(triggers) ==>
      r.value.Some? && r.value.value != "" &&
      Parse(Open(cipher.encryptionKey.value, r.value.value)) == Some(FromStrings(triggers.value))
  {
    if !HasTriggers(triggers) then Success(None)
    else match cipher.EncryptObject(FromStrings(triggers.value))
      case Success(c) => Success(Some(c))
      case Failure(e) => Failure(CipherFailed(e))
  }

  /** `JSON.parse(decrypt(stored))` when the stored field is truthy; a
      decrypted text that is not a list of strings is an error. */
  function RevealTriggers(cipher: EncryptionService, stored: Option<string>): (r: Result<Option<seq<string>>, ServiceError>)
    reads cipher
    ensures !Truthy(stored) ==> r == Success(None)
    ensures Truthy(stored) && !cipher.HasKey() ==> r == Failure(CipherFailed(KeyNotInitialized))
    ensures r.Success? && Truthy(stored) ==>
      r.value.Some? && Parse(Open(cipher.encryptionKey.value, stored.value)) == Some(FromStrings(r.value.value))
  {
    if !Truthy(stored) then Success(None)
    else match cipher.DecryptObject(stored.value)
      case Failure(e) => Failure(CipherFailed(e))
      case Success(j) =>
        match ToStrings(j)
        case None => Failure(CipherFailed(NotJson))
        case Some(xs) =>
          assert FromStrings(xs) == j by {
            assert forall i :: 0 <= i < |j.items| ==> j.items[i] == JString(xs[i]);
          }
          Success(Some(xs))
  }

  /** The row `createMoodEntry` inserts, once the owner is known: the
      scales in clear and each sensitive field encrypted when present. It
      fails only when a field must be encrypted and there is no key. */
  function SealedRow(cipher: EncryptionService, owner: Owner, input: MoodInput, id: string, now: string)
    : (r: Result<MoodRow, ServiceError>)
    reads cipher
    ensures r.Failure? <==>
      !cipher.HasKey() && (Truthy(input.details.notes) ||
      HasTriggers(input.details.triggers) || Truthy(input.details.gratitude))
    ensures r.Failure? ==> r.error == CipherFailed(KeyNotInitialized)
    ensures r.Success? ==>
      r.value.id == id && r.value.owner == owner && r.value.scores == input.scores &&
      r.value.checkInType == input.checkInType && r.value.createdAt == now
  {
    var d := input.details;
    match SealText(cipher, d.notes)
    case Failure(e) => Failure(e)
    case Success(notes) =>
      match SealTriggers(cipher, d.triggers)
      case Failure(e) => Failure(e)
      case Success(triggers) =>
        match SealText(cipher, d.gratitude)
        case Failure(e) => Failure(e)
        case Success(gratitude) =>
          Success(MoodRow(id, owner, input.scores, input.checkInType, notes, triggers, gratitude, now))
  }

  /** A row with its sensitive fields decrypted. */
  function Reveal(cipher: EncryptionService, row: MoodRow): (r: Result<MoodEntry, ServiceError>)
    reads cipher
    ensures r.Success? ==>
      r.value.id == row.id && r.value.owner == row.owner &&
      r.value.scores == row.scores && r.value.createdAt == row.createdAt
    ensures r.Success? ==> (r.value.details.notes.Some? <==> Truthy(row.encryptedNotes))
    ensures r.Failure? ==> !cipher.HasKey() || Truthy(row.encryptedTriggers)
  {
    match RevealText(cipher, row.encryptedNotes)
    case Failure(e) => Failure(e)
    case Success(notes) =>
      match RevealTriggers(cipher, row.encryptedTriggers)
      case Failure(e) => Failure(e)
      case Success(triggers) =>
        match RevealText(cipher, row.encryptedGratitude)
        case Failure(e) => Failure(e)
        case Success(gratitude) =>
          Success(MoodEntry(row.id, row.owner, row.scores, row.checkInType,
            Details(notes, triggers, gratitude), row.createdAt))
  }

  /** The check-in a successful write describes. */
  function Written(owner: Owner, input: MoodInput, id: string, now: string): MoodEntry {
    MoodEntry(id, owner, input.scores, input.checkInType, Normalize(input.details), now)
  }

  /** Decrypting the row that was written gives back what the caller
      passed, less the falsy fields, under the key that wrote it. */
  lemma RevealSealed(cipher: EncryptionService, owner: Owner, input: MoodInput, id: string, now: string)
    requires SealedRow(cipher, owner, input, id, now).Success?
    ensures Reveal(cipher, SealedRow(cipher, owner, input, id, now).value) ==
      Success(Written(owner, input, id, now))
  {
    var row := SealedRow(cipher, owner, input, id, now).value;
    var d := input.details;
    if HasTriggers(d.triggers) {
      cipher.DecryptObjectEncryptObject(FromStrings(d.triggers.value));
      StringsRoundTrip(d.triggers.value);
      assert RevealTriggers(cipher, row.encryptedTriggers) == Success(d.triggers);
    }
  }

  /** Decrypts every row; the first failure fails the whole read. */
  function RevealAll(cipher: EncryptionService, rows: seq<MoodRow>): (r: Result<seq<MoodEntry>, ServiceError>)
    reads cipher
    ensures r.Success? <==> forall i :: 0 <= i < |rows| ==> Reveal(cipher, rows[i]).Success?
    ensures r.Success? ==>
      |r.value| == |rows| && forall i :: 0 <= i < |rows| ==> Reveal(cipher, rows[i]) == Success(r.value[i])
  {
    if rows == [] then Success([])
    else
      match Reveal(cipher, rows[0])
      case Failure(e) => Failure(e)
      case Success(first) =>
        match RevealAll(cipher, rows[1..])
        case Failure(e) =>
          Failure(e)
        case Success(rest) =>
          assert forall i :: 1 <= i < |rows| ==> rows[i] == rows[1..][i - 1];
          Success([first] + rest)
  }

  predicate Owns(p: Principal, row: MoodRow) {
    OwnedBy(row.owner, p)
  }

  /** The rows of a principal, in the order they were written. */
  function Mine(rows: seq<MoodRow>, p: Principal): seq<MoodRow> {
    Filter(rows, row => Owns(p, row))
  }

  lemma MineAppend(rows: seq<MoodRow>, row: MoodRow, p: Principal)
    ensures Mine(rows + [row], p) == Mine(rows, p) + (if Owns(p, row) then [row] else [])
  {
    FilterAppend(rows, row, row => Owns(p, row));
  }

  /** The rows `getMoodEntries(limit)` returns: those of the principal,
      newest first, at most `limit` of them; nothing without a principal. */
  function Visible(rows: seq<MoodRow>, p: Option<Principal>, limit: nat): (r: seq<MoodRow>)
    ensures |r| <= limit
    ensures forall i :: 0 <= i < |r| ==> r[i] in rows && p.Some? && Owns(p.value, r[i])
  {
    if p.None? then [] else Take(Reverse(Mine(rows, p.value)), limit)
  }

  /** `getMoodEntries(limit)` over the rows of the table. */
  function Entries(cipher: EncryptionService, p: Option<Principal>, rows: seq<MoodRow>, limit: nat)
    : (r: Result<seq<MoodEntry>, ServiceError>)
    reads cipher
    ensures p.None? ==> r == Success([])
    ensures r.Success? ==> |r.value| <= limit
  {
    RevealAll(cipher, Visible(rows, p, limit))
  }

  /** A check-in just written is the first one its owner reads back,
      ahead of the ones read before. */
  lemma ReadYourWrite(rows: seq<MoodRow>, row: MoodRow, p: Principal, limit: nat)
    requires row.owner == OwnerOf(p) && limit > 0
    ensures Visible(rows + [row], Some(p), limit) == [row] + Visible(rows, Some(p), limit - 1)
  {
    MineAppend(rows, row, p);
    OwnerSeparation(p, p);
    ReverseAppend(Mine(rows, p), row);
  }

  /** A write is invisible to every other principal. */
  lemma WriteInvisibleToOthers(rows: seq<MoodRow>, row: MoodRow, p: Principal, q: Principal, limit: nat)
    requires row.owner == OwnerOf(p) && q != p
    ensures Visible(rows + [row], Some(q), limit) == Visible(rows, Some(q), limit)
  {
    MineAppend(rows, row, q);
    OwnerSeparation(p, q);
    assert !Owns(q, row);
    assert Mine(rows + [row], q) == Mine(rows, q);
  }

  /** `.single()` on the streak rows of a principal: the row when there is
      exactly one, null otherwise (no row, or several, is the "not one row"
      error the service ignores). */
  function Streak(streaks: seq<MoodStreak>, p: Option<Principal>): (r: Option<MoodStreak>)
    ensures r.Some? ==> p.Some? && OwnedBy(r.value.owner, p.value) && r.value in streaks
    ensures r.Some? <==> p.Some? && |Filter(streaks, (s: MoodStreak) => OwnedBy(s.owner, p.value))| == 1
    ensures r.Some? ==> forall s :: s in streaks && OwnedBy(s.owner, p.value) ==> s == r.value
  {
    if p.None? then None
    else
      var mine := Filter(streaks, (s: MoodStreak) => OwnedBy(s.owner, p.value));
      if |mine| == 1 then
        assert forall i :: 0 <= i < |streaks| && OwnedBy(streaks[i].owner, p.value) ==> streaks[i] == mine[0];
        Some(mine[0])
      else None
  }

  function MoodScores(entries: seq<MoodEntry>): (r: seq<int>)
    ensures |r| == |entries|
    ensures forall i :: 0 <= i < |entries| ==> r[i] == entries[i].scores.mood
  {
    Map(entries, (e: MoodEntry) => e.scores.mood)
  }

  /** The last seven check-ins (`slice(0, 7)`). */
  function Recent(scores: seq<int>): seq<int> {
    Slice(scores, 0, 7)
  }

  /** The seven before them (`slice(7, 14)`). */
  function Previous(scores: seq<int>): seq<int> {
    Slice(scores, 7, 14)
  }

  /** The trend of `getMoodStats`: recent against previous averages, a
      change of more than half a point in either direction. */
  function MoodTrend(scores: seq<int>): Trend {
    var recent, previous := Recent(scores), Previous(scores);
    if |recent| > 0 && |previous| > 0 then
      var difference := Mean(recent) - Mean(previous);
      if difference > 0.5 then Improving
      else if difference < -0.5 then Declining
      else Stable
    else Stable
  }

  /** The trend decided on sums and counts alone: improving exactly when
      2·(Σr·np − Σp·nr) > nr·np, declining exactly when it is below −nr·np,
      and stable with fewer than eight check-ins. */
  lemma TrendByCounts(scores: seq<int>)
    ensures |scores| <= 7 ==> MoodTrend(scores) == Stable
    ensures |scores| > 7 ==>
      var sr, nr, sp, np := Sum(Recent(scores)), |Recent(scores)|, Sum(Previous(scores)), |Previous(scores)|;
      (MoodTrend(scores) == Improving <==> 2 * (sr * np - sp * nr) > nr * np) &&
      (MoodTrend(scores) == Declining <==> 2 * (sr * np - sp * nr) < -(nr * np))
  {
    if |scores| > 7 {
      var recent, previous := Recent(scores), Previous(scores);
      var sr, nr, sp, np := Sum(recent), |recent|, Sum(previous), |previous|;
      assert nr == 7 && np > 0;
      MeanDifferenceAbove(sr, nr, sp, np, 0.5);
      MeanDifferenceAbove(sp, np, sr, nr, 0.5);
      assert sp * nr - sr * np == -(sr * np - sp * nr);
      assert np * nr == nr * np;
    }
  }

  /** The statistics of `getMoodStats` from the check-ins (newest first)
      and the streak row. */
  function ComputeStats(entries: seq<MoodEntry>, streak: Option<MoodStreak>): (r: MoodStats)
    ensures entries == [] ==> r == MoodStats(0, Stable, 0, 0, 0, None)
    ensures entries != [] ==>
      var n, s := |entries|, Sum(MoodScores(entries));
      (2 * r.averageTenths - 1) * n <= 20 * s < (2 * r.averageTenths + 1) * n
    ensures entries != [] ==> r.trend == MoodTrend(MoodScores(entries))
    ensures entries != [] ==>
      r.totalEntries == if streak.Some? && streak.value.totalCheckIns != 0 then streak.value.totalCheckIns else |entries|
    ensures entries != [] ==>
      r.currentStreak == (if streak.Some? then streak.value.currentStreak else 0) &&
      r.longestStreak == (if streak.Some? then streak.value.longestStreak else 0)
    ensures entries != [] ==> r.lastCheckIn == (if entries[0].createdAt != "" then Some(entries[0].createdAt) else None)
  {
    if entries == [] then MoodStats(0, Stable, 0, 0, 0, None)
    else
      var scores := MoodScores(entries);
      MoodStats(
        RoundedTenths(Sum(scores), |scores|),
        MoodTrend(scores),
        if streak.Some? && streak.value.totalCheckIns != 0 then streak.value.totalCheckIns else |entries|,
        if streak.Some? then streak.value.currentStreak else 0,
        if streak.Some? then streak.value.longestStreak else 0,
        if entries[0].createdAt != "" then Some(entries[0].createdAt) else None)
  }

  /** With scores on the 1–10 scale the average lies on that scale too. */
  lemma AverageOnScale(entries: seq<MoodEntry>, streak: Option<MoodStreak>)
    requires entries != [] && AllIn(MoodScores(entries), 1, 10)
    ensures 10 <= ComputeStats(entries, streak).averageTenths <= 100
  {
    var scores := MoodScores(entries);
    var n, s := |scores|, Sum(scores);
    var t := ComputeStats(entries, streak).averageTenths;
    SumBounds(scores, 1, 10);
    assert (2 * t - 1) * n <= 20 * s < (2 * t + 1) * n;
    assert n * (2 * t - 1) <= n * 200 by {
      assert 20 * s <= 200 * n;
    }
    ProductAbove(n, 2 * t - 1, 200);
    assert n * (2 * t + 1) > n * 20 by {
      assert 20 * n <= 20 * s;
    }
    ProductAbove(n, 2 * t + 1, 20);
  }

  /** The bounds `getTodaysEntry` appends to the date. */
  const DayStart: string := "T00:00:00.000Z"
  const DayEnd: string := "T23:59:59.999Z"

  /** The window `getTodaysEntry` queries, as written: from midnight up to
      but not including the day's last millisecond. */
  predicate InTodaysWindow(createdAt: string, today: string) {
    !LexLess(createdAt, today + DayStart) && LexLess(createdAt, today + DayEnd)
  }

  /** The whole day, its last millisecond included. */
  predicate InWholeDay(createdAt: string, today: string) {
    !LexLess(createdAt, today + DayStart) && !LexLess(today + DayEnd, createdAt)
  }

  /** A check-in made in the last millisecond of the day is not today's. */
  lemma LastMillisecondMissed(today: string)
    ensures !InTodaysWindow(today + DayEnd, today)
    ensures InWholeDay(today + DayEnd, today)
  {
    LexIrreflexive(today + DayEnd);
    LexCommonPrefix(today, DayEnd, DayStart);
  }

  /** Every time of day between the first and the last millisecond, both
      included, belongs to the day. */
  lemma WholeDayCovers(today: string, time: string)
    requires !LexLess(time, DayStart) && !LexLess(DayEnd, time)
    ensures InWholeDay(today + time, today)
  {
    LexCommonPrefix(today, time, DayStart);
    LexCommonPrefix(today, DayEnd, time);
  }

  /** The newest of the principal's rows within the day's window as the
      query writes it, so a row of the day's last millisecond is not found.
      Rows are stored in the order they were written, so the newest is the
      last one in the window. */
  function TodaysRow(rows: seq<MoodRow>, p: Principal, today: string): (r: Option<MoodRow>)
    ensures r.Some? ==> r.value in rows && Owns(p, r.value) && InTodaysWindow(r.value.createdAt, today)
    ensures r.None? <==> forall row :: row in rows ==> !(Owns(p, row) && InTodaysWindow(row.createdAt, today))
    ensures r.Some? ==> exists i :: (0 <= i < |rows| && rows[i] == r.value &&
                                     forall j :: i < j < |rows| ==> !(Owns(p, rows[j]) && InTodaysWindow(rows[j].createdAt, today)))
  {
    var i := LastPassing(rows, row => Owns(p, row) && InTodaysWindow(row.createdAt, today));
    if i < 0 then None else Some(rows[i])
  }

  /** A principal whose only check-in of the day was made in its last
      millisecond has no check-in today. */
  lemma LastMillisecondRowUnread(row: MoodRow, p: Principal, today: string)
    requires Owns(p, row) && row.createdAt == today + DayEnd
    ensures TodaysRow([row], p, today).None?
  {
    LastMillisecondMissed(today);
  }

  /** The remote tables of the mood service. */
  class MoodTables {
    var entries: seq<MoodRow>
    var streaks: seq<MoodStreak>

    constructor()
      ensures entries == [] && streaks == []
    {
      entries := [];
      streaks := [];
    }
  }

  /** The outcome `createMoodEntry` reaches: identity first, then
      encryption, then the write, which the database may refuse. */
  function CreateOutcome(cipher: EncryptionService, p: Option<Principal>, input: MoodInput, id: string,
                         now: string, rejection: Option<string>): (r: Result<MoodRow, ServiceError>)
    reads cipher
    ensures p.None? ==> r == Failure(NoUserSession)
    ensures r.Success? ==>
      p.Some? && rejection.None? && r == SealedRow(cipher, OwnerOf(p.value), input, id, now)
    ensures p.Some? && rejection.Some? && SealedRow(cipher, OwnerOf(p.value), input, id, now).Success? ==>
      r == Failure(Rejected(rejection.value))
  {
    if p.None? then Failure(NoUserSession)
    else match SealedRow(cipher, OwnerOf(p.value), input, id, now)
      case Failure(e) => Failure(e)
      case Success(row) => if rejection.Some? then Failure(Rejected(rejection.value)) else Success(row)
  }

  class MoodService {
    const cipher: EncryptionService
    const storage: LocalStorage
    const tables: MoodTables

    constructor(cipher: EncryptionService, storage: LocalStorage, tables: MoodTables)
      ensures this.cipher == cipher && this.storage == storage && this.tables == tables
    {
      this.cipher := cipher;
      this.storage := storage;
      this.tables := tables;
    }

    /** `createMoodEntry(entry)`; `user` is what `auth.getUser()` returned,
        `id` and `now` what the database assigns, `rejection` the error it
        returns, if any. */
    method CreateMoodEntry(user: Option<User>, input: MoodInput, id: string, now: string,
                           rejection: Option<string>) returns (r: Result<MoodEntry, ServiceError>)
      modifies tables
      ensures var outcome := CreateOutcome(cipher, CurrentPrincipal(user, storage), input, id, now, rejection);
        (outcome.Failure? ==> r == Failure(outcome.error) && tables.entries == old(tables.entries)) &&
        (outcome.Success? ==>
          tables.entries == old(tables.entries) + [outcome.value] && r == Success(Written(outcome.value.owner, input, id, now)))
      ensures tables.streaks == old(tables.streaks)
    {
      var anonymousId := storage.GetItem(AnonymousIdKey);
      var principal := ResolvePrincipal(user, anonymousId);
      if principal.None? {
        return Failure(NoUserSession);
      }
      var owner := OwnerOf(principal.value);
      var sealed := SealedRow(cipher, owner, input, id, now);
      if sealed.Failure? {
        return Failure(sealed.error);
      }
      if rejection.Some? {
        return Failure(Rejected(rejection.value));
      }
      var row := sealed.value;
      tables.entries := tables.entries + [row];
      RevealSealed(cipher, owner, input, id, now);
      r := Reveal(cipher, row);
    }

    /** `getMoodEntries(limit)`. */
    function GetMoodEntries(user: Option<User>, limit: nat): (r: Result<seq<MoodEntry>, ServiceError>)
      reads storage, cipher, tables
      ensures CurrentPrincipal(user, storage).None? ==> r == Success([])
      ensures r.Success? ==> |r.value| <= limit
    {
      Entries(cipher, CurrentPrincipal(user, storage), tables.entries, limit)
    }

    /** `getMoodStreak()`. */
    function GetMoodStreak(user: Option<User>): (r: Option<MoodStreak>)
      reads storage, tables
      ensures r.Some? ==> r.value in tables.streaks
      ensures var p := CurrentPrincipal(user, storage);
        r.Some? ==> p.Some? && OwnedBy(r.value.owner, p.value) &&
                    forall s :: s in tables.streaks && OwnedBy(s.owner, p.value) ==> s == r.value
      ensures var p := CurrentPrincipal(user, storage);
        r.None? ==> p.None? || |Filter(tables.streaks, (s: MoodStreak) => OwnedBy(s.owner, p.value))| != 1
    {
      Streak(tables.streaks, CurrentPrincipal(user, storage))
    }

    /** `getMoodStats()`: the statistics of the last thirty check-ins; a
        failed read of the check-ins fails it. */
    function GetMoodStats(user: Option<User>): (r: Result<MoodStats, ServiceError>)
      reads storage, cipher, tables
      ensures r.Success? <==> GetMoodEntries(user, StatsWindow).Success?
    {
      match GetMoodEntries(user, StatsWindow)
      case Failure(e) => Failure(e)
      case Success(entries) => Success(ComputeStats(entries, GetMoodStreak(user)))
    }

    /** `getTodaysEntry()`; `today` is the current UTC date, `YYYY-MM-DD`. */
    function GetTodaysEntry(user: Option<User>, today: string): (r: Result<Option<MoodEntry>, ServiceError>)
      reads storage, cipher, tables
      ensures CurrentPrincipal(user, storage).None? ==> r == Success(None)
      ensures r.Success? && r.value.Some? ==> InTodaysWindow(r.value.value.createdAt, today)
      ensures CurrentPrincipal(user, storage).Some? ==>
        (r == Success(None) <==> TodaysRow(tables.entries, CurrentPrincipal(user, storage).value, today).None?)
    {
      var p := CurrentPrincipal(user, storage);
      if p.None? then Success(None)
      else match TodaysRow(tables.entries, p.value, today)
        case None => Success(None)
        case Some(row) =>
          match Reveal(cipher, row)
          case Failure(e) => Failure(e)
          case Success(entry) => Success(Some(entry))
    }
  }
}
