/** The peer-support service: matching a seeker with a supporter, match
    status, one-to-one and group messages, group membership, moderation
    flags and feedback. Every table is the sequence of its rows in the
    order they were written. */
module PeerSupport {
  import opened Wrappers
  import opened Seqs
  import opened Json
  import opened Storage
  import opened Encryption
  import opened Auth
  import opened Identity
  import opened Fields

  datatype SupporterLevel = Community | Experienced | Certified
  datatype MatchType = OneTime | Ongoing | CrisisSupport
  datatype MatchStatus = Pending | Active | Completed | Cancelled
  /** The `message_type` of both message tables ('text', 'system',
      'safety_check' for matches, 'announcement' for groups). */
  datatype MessageKind = Text | System | SafetyCheck | Announcement
  datatype Role = RegularMember | GroupModerator
  datatype FeedbackType = AboutSupporter | AboutSeeker

  function LevelName(l: SupporterLevel): string {
    match l
    case Community => "community"
    case Experienced => "experienced"
    case Certified => "certified"
  }

  function MatchTypeName(t: MatchType): string {
    match t
    case OneTime => "one-time"
    case Ongoing => "ongoing"
    case CrisisSupport => "crisis"
  }

  /** The columns of `peer_supporters` that matching reads. */
  datatype Supporter = Supporter(
    id: string,
    owner: Owner,
    level: SupporterLevel,
    isActive: bool,
    maxConcurrentMatches: int,
    currentMatches: int,
    averageRating: real)

  /** What `findPeerSupporter` is asked for; `None` is a key left out. */
  datatype Preferences = Preferences(
    matchType: MatchType,
    specializations: Option<seq<string>>,
    level: Option<SupporterLevel>,
    reason: Option<string>)

  datatype MatchRow = MatchRow(
    id: string,
    seeker: Owner,
    supporter: Owner,
    matchType: MatchType,
    status: MatchStatus,
    encryptedReason: Option<string>,
    encryptedPreferences: Option<string>,
    sessionCount: int,
    lastInteraction: string,
    createdAt: string,
    updatedAt: string)

  /** A match as the service returns it, reason and preferences decrypted. */
  datatype PeerMatch = PeerMatch(
    id: string,
    seeker: Owner,
    supporter: Owner,
    matchType: MatchType,
    status: MatchStatus,
    reason: Option<string>,
    preferences: Option<string>,
    sessionCount: int,
    lastInteraction: string,
    createdAt: string,
    updatedAt: string)

  /** A row of `peer_messages` (thread = match id) or of `group_messages`
      (thread = group id). */
  datatype MessageRow = MessageRow(
    id: string,
    thread: string,
    sender: Owner,
    encryptedContent: string,
    kind: MessageKind,
    isFlagged: bool,
    flaggedReason: Option<string>,
    createdAt: string)

  datatype Message = Message(
    id: string,
    thread: string,
    sender: Owner,
    content: string,
    kind: MessageKind,
    isFlagged: bool,
    flaggedReason: Option<string>,
    createdAt: string)

  datatype Group = Group(id: string, name: string, description: string, category: string,
                         maxMembers: int, currentMembers: int, isActive: bool)

  datatype MembershipRow = MembershipRow(id: string, groupId: string, owner: Owner, role: Role, joinedAt: string)

  datatype FeedbackRow = FeedbackRow(id: string, matchId: string, author: Owner, rating: int,
                                     encryptedFeedback: Option<string>, feedbackType: FeedbackType, createdAt: string)

  datatype Feedback = Feedback(id: string, matchId: string, author: Owner, rating: int,
                               feedback: Option<string>, feedbackType: FeedbackType, createdAt: string)

  // ---------------------------------------------------------------------
  // Choosing a supporter

  /** The filters of the supporter query: active, below their own limit of
      concurrent matches, and of the requested level when one is given. */
  predicate Available(s: Supporter, level: Option<SupporterLevel>) {
    s.isActive && s.currentMatches < s.maxConcurrentMatches && (level.None? || s.level == level.value)
  }

  function Candidates(supporters: seq<Supporter>, level: Option<SupporterLevel>): seq<Supporter> {
    Filter(supporters, s => Available(s, level))
  }

  /** The head of the candidates ordered by `average_rating` descending:
      the first, in store order, of those with the highest rating. */
  function BestIndex(cands: seq<Supporter>): (i: nat)
    requires |cands| > 0
    ensures i < |cands|
    ensures forall j :: 0 <= j < |cands| ==> cands[j].averageRating <= cands[i].averageRating
    ensures forall j :: 0 <= j < i ==> cands[j].averageRating < cands[i].averageRating
  {
    if |cands| == 1 then 0
    else
      var k := BestIndex(cands[1..]);
      if cands[0].averageRating >= cands[1..][k].averageRating then 0 else k + 1
  }

  /** `supporters[0]` of the query, or nothing when no one is available. */
  function Chosen(supporters: seq<Supporter>, level: Option<SupporterLevel>): Option<Supporter> {
    var cands := Candidates(supporters, level);
    if cands == [] then None else Some(cands[BestIndex(cands)])
  }

  /** The greedy pick: nobody is chosen exactly when nobody is available;
      otherwise the chosen supporter is available and rated at least as
      highly as every available supporter. */
  lemma ChosenIsBestAvailable(supporters: seq<Supporter>, level: Option<SupporterLevel>)
    ensures var c := Chosen(supporters, level);
      (c.None? <==> forall s :: s in supporters ==> !Available(s, level)) &&
      (c.Some? ==>
        c.value in supporters && Available(c.value, level) &&
        forall s :: s in supporters && Available(s, level) ==> s.averageRating <= c.value.averageRating)
  {
    var cands := Candidates(supporters, level);
    if cands != [] {
      var i := BestIndex(cands);
      forall s | s in supporters && Available(s, level)
        ensures s.averageRating <= cands[i].averageRating
      {
        assert s in cands;
      }
    }
  }

  /** The supporter columns of a new match: the supporter's user id when
      it has one, else its anonymous id. */
  function SupporterColumns(s: Supporter): (o: Owner)
    ensures o.userId.None? || o.anonymousId.None?
    ensures Truthy(s.owner.userId) ==> o == Owner(s.owner.userId, None)
    ensures !Truthy(s.owner.userId) ==> o == Owner(None, s.owner.anonymousId)
  {
    if Truthy(s.owner.userId) then Owner(s.owner.userId, None) else Owner(None, s.owner.anonymousId)
  }

  // ---------------------------------------------------------------------
  // The match row

  /** `JSON.stringify(preferences)`: the keys the caller gave, undefined ones
      left out. The model writes them in a fixed order; `JSON.stringify`
      writes them in the order the caller's object was built. */
  function PreferencesJson(p: Preferences): (j: Json)
    ensures j.JObject? && |j.members| >= 1 && j.members[0] == Member("match_type", JString(MatchTypeName(p.matchType)))
  {
    JObject(
      [Member("match_type", JString(MatchTypeName(p.matchType)))] +
      (if p.specializations.Some? then [Member("specializations", FromStrings(p.specializations.value))] else []) +
      (if p.level.Some? then [Member("supporter_level", JString(LevelName(p.level.value)))] else []) +
      (if p.reason.Some? then [Member("reason", JString(p.reason.value))] else []))
  }

  /** The whole preferences object is encrypted whenever a specializations
      array is given, even an empty one. */
  function SealPreferences(cipher: EncryptionService, p: Preferences): (r: Result<Option<string>, ServiceError>)
    reads cipher
    ensures p.specializations.None? ==> r == Success(None)
    ensures p.specializations.Some? ==> (r.Success? <==> cipher.HasKey())
    ensures r.Failure? ==> r.error == CipherFailed(KeyNotInitialized)
    ensures r.Success? && p.specializations.Some? ==>
      r.value.Some? && r.value.value != "" &&
      Parse(Open(cipher.encryptionKey.value, r.value.value)) == Some(PreferencesJson(p))
  {
    if p.specializations.None? then Success(None)
    else match cipher.EncryptObject(PreferencesJson(p))
      case Success(c) => Success(Some(c))
      case Failure(e) => Failure(CipherFailed(e))
  }

  function NewMatch(seeker: Principal, s: Supporter, p: Preferences, reason: Option<string>,
                    prefs: Option<string>, id: string, now: string): MatchRow {
    MatchRow(id, OwnerOf(seeker), SupporterColumns(s), p.matchType, Pending, reason, prefs, 0, now, now, now)
  }

  function RevealMatch(cipher: EncryptionService, row: MatchRow): (r: Result<PeerMatch, ServiceError>)
    reads cipher
    ensures r.Success? ==>
      r.value.id == row.id && r.value.status == row.status &&
      r.value.seeker == row.seeker && r.value.supporter == row.supporter &&
      r.value.sessionCount == row.sessionCount && r.value.lastInteraction == row.lastInteraction
    ensures r.Failure? ==> (Truthy(row.encryptedReason) || Truthy(row.encryptedPreferences)) && !cipher.HasKey()
  {
    match RevealText(cipher, row.encryptedReason)
    case Failure(e) => Failure(e)
    case Success(reason) =>
      match RevealText(cipher, row.encryptedPreferences)
      case Failure(e) => Failure(e)
      case Success(prefs) =>
        Success(PeerMatch(row.id, row.seeker, row.supporter, row.matchType, row.status, reason, prefs,
                          row.sessionCount, row.lastInteraction, row.createdAt, row.updatedAt))
  }

  /** A match written by `findPeerSupporter` reads back with the reason the
      seeker gave (when truthy) and the JSON text of the preferences (when
      a specializations array was given). */
  lemma RevealNewMatch(cipher: EncryptionService, seeker: Principal, s: Supporter, p: Preferences, id: string, now: string)
    requires SealText(cipher, p.reason).Success? && SealPreferences(cipher, p).Success?
    ensures var row := NewMatch(seeker, s, p, SealText(cipher, p.reason).value, SealPreferences(cipher, p).value, id, now);
      var r := RevealMatch(cipher, row);
      r.Success? && r.value.status == Pending && r.value.sessionCount == 0 &&
      r.value.seeker == OwnerOf(seeker) && r.value.supporter == SupporterColumns(s) &&
      r.value.reason == (if Truthy(p.reason) then p.reason else None) &&
      (p.specializations.None? ==> r.value.preferences == None) &&
      (p.specializations.Some? ==>
        r.value.preferences.Some? && Parse(r.value.preferences.value) == Some(PreferencesJson(p)))
  {
    RevealSealText(cipher, p.reason);
  }

  // ---------------------------------------------------------------------
  // Reading matches

  /** The `.or(...)` filter of `getMyMatches`: the principal is the seeker
      or the supporter. */
  predicate InMatch(row: MatchRow, p: Principal) {
    OwnedBy(row.seeker, p) || OwnedBy(row.supporter, p)
  }

  function MyMatchRows(rows: seq<MatchRow>, p: Option<Principal>): (r: seq<MatchRow>)
    ensures p.None? ==> r == []
    ensures forall i :: 0 <= i < |r| ==> r[i] in rows && InMatch(r[i], p.value)
  {
    if p.None? then [] else Reverse(Filter(rows, row => InMatch(row, p.value)))
  }

  function RevealMatches(cipher: EncryptionService, rows: seq<MatchRow>): (r: Result<seq<PeerMatch>, ServiceError>)
    reads cipher
    ensures r.Success? <==> forall i :: 0 <= i < |rows| ==> RevealMatch(cipher, rows[i]).Success?
    ensures r.Success? ==>
      |r.value| == |rows| && forall i :: 0 <= i < |rows| ==> RevealMatch(cipher, rows[i]) == Success(r.value[i])
  {
    if rows == [] then Success([])
    else
      match RevealMatch(cipher, rows[0])
      case Failure(e) => Failure(e)
      case Success(first) =>
        match RevealMatches(cipher, rows[1..])
        case Failure(e) =>
          Failure(e)
        case Success(rest) =>
          assert forall i :: 1 <= i < |rows| ==> rows[i] == rows[1..][i - 1];
          Success([first] + rest)
  }

  /** A new match is the first of the seeker's matches and the first of
      the chosen supporter's. */
  lemma NewMatchSeenByBoth(rows: seq<MatchRow>, row: MatchRow, p: Principal)
    requires InMatch(row, p)
    ensures var mine := MyMatchRows(rows + [row], Some(p));
      |mine| >= 1 && mine[0] == row && mine[1..] == MyMatchRows(rows, Some(p))
  {
    FilterAppend(rows, row, row => InMatch(row, p));
    ReverseAppend(Filter(rows, row => InMatch(row, p)), row);
  }

  /** The seeker of a match built by `findPeerSupporter` is in it, and so
      is the supporter it names. */
  lemma NewMatchMembers(seeker: Principal, s: Supporter, supporter: Principal, p: Preferences,
                        reason: Option<string>, prefs: Option<string>, id: string, now: string)
    requires SupporterColumns(s) == OwnerOf(supporter)
    ensures InMatch(NewMatch(seeker, s, p, reason, prefs, id, now), seeker)
    ensures InMatch(NewMatch(seeker, s, p, reason, prefs, id, now), supporter)
  {
    OwnerSeparation(seeker, seeker);
    OwnerSeparation(supporter, supporter);
  }

  // ---------------------------------------------------------------------
  // Match status

  /** `update({ status, updated_at })` on the rows with the id. */
  function SetStatus(rows: seq<MatchRow>, matchId: string, status: MatchStatus, now: string): (r: seq<MatchRow>)
    ensures |r| == |rows|
    ensures forall i :: 0 <= i < |rows| && rows[i].id == matchId ==>
      r[i].status == status && r[i].updatedAt == now && r[i].(status := rows[i].status, updatedAt := rows[i].updatedAt) == rows[i]
    ensures forall i :: 0 <= i < |rows| && rows[i].id != matchId ==> r[i] == rows[i]
  {
    Map(rows, (row: MatchRow) => if row.id == matchId then row.(status := status, updatedAt := now) else row)
  }

  /** The transitions the match card and its page offer: a supporter
      accepts or declines a pending match, and an active one is completed. */
  predicate Offered(from: MatchStatus, to: MatchStatus) {
    (from == Pending && (to == Active || to == Cancelled)) || (from == Active && to == Completed)
  }

  /** The service writes whatever status it is given, whatever the match's
      current one: a cancelled or completed match can be made active again. */
  lemma StatusIsNotChecked(rows: seq<MatchRow>, i: int, status: MatchStatus, now: string)
    requires 0 <= i < |rows| && status != Pending
    ensures SetStatus(rows, rows[i].id, status, now)[i].status == status
    ensures rows[i].status == Cancelled && status == Active ==> !Offered(rows[i].status, status)
    ensures rows[i].status == Completed ==> !Offered(rows[i].status, status)
  {
  }

  // ---------------------------------------------------------------------
  // Messages

  /** The update of `sendMessage`: `last_interaction` of the match; the
      session count and the status are left as they are. */
  function Touch(rows: seq<MatchRow>, matchId: string, now: string): (r: seq<MatchRow>)
    ensures |r| == |rows|
    ensures forall i :: 0 <= i < |rows| ==>
      r[i].sessionCount == rows[i].sessionCount && r[i].status == rows[i].status &&
      (rows[i].id == matchId ==> r[i].lastInteraction == now && r[i].(lastInteraction := rows[i].lastInteraction) == rows[i]) &&
      (rows[i].id != matchId ==> r[i] == rows[i])
  {
    Map(rows, (row: MatchRow) => if row.id == matchId then row.(lastInteraction := now) else row)
  }

  /** A message row with its content decrypted under `key`. */
  function Opened(key: string, row: MessageRow): (m: Message)
    ensures m.content == Open(key, row.encryptedContent)
    ensures m.id == row.id && m.thread == row.thread && m.sender == row.sender
    ensures m.isFlagged == row.isFlagged && m.flaggedReason == row.flaggedReason
  {
    Message(row.id, row.thread, row.sender, Open(key, row.encryptedContent), row.kind, row.isFlagged,
            row.flaggedReason, row.createdAt)
  }

  function RevealMessage(cipher: EncryptionService, row: MessageRow): (r: Result<Message, ServiceError>)
    reads cipher
    ensures r.Success? <==> cipher.HasKey()
    ensures r.Failure? ==> r.error == CipherFailed(KeyNotInitialized)
    ensures r.Success? ==> r.value == Opened(cipher.encryptionKey.value, row)
  {
    match cipher.Decrypt(row.encryptedContent)
    case Failure(e) => Failure(CipherFailed(e))
    case Success(_) => Success(Opened(cipher.encryptionKey.value, row))
  }

  /** Decrypting a list of messages fails, for a non-empty list, exactly
      when there is no key. */
  function RevealMessages(cipher: EncryptionService, rows: seq<MessageRow>): (r: Result<seq<Message>, ServiceError>)
    reads cipher
    ensures r.Success? <==> rows == [] || cipher.HasKey()
    ensures r.Success? ==>
      |r.value| == |rows| && forall i :: 0 <= i < |rows| ==> RevealMessage(cipher, rows[i]) == Success(r.value[i])
  {
    if rows == [] then Success([])
    else if !cipher.HasKey() then Failure(CipherFailed(KeyNotInitialized))
    else
      var key := cipher.encryptionKey.value;
      Success(seq(|rows|, i requires 0 <= i < |rows| => Opened(key, rows[i])))
  }

  /** The rows `getMessages(threadId, limit)` returns: the thread's
      messages oldest first, the first `limit` of them. */
  function Thread(rows: seq<MessageRow>, thread: string, limit: nat): (r: seq<MessageRow>)
    ensures |r| <= limit
    ensures forall i :: 0 <= i < |r| ==> r[i].thread == thread && r[i] in rows
    ensures r <= Filter(rows, (m: MessageRow) => m.thread == thread)
  {
    Take(Filter(rows, (m: MessageRow) => m.thread == thread), limit)
  }

  /** A message just sent is the newest of its thread: it comes last when
      the thread fits within the limit, and the other threads are as they
      were. */
  lemma SentMessageComesLast(rows: seq<MessageRow>, row: MessageRow, limit: nat)
    requires |Filter(rows, (m: MessageRow) => m.thread == row.thread)| < limit
    ensures var t := Thread(rows + [row], row.thread, limit);
      |t| >= 1 && t[|t| - 1] == row && t[..|t| - 1] == Thread(rows, row.thread, limit)
  {
    FilterAppend(rows, row, (m: MessageRow) => m.thread == row.thread);
  }

  lemma OtherThreadsUnchanged(rows: seq<MessageRow>, row: MessageRow, thread: string, limit: nat)
    requires row.thread != thread
    ensures Thread(rows + [row], thread, limit) == Thread(rows, thread, limit)
  {
    FilterAppend(rows, row, (m: MessageRow) => m.thread == thread);
  }

  // ---------------------------------------------------------------------
  // Moderation

  /** The rows with the id marked as flagged, with the reason. */
  function Flag(rows: seq<MessageRow>, messageId: string, reason: string): (r: seq<MessageRow>)
    ensures |r| == |rows|
    ensures forall i :: 0 <= i < |rows| && rows[i].id == messageId ==>
      r[i].isFlagged && r[i].flaggedReason == Some(reason) &&
      r[i].(isFlagged := rows[i].isFlagged, flaggedReason := rows[i].flaggedReason) == rows[i]
    ensures forall i :: 0 <= i < |rows| && rows[i].id != messageId ==> r[i] == rows[i]
  {
    Map(rows, (m: MessageRow) => if m.id == messageId then m.(isFlagged := true, flaggedReason := Some(reason)) else m)
  }

  /** Flagging again only replaces the reason. */
  lemma FlagAgainOverwrites(rows: seq<MessageRow>, messageId: string, first: string, second: string)
    ensures Flag(Flag(rows, messageId, first), messageId, second) == Flag(rows, messageId, second)
  {
    var a := Flag(Flag(rows, messageId, first), messageId, second);
    var b := Flag(rows, messageId, second);
    forall i | 0 <= i < |rows| ensures a[i] == b[i] {
      if rows[i].id == messageId {
        assert Flag(rows, messageId, first)[i].id == messageId;
      }
    }
  }

  // ---------------------------------------------------------------------
  // Group membership

  function MemberCount(memberships: seq<MembershipRow>, groupId: string): nat {
    |Filter(memberships, (m: MembershipRow) => m.groupId == groupId)|
  }

  /** No group has more members than its `max_members`. */
  predicate WithinCapacity(groups: seq<Group>, memberships: seq<MembershipRow>) {
    forall g :: g in groups ==> MemberCount(memberships, g.id) <= g.maxMembers
  }

  function MembershipOf(p: Principal, groupId: string, id: string, now: string): (m: MembershipRow)
    ensures m.groupId == groupId && m.role == RegularMember && OwnedBy(m.owner, p)
  {
    OwnerSeparation(p, p);
    MembershipRow(id, groupId, OwnerOf(p), RegularMember, now)
  }

  lemma MemberCountAppend(memberships: seq<MembershipRow>, m: MembershipRow, groupId: string)
    ensures MemberCount(memberships + [m], groupId) ==
      MemberCount(memberships, groupId) + (if m.groupId == groupId then 1 else 0)
  {
    FilterAppend(memberships, m, (x: MembershipRow) => x.groupId == groupId);
  }

  /** The insert of `joinSupportGroup` as written: a membership row,
      whatever the group's size. */
  function JoinedAsWritten(memberships: seq<MembershipRow>, p: Principal, groupId: string, id: string, now: string)
    : (r: seq<MembershipRow>)
    ensures r == memberships + [MembershipOf(p, groupId, id, now)]
  {
    memberships + [MembershipOf(p, groupId, id, now)]
  }

  /** As written, joining a group that is already full goes through and
      leaves it with more members than it allows. */
  lemma JoinOverCapacity(groups: seq<Group>, memberships: seq<MembershipRow>, g: Group, p: Principal, id: string, now: string)
    requires g in groups && MemberCount(memberships, g.id) == g.maxMembers
    ensures !WithinCapacity(groups, JoinedAsWritten(memberships, p, g.id, id, now))
  {
    MemberCountAppend(memberships, MembershipOf(p, g.id, id, now), g.id);
  }

  /** Some group with the id has no room left. */
  predicate IsFull(groups: seq<Group>, memberships: seq<MembershipRow>, groupId: string) {
    exists g :: g in groups && g.id == groupId && MemberCount(memberships, groupId) >= g.maxMembers
  }

  /** The join with the capacity check the rules for groups ask for. */
  function Joined(groups: seq<Group>, memberships: seq<MembershipRow>, p: Principal, groupId: string, id: string, now: string)
    : (r: Result<seq<MembershipRow>, ServiceError>)
    ensures r.Failure? <==> IsFull(groups, memberships, groupId)
    ensures r.Failure? ==> r.error == GroupFull
    ensures r.Success? ==> r.value == JoinedAsWritten(memberships, p, groupId, id, now)
  {
    if IsFull(groups, memberships, groupId) then Failure(GroupFull)
    else Success(JoinedAsWritten(memberships, p, groupId, id, now))
  }

  /** With the check, no join takes a group beyond its capacity. */
  lemma JoinKeepsCapacity(groups: seq<Group>, memberships: seq<MembershipRow>, p: Principal, groupId: string, id: string, now: string)
    requires WithinCapacity(groups, memberships)
    ensures var r := Joined(groups, memberships, p, groupId, id, now);
      r.Success? ==> WithinCapacity(groups, r.value)
  {
    var r := Joined(groups, memberships, p, groupId, id, now);
    if r.Success? {
      var m := MembershipOf(p, groupId, id, now);
      forall g | g in groups
        ensures MemberCount(r.value, g.id) <= g.maxMembers
      {
        MemberCountAppend(memberships, m, g.id);
        if g.id == groupId {
          assert !(MemberCount(memberships, groupId) >= g.maxMembers);
        }
      }
    }
  }

  // ---------------------------------------------------------------------
  // Feedback

  function RevealFeedback(cipher: EncryptionService, row: FeedbackRow): (r: Result<Feedback, ServiceError>)
    reads cipher
    ensures r.Success? ==>
      r.value.id == row.id && r.value.matchId == row.matchId &&
      r.value.author == row.author && r.value.rating == row.rating
    ensures !Truthy(row.encryptedFeedback) ==> r.Success? && r.value.feedback == None
  {
    match RevealText(cipher, row.encryptedFeedback)
    case Failure(e) => Failure(e)
    case Success(text) =>
      Success(Feedback(row.id, row.matchId, row.author, row.rating, text, row.feedbackType, row.createdAt))
  }

  // ---------------------------------------------------------------------
  // The tables and the service

  class PeerTables {
    var supporters: seq<Supporter>
    var matches: seq<MatchRow>
    var messages: seq<MessageRow>
    var groups: seq<Group>
    var memberships: seq<MembershipRow>
    var groupMessages: seq<MessageRow>
    var feedback: seq<FeedbackRow>

    constructor()
      ensures supporters == [] && matches == [] && messages == [] && groups == []
      ensures memberships == [] && groupMessages == [] && feedback == []
    {
      supporters := [];
      matches := [];
      messages := [];
      groups := [];
      memberships := [];
      groupMessages := [];
      feedback := [];
    }
  }

  class PeerSupportService {
    const cipher: EncryptionService
    const storage: LocalStorage
    const tables: PeerTables

    constructor(cipher: EncryptionService, storage: LocalStorage, tables: PeerTables)
      ensures this.cipher == cipher && this.storage == storage && this.tables == tables
    {
      this.cipher := cipher;
      this.storage := storage;
      this.tables := tables;
    }

    /** `findPeerSupporter(preferences)`: the best available supporter, then
        the seeker's identity, then the encrypted reason and preferences,
        then the insert, which the database may refuse. */
    method FindPeerSupporter(user: Option<User>, prefs: Preferences, id: string, now: string,
                             rejection: Option<string>) returns (r: Result<PeerMatch, ServiceError>)
      modifies tables
      ensures var p := CurrentPrincipal(user, storage);
        var chosen := Chosen(old(tables.supporters), prefs.level);
        (chosen.None? ==> r == Failure(NoAvailableSupporters)) &&
        (chosen.Some? && p.None? ==> r == Failure(NoUserSession)) &&
        (r.Success? ==>
          chosen.Some? && p.Some? && rejection.None? &&
          var reason := SealText(cipher, prefs.reason);
          var sealed := SealPreferences(cipher, prefs);
          reason.Success? && sealed.Success? &&
          var row := NewMatch(p.value, chosen.value, prefs, reason.value, sealed.value, id, now);
          tables.matches == old(tables.matches) + [row] && r == RevealMatch(cipher, row) &&
          r.value.status == Pending && r.value.reason == (if Truthy(prefs.reason) then prefs.reason else None)) &&
        (r.Failure? ==> tables.matches == old(tables.matches))
      ensures tables.supporters == old(tables.supporters) && tables.messages == old(tables.messages)
      ensures tables.groups == old(tables.groups) && tables.memberships == old(tables.memberships)
      ensures tables.groupMessages == old(tables.groupMessages) && tables.feedback == old(tables.feedback)
    {
      var chosen := Chosen(tables.supporters, prefs.level);
      if chosen.None? {
        return Failure(NoAvailableSupporters);
      }
      var principal := ResolvePrincipal(user, storage.GetItem(AnonymousIdKey));
      assert principal == CurrentPrincipal(user, storage);
      if principal.None? {
        return Failure(NoUserSession);
      }
      var reason := SealText(cipher, prefs.reason);
      if reason.Failure? {
        return Failure(reason.error);
      }
      var sealed := SealPreferences(cipher, prefs);
      if sealed.Failure? {
        return Failure(sealed.error);
      }
      if rejection.Some? {
        return Failure(Rejected(rejection.value));
      }
      var row := NewMatch(principal.value, chosen.value, prefs, reason.value, sealed.value, id, now);
      tables.matches := tables.matches + [row];
      RevealNewMatch(cipher, principal.value, chosen.value, prefs, id, now);
      r := RevealMatch(cipher, row);
    }

    /** `getMyMatches()`: the matches the principal is in, newest first. */
    function GetMyMatches(user: Option<User>): (r: Result<seq<PeerMatch>, ServiceError>)
      reads storage, cipher, tables
      ensures CurrentPrincipal(user, storage).None? ==> r == Success([])
      ensures r.Success? ==> |r.value| == |MyMatchRows(tables.matches, CurrentPrincipal(user, storage))|
    {
      RevealMatches(cipher, MyMatchRows(tables.matches, CurrentPrincipal(user, storage)))
    }

    /** `updateMatchStatus(matchId, status)`: no identity and no check of
        the current status. The update is written before the row is
        decrypted, so a decryption failure still leaves it written. */
    method UpdateMatchStatus(matchId: string, status: MatchStatus, now: string, rejection: Option<string>)
      returns (r: Result<PeerMatch, ServiceError>)
      requires status != Pending
      modifies tables
      ensures rejection.Some? ==> r == Failure(Rejected(rejection.value)) && tables.matches == old(tables.matches)
      ensures rejection.None? && (forall i :: 0 <= i < |old(tables.matches)| ==> old(tables.matches)[i].id != matchId) ==>
        r == Failure(NotFound) && tables.matches == old(tables.matches)
      ensures rejection.None? && (exists i :: 0 <= i < |old(tables.matches)| && old(tables.matches)[i].id == matchId) ==>
        tables.matches == SetStatus(old(tables.matches), matchId, status, now) &&
        (r.Success? ==> r.value.id == matchId && r.value.status == status)
      ensures tables.supporters == old(tables.supporters) && tables.messages == old(tables.messages)
      ensures tables.groups == old(tables.groups) && tables.memberships == old(tables.memberships)
      ensures tables.groupMessages == old(tables.groupMessages) && tables.feedback == old(tables.feedback)
    {
      if rejection.Some? {
        return Failure(Rejected(rejection.value));
      }
      var i := FindIndex(tables.matches, (row: MatchRow) => row.id == matchId);
      if i < 0 {
        return Failure(NotFound);
      }
      tables.matches := SetStatus(tables.matches, matchId, status, now);
      r := RevealMatch(cipher, tables.matches[i]);
    }

    /** `sendMessage(matchId, content, kind)`: the content is encrypted
        first, so a missing key fails before the identity is looked at. */
    method SendMessage(user: Option<User>, matchId: string, content: string, kind: MessageKind, id: string,
                       now: string, rejection: Option<string>) returns (r: Result<Message, ServiceError>)
      modifies tables
      ensures var p := CurrentPrincipal(user, storage);
        (!cipher.HasKey() ==> r == Failure(CipherFailed(KeyNotInitialized))) &&
        (cipher.HasKey() && p.None? ==> r == Failure(NoUserSession)) &&
        (r.Success? ==>
          p.Some? && rejection.None? && r.value.content == content && r.value.thread == matchId &&
          r.value.sender == OwnerOf(p.value) && !r.value.isFlagged &&
          tables.messages == old(tables.messages) + [MessageRow(id, matchId, OwnerOf(p.value),
            cipher.Encrypt(content).value, kind, false, None, now)] &&
          tables.matches == Touch(old(tables.matches), matchId, now)) &&
        (r.Failure? ==> tables.messages == old(tables.messages) && tables.matches == old(tables.matches))
      ensures tables.supporters == old(tables.supporters) && tables.groups == old(tables.groups)
      ensures tables.memberships == old(tables.memberships) && tables.groupMessages == old(tables.groupMessages)
      ensures tables.feedback == old(tables.feedback)
    {
      var encrypted := cipher.Encrypt(content);
      if encrypted.Failure? {
        return Failure(CipherFailed(encrypted.error));
      }
      var principal := ResolvePrincipal(user, storage.GetItem(AnonymousIdKey));
      if principal.None? {
        return Failure(NoUserSession);
      }
      if rejection.Some? {
        return Failure(Rejected(rejection.value));
      }
      var row := MessageRow(id, matchId, OwnerOf(principal.value), encrypted.value, kind, false, None, now);
      tables.messages := tables.messages + [row];
      tables.matches := Touch(tables.matches, matchId, now);
      r := RevealMessage(cipher, row);
    }

    /** `sendGroupMessage(groupId, content, kind)`: as `sendMessage`, on the
        group table and with no match to touch. */
    method SendGroupMessage(user: Option<User>, groupId: string, content: string, kind: MessageKind, id: string,
                            now: string, rejection: Option<string>) returns (r: Result<Message, ServiceError>)
      modifies tables
      ensures var p := CurrentPrincipal(user, storage);
        (!cipher.HasKey() ==> r == Failure(CipherFailed(KeyNotInitialized))) &&
        (cipher.HasKey() && p.None? ==> r == Failure(NoUserSession)) &&
        (r.Success? ==>
          p.Some? && rejection.None? && r.value.content == content && r.value.thread == groupId &&
          r.value.sender == OwnerOf(p.value) && !r.value.isFlagged &&
          tables.groupMessages == old(tables.groupMessages) + [MessageRow(id, groupId, OwnerOf(p.value),
            cipher.Encrypt(content).value, kind, false, None, now)]) &&
        (r.Failure? ==> tables.groupMessages == old(tables.groupMessages))
      ensures tables.supporters == old(tables.supporters) && tables.matches == old(tables.matches)
      ensures tables.messages == old(tables.messages) && tables.groups == old(tables.groups)
      ensures tables.memberships == old(tables.memberships) && tables.feedback == old(tables.feedback)
    {
      var encrypted := cipher.Encrypt(content);
      if encrypted.Failure? {
        return Failure(CipherFailed(encrypted.error));
      }
      var principal := ResolvePrincipal(user, storage.GetItem(AnonymousIdKey));
      if principal.None? {
        return Failure(NoUserSession);
      }
      if rejection.Some? {
        return Failure(Rejected(rejection.value));
      }
      var row := MessageRow(id, groupId, OwnerOf(principal.value), encrypted.value, kind, false, None, now);
      tables.groupMessages := tables.groupMessages + [row];
      r := RevealMessage(cipher, row);
    }

    /** `getMessages(matchId, limit)`: no identity; the thread oldest first. */
    function GetMessages(matchId: string, limit: nat): (r: Result<seq<Message>, ServiceError>)
      reads cipher, tables
      ensures r.Success? ==> |r.value| <= limit && forall i :: 0 <= i < |r.value| ==> r.value[i].thread == matchId
    {
      RevealMessages(cipher, Thread(tables.messages, matchId, limit))
    }

    /** `getGroupMessages(groupId, limit)`. */
    function GetGroupMessages(groupId: string, limit: nat): (r: Result<seq<Message>, ServiceError>)
      reads cipher, tables
      ensures r.Success? ==> |r.value| <= limit && forall i :: 0 <= i < |r.value| ==> r.value[i].thread == groupId
    {
      RevealMessages(cipher, Thread(tables.groupMessages, groupId, limit))
    }

    /** `joinSupportGroup(groupId)`: a principal is required, and the
        membership is inserted whatever the group's size. */
    method JoinSupportGroup(user: Option<User>, groupId: string, id: string, now: string, rejection: Option<string>)
      returns (r: Result<MembershipRow, ServiceError>)
      modifies tables
      ensures var p := CurrentPrincipal(user, storage);
        (p.None? ==> r == Failure(NoUserSession) && tables.memberships == old(tables.memberships)) &&
        (p.Some? && rejection.Some? ==> r == Failure(Rejected(rejection.value)) && tables.memberships == old(tables.memberships)) &&
        (p.Some? && rejection.None? ==>
          r == Success(MembershipOf(p.value, groupId, id, now)) &&
          tables.memberships == JoinedAsWritten(old(tables.memberships), p.value, groupId, id, now))
      ensures tables.supporters == old(tables.supporters) && tables.matches == old(tables.matches)
      ensures tables.messages == old(tables.messages) && tables.groups == old(tables.groups)
      ensures tables.groupMessages == old(tables.groupMessages) && tables.feedback == old(tables.feedback)
    {
      var principal := ResolvePrincipal(user, storage.GetItem(AnonymousIdKey));
      if principal.None? {
        return Failure(NoUserSession);
      }
      if rejection.Some? {
        return Failure(Rejected(rejection.value));
      }
      tables.memberships := JoinedAsWritten(tables.memberships, principal.value, groupId, id, now);
      r := Success(MembershipOf(principal.value, groupId, id, now));
    }

    /** `submitFeedback(matchId, rating, feedback, type)`. */
    method SubmitFeedback(user: Option<User>, matchId: string, rating: int, text: Option<string>,
                          feedbackType: FeedbackType, id: string, now: string, rejection: Option<string>)
      returns (r: Result<Feedback, ServiceError>)
      modifies tables
      ensures var p := CurrentPrincipal(user, storage);
        (p.None? ==> r == Failure(NoUserSession)) &&
        (p.Some? && Truthy(text) && !cipher.HasKey() ==> r == Failure(CipherFailed(KeyNotInitialized))) &&
        (p.Some? && SealText(cipher, text).Success? && rejection.Some? ==> r == Failure(Rejected(rejection.value))) &&
        (r.Success? <==> p.Some? && SealText(cipher, text).Success? && rejection.None?) &&
        (r.Success? ==>
          tables.feedback == old(tables.feedback) +
            [FeedbackRow(id, matchId, OwnerOf(p.value), rating, SealText(cipher, text).value, feedbackType, now)] &&
          r.value == Feedback(id, matchId, OwnerOf(p.value), rating, if Truthy(text) then text else None, feedbackType, now)) &&
        (r.Failure? ==> tables.feedback == old(tables.feedback))
      ensures tables.supporters == old(tables.supporters) && tables.matches == old(tables.matches)
      ensures tables.messages == old(tables.messages) && tables.groups == old(tables.groups)
      ensures tables.memberships == old(tables.memberships) && tables.groupMessages == old(tables.groupMessages)
    {
      var principal := ResolvePrincipal(user, storage.GetItem(AnonymousIdKey));
      if principal.None? {
        return Failure(NoUserSession);
      }
      var sealed := SealText(cipher, text);
      if sealed.Failure? {
        return Failure(sealed.error);
      }
      if rejection.Some? {
        return Failure(Rejected(rejection.value));
      }
      var row := FeedbackRow(id, matchId, OwnerOf(principal.value), rating, sealed.value, feedbackType, now);
      tables.feedback := tables.feedback + [row];
      RevealSealText(cipher, text);
      r := RevealFeedback(cipher, row);
    }

    /** `flagMessage(messageId, reason, isGroupMessage)`: no identity; the
        table is chosen by the flag. */
    method FlagMessage(messageId: string, reason: string, isGroupMessage: bool, rejection: Option<string>)
      returns (r: Result<(), ServiceError>)
      modifies tables
      ensures rejection.Some? ==>
        r == Failure(Rejected(rejection.value)) &&
        tables.messages == old(tables.messages) && tables.groupMessages == old(tables.groupMessages)
      ensures rejection.None? ==>
        r == Success(()) &&
        tables.messages == (if isGroupMessage then old(tables.messages) else Flag(old(tables.messages), messageId, reason)) &&
        tables.groupMessages == (if isGroupMessage then Flag(old(tables.groupMessages), messageId, reason) else old(tables.groupMessages))
      ensures tables.supporters == old(tables.supporters) && tables.matches == old(tables.matches)
      ensures tables.groups == old(tables.groups) && tables.memberships == old(tables.memberships)
      ensures tables.feedback == old(tables.feedback)
    {
      if rejection.Some? {
        return Failure(Rejected(rejection.value));
      }
      if isGroupMessage {
        tables.groupMessages := Flag(tables.groupMessages, messageId, reason);
      } else {
        tables.messages := Flag(tables.messages, messageId, reason);
      }
      r := Success(());
    }
  }
}
