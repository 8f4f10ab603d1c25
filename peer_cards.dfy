/** The pure helpers of the three peer-support components: which actions a
    match card offers, how a group card shows its schedule and capacity,
    and how the supporter profile form edits and saves its draft. */
module PeerCards {
  import opened Wrappers
  import opened Seqs
  import opened Text
  import opened Storage
  import opened PeerSupport

  // ---------------------------------------------------------------------
  // PeerMatchCard

  datatype CardAction = AcceptMatch | DeclineMatch | MessagePeer | CompleteMatch | RateExperience

  function StatusName(s: MatchStatus): string {
    match s
    case Pending => "pending"
    case Active => "active"
    case Completed => "completed"
    case Cancelled => "cancelled"
  }

  /** The buttons of the card, in the order it shows them. */
  function OfferedActions(status: MatchStatus, isSupporter: bool): seq<CardAction> {
    (if status == Pending && isSupporter then [AcceptMatch, DeclineMatch] else []) +
    (if status == Active then [MessagePeer, CompleteMatch] else []) +
    (if status == Completed then [RateExperience] else [])
  }

  /** The "waiting for a supporter" notice. */
  predicate ShowsWaiting(status: MatchStatus, isSupporter: bool) {
    status == Pending && !isSupporter
  }

  /** Which status offers which action; a cancelled match offers none, and
      a pending one seen by the seeker shows only the notice. */
  lemma ActionGating(status: MatchStatus, isSupporter: bool)
    ensures var offered := OfferedActions(status, isSupporter);
      (AcceptMatch in offered <==> status == Pending && isSupporter) &&
      (DeclineMatch in offered <==> status == Pending && isSupporter) &&
      (MessagePeer in offered <==> status == Active) &&
      (CompleteMatch in offered <==> status == Active) &&
      (RateExperience in offered <==> status == Completed) &&
      (status == Cancelled ==> offered == [] && !ShowsWaiting(status, isSupporter)) &&
      (ShowsWaiting(status, isSupporter) ==> offered == [])
  {
  }

  /** The status name with its first letter upper-cased. */
  function StatusLabel(status: MatchStatus): (shown: string)
    ensures |shown| == |StatusName(status)| && shown[1..] == StatusName(status)[1..]
    ensures 'A' <= shown[0] <= 'Z' && shown[0] == UpperChar(StatusName(status)[0])
  {
    UpperFirst(StatusName(status))
  }

  /** The label lower-cased is the status name back. */
  lemma {:induction false} LabelLowersToName(status: MatchStatus)
    ensures ToLower(StatusLabel(status)) == StatusName(status)
  {
    var name := StatusName(status);
    var shown := StatusLabel(status);
    assert forall i :: 0 <= i < |name| ==> 'a' <= name[i] <= 'z';
    forall i | 0 <= i < |shown|
      ensures ToLower(shown)[i] == name[i]
    {
      if i > 0 {
        assert shown[i] == shown[1..][i - 1] == name[1..][i - 1] == name[i];
      }
    }
  }

  // ---------------------------------------------------------------------
  // SupportGroupCard

  /** `schedule.days`: an array, or a single value treated as one day. */
  datatype Days = DayList(list: seq<string>) | OneDay(day: string)

  datatype Schedule = Schedule(days: Option<Days>, time: Option<string>)

  /** `!!schedule.days`: an array is always truthy, a single day when it
      is non-empty. */
  predicate HasDays(schedule: Option<Schedule>) {
    schedule.Some? && schedule.value.days.Some? &&
    (schedule.value.days.value.DayList? || schedule.value.days.value.day != "")
  }

  function DayNames(d: Days): (r: seq<string>)
    ensures d.OneDay? ==> r == [d.day]
  {
    match d
    case DayList(list) => list
    case OneDay(day) => [day]
  }

  /** `schedule.time || 'Time TBD'`. */
  function TimeText(schedule: Schedule): string {
    if Truthy(schedule.time) then schedule.time.value else "Time TBD"
  }

  /** `parts.join(sep)`. */
  function JoinWith(parts: seq<string>, sep: string): string {
    if parts == [] then ""
    else if |parts| == 1 then parts[0]
    else parts[0] + sep + JoinWith(parts[1..], sep)
  }

  /** What comes before " at <time>": "Daily" when the days include
      'daily', else the days, each with its first letter upper-cased,
      joined by ", ". */
  function DaysText(days: seq<string>): string {
    if "daily" in days then "Daily" else JoinWith(Map(days, UpperFirst), ", ")
  }

  function FormatMeetingSchedule(schedule: Option<Schedule>): string {
    if !HasDays(schedule) then "Schedule TBD"
    else DaysText(DayNames(schedule.value.days.value)) + (" at " + TimeText(schedule.value))
  }

  /** "Schedule TBD" is shown exactly when there are no days; otherwise the
      text ends with " at " and the meeting time. */
  lemma ScheduleText(schedule: Option<Schedule>)
    ensures FormatMeetingSchedule(schedule) == "Schedule TBD" <==> !HasDays(schedule)
    ensures HasDays(schedule) ==>
      var r := FormatMeetingSchedule(schedule);
      var tail := " at " + TimeText(schedule.value);
      |tail| <= |r| && r[|r| - |tail|..] == tail
  {
    if HasDays(schedule) {
      EndsWithTime(DaysText(DayNames(schedule.value.days.value)), TimeText(schedule.value));
    }
  }

  lemma EndsWithTime(head: string, time: string)
    ensures var r := head + (" at " + time);
      r != "Schedule TBD" && r[|r| - |" at " + time|..] == " at " + time
  {
    var r := head + (" at " + time);
    assert r[|head| + 1] == 'a';
    assert 'a' !in "Schedule TBD";
  }

  /** A single day is shown as the one-day list would be. */
  lemma SingleDayAsList(day: string, time: Option<string>)
    requires day != ""
    ensures FormatMeetingSchedule(Some(Schedule(Some(OneDay(day)), time))) ==
      FormatMeetingSchedule(Some(Schedule(Some(DayList([day])), time)))
  {
  }

  /** `current_members >= max_members`. */
  predicate GroupIsFull(g: Group) {
    g.currentMembers >= g.maxMembers
  }

  /** At least four fifths of the places are taken. */
  predicate NearCapacity(g: Group) {
    g.currentMembers as real >= g.maxMembers as real * 0.8
  }

  /** The near-capacity test in integers, and a full group of non-negative
      size is near capacity (with a negative size it need not be). */
  lemma CapacityBadges(g: Group)
    ensures NearCapacity(g) <==> 5 * g.currentMembers >= 4 * g.maxMembers
    ensures g.maxMembers >= 0 && GroupIsFull(g) ==> NearCapacity(g)
    ensures g.maxMembers == -5 && g.currentMembers == -5 ==> GroupIsFull(g) && !NearCapacity(g)
  {
  }

  datatype GroupButton = EnterChat | JoinGroup(enabled: bool, caption: string)

  function GroupCardButton(isMember: bool, g: Group): (b: GroupButton)
    ensures b.EnterChat? <==> isMember
    ensures b.JoinGroup? ==> (b.enabled <==> !GroupIsFull(g))
    ensures b.JoinGroup? ==> b.caption == (if b.enabled then "Join Group" else "Group Full")
  {
    if isMember then EnterChat
    else JoinGroup(!GroupIsFull(g), if GroupIsFull(g) then "Group Full" else "Join Group")
  }

  /** Each group's `current_members` is the number of its memberships, and
      group ids are unique. */
  predicate CountsAgree(groups: seq<Group>, memberships: seq<MembershipRow>) {
    (forall g :: g in groups ==> g.currentMembers == MemberCount(memberships, g.id)) &&
    (forall g, h :: g in groups && h in groups && g.id == h.id ==> g == h)
  }

  /** When the stored counts agree with the memberships, the card offers
      the join exactly when the checked join would accept it. */
  lemma CardAgreesWithCheckedJoin(groups: seq<Group>, memberships: seq<MembershipRow>, g: Group)
    requires g in groups && CountsAgree(groups, memberships)
    ensures GroupCardButton(false, g).enabled <==> !IsFull(groups, memberships, g.id)
  {
    if IsFull(groups, memberships, g.id) {
      var h :| h in groups && h.id == g.id && MemberCount(memberships, g.id) >= h.maxMembers;
      assert h == g;
    }
  }

  // ---------------------------------------------------------------------
  // SupporterProfileForm

  datatype ProfileDraft = ProfileDraft(
    level: SupporterLevel,
    experienceMonths: int,
    specializations: seq<string>,
    maxConcurrentMatches: int,
    isActive: bool)

  const DefaultDraft: ProfileDraft := ProfileDraft(Community, 0, [], 3, true)

  /** Removes every occurrence of a present item, else appends it. */
  function Toggle(current: seq<string>, spec: string): (r: seq<string>)
    ensures spec in r <==> spec !in current
    ensures forall x :: x != spec ==> (x in r <==> x in current)
    ensures spec !in current ==> r == current + [spec]
  {
    if spec in current then Filter(current, s => s != spec) else current + [spec]
  }

  /** Toggling an item on and off again restores the list. */
  lemma ToggleTwice(current: seq<string>, spec: string)
    requires spec !in current
    ensures Toggle(Toggle(current, spec), spec) == current
  {
    FilterAppend(current, spec, s => s != spec);
    FilterAll(current, s => s != spec);
  }

  /** The longest prefix of decimal digits. */
  function LeadingDigits(s: string): (r: string)
    ensures r <= s && forall i :: 0 <= i < |r| ==> '0' <= r[i] <= '9'
    ensures |r| < |s| ==> !('0' <= s[|r|] <= '9')
  {
    if s != [] && '0' <= s[0] <= '9' then [s[0]] + LeadingDigits(s[1..]) else []
  }

  /** `parseInt(text)`: leading white space, an optional sign, then at least
      one digit; NaN (None) otherwise. */
  function ParseInt(text: string): Option<int> {
    var t := TrimStart(text);
    var negative := t != [] && t[0] == '-';
    var rest := if t != [] && (t[0] == '-' || t[0] == '+') then t[1..] else t;
    var digits := LeadingDigits(rest);
    if digits == [] then None
    else if negative then Some(-ParseDecimal(digits))
    else Some(ParseDecimal(digits))
  }

  /** `parseInt(text) || fallback`: NaN and 0 both give the fallback. */
  function NumberOr(text: string, fallback: int): (r: int)
    ensures fallback != 0 ==> r != 0
    ensures ParseInt(text).None? ==> r == fallback
  {
    match ParseInt(text)
    case None => fallback
    case Some(n) => if n == 0 then fallback else n
  }

  /** The experience field: unparsable input gives 0 months. */
  function ExperienceMonths(text: string): int {
    NumberOr(text, 0)
  }

  /** The capacity field: unparsable input, and 0, give 3 matches. */
  function MaxMatches(text: string): (r: int)
    ensures r != 0
  {
    NumberOr(text, 3)
  }

  /** A positive number typed in reads back as itself, and an empty field
      falls back. */
  lemma NumberFieldReadsDecimal(n: nat, fallback: int)
    ensures n > 0 ==> NumberOr(Decimal(n), fallback) == n
    ensures NumberOr("", fallback) == fallback && NumberOr("0", fallback) == fallback
  {
    if n > 0 {
      var s := Decimal(n);
      assert ParseInt(s) == Some(n) by {
        ParseDigits(s);
        ParseDecimalInverts(n);
      }
      assert NumberOr(s, fallback) == n;
    }
    assert ParseInt("") == None by {
      assert TrimStart("") == "" && LeadingDigits("") == "";
    }
    assert ParseInt("0") == Some(0) by {
      ParseDigits("0");
      assert "0"[..0] == "";
      assert ParseDecimal("0") == 0;
    }
  }

  /** A text of digits alone parses as its decimal value. */
  lemma ParseDigits(s: string)
    requires s != [] && forall i :: 0 <= i < |s| ==> '0' <= s[i] <= '9'
    ensures ParseInt(s) == Some(ParseDecimal(s))
  {
    var t := TrimStart(s);
    assert '0' <= s[0] <= '9';
    assert t == s by {
      assert !IsSpace(s[0]);
    }
    assert LeadingDigits(t) == s by {
      AllDigitsLead(s);
    }
    assert !(t != [] && (t[0] == '-' || t[0] == '+'));
    assert ParseDecimal(LeadingDigits(t)) == ParseDecimal(s);
  }

  lemma {:induction false} AllDigitsLead(s: string)
    requires forall i :: 0 <= i < |s| ==> '0' <= s[i] <= '9'
    ensures LeadingDigits(s) == s
  {
    if s != [] {
      AllDigitsLead(s[1..]);
      assert [s[0]] + s[1..] == s;
    }
  }

  datatype SaveCall = BecomePeerSupporter | UpdateSupporterProfile

  class SupporterProfileForm {
    var draft: ProfileDraft
    var isNewSupporter: bool

    constructor()
      ensures draft == DefaultDraft && isNewSupporter
    {
      draft := DefaultDraft;
      isNewSupporter := true;
    }

    /** `loadSupporterProfile()`: an existing profile replaces the draft and
        marks the supporter as not new. */
    method Loaded(profile: Option<ProfileDraft>)
      modifies this
      ensures profile.Some? ==> draft == profile.value && !isNewSupporter
      ensures profile.None? ==> draft == old(draft) && isNewSupporter == old(isNewSupporter)
    {
      if profile.Some? {
        draft := profile.value;
        isNewSupporter := false;
      }
    }

    method ToggleSpecialization(spec: string)
      modifies this
      ensures draft == old(draft).(specializations := Toggle(old(draft).specializations, spec))
      ensures isNewSupporter == old(isNewSupporter)
    {
      draft := draft.(specializations := Toggle(draft.specializations, spec));
    }

    /** The save button: disabled while saving or with no specialization. */
    predicate CanSave(saving: bool)
      reads this
    {
      !saving && |draft.specializations| > 0
    }

    /** `handleSave()`: a new supporter is created, an existing one updated;
        only a save without error makes the supporter no longer new. */
    method Save(failed: bool) returns (call: SaveCall)
      modifies this
      ensures call == (if old(isNewSupporter) then BecomePeerSupporter else UpdateSupporterProfile)
      ensures isNewSupporter == (old(isNewSupporter) && failed)
      ensures draft == old(draft)
    {
      call := if isNewSupporter then BecomePeerSupporter else UpdateSupporterProfile;
      if !failed {
        isNewSupporter := false;
      }
    }
  }
}
