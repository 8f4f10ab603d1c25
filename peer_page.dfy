/** The peer-support page: the group search, the membership test, the
    match buttons' handlers and the "find support" request. */
module PeerSupportPage {
  import opened Wrappers
  import opened Seqs
  import opened Text
  import opened Storage
  import opened Encryption
  import opened Identity
  import opened PeerSupport
  import opened PeerCards

  /** A group is shown when the search is empty or its name or description
      contains it, ignoring case, and when the category is 'all' or its own. */
  predicate GroupMatches(g: Group, query: string, category: string) {
    (query == "" || Contains(ToLower(g.name), ToLower(query)) || Contains(ToLower(g.description), ToLower(query))) &&
    (category == "all" || g.category == category)
  }

  function FilteredGroups(groups: seq<Group>, query: string, category: string): (r: seq<Group>)
    ensures IsSubsequence(r, groups)
    ensures forall g :: g in r <==> g in groups && GroupMatches(g, query, category)
  {
    Filter(groups, g => GroupMatches(g, query, category))
  }

  /** An empty search in 'all' shows every group. */
  lemma NoFilterShowsAll(groups: seq<Group>)
    ensures FilteredGroups(groups, "", "all") == groups
  {
    FilterAll(groups, g => GroupMatches(g, "", "all"));
  }

  /** Some membership of the principal is for the group. */
  predicate IsMember(myGroups: seq<MembershipRow>, groupId: string) {
    Any(myGroups, (m: MembershipRow) => m.groupId == groupId)
  }

  /** A membership written by the join makes its principal a member. */
  lemma JoinMakesMember(myGroups: seq<MembershipRow>, p: Principal, groupId: string, id: string, now: string)
    ensures IsMember(myGroups + [MembershipOf(p, groupId, id, now)], groupId)
  {
    var all := myGroups + [MembershipOf(p, groupId, id, now)];
    assert all[|all| - 1].groupId == groupId;
  }

  /** The status each handler asks for: accept, decline and complete. */
  function StatusFor(a: CardAction): (r: Option<MatchStatus>)
    ensures r.Some? ==> r.value != Pending
  {
    match a
    case AcceptMatch => Some(Active)
    case DeclineMatch => Some(Cancelled)
    case CompleteMatch => Some(Completed)
    case _ => None
  }

  /** The card and its handlers between them make exactly the offered
      transitions: every status-changing button leads to one, and each one
      has its button (for the supporter). */
  lemma ButtonsMakeOfferedTransitions(from: MatchStatus, isSupporter: bool)
    ensures forall a :: a in OfferedActions(from, isSupporter) && StatusFor(a).Some? ==> Offered(from, StatusFor(a).value)
    ensures forall to :: Offered(from, to) ==>
      exists a :: a in OfferedActions(from, true) && StatusFor(a) == Some(to)
  {
    forall to | Offered(from, to)
      ensures exists a :: a in OfferedActions(from, true) && StatusFor(a) == Some(to)
    {
      if to == Active {
        assert AcceptMatch in OfferedActions(from, true);
      } else if to == Cancelled {
        assert DeclineMatch in OfferedActions(from, true);
      } else {
        assert CompleteMatch in OfferedActions(from, true);
      }
    }
  }

  /** The alerts of `handleFindSupport` when no supporter is free and when
      one was matched. */
  const NoSupporterAlert := "No supporters are currently available. Please try again later or join a support group."
  const MatchFoundAlert := "Great! We've found a peer supporter for you. They will be notified of your request."

  /** The request `handleFindSupport` makes: none for an empty or cancelled
      prompt, else a one-time match with the reason. */
  function FindSupportRequest(reason: Option<string>): (r: Option<Preferences>)
    ensures r.Some? <==> Truthy(reason)
    ensures r.Some? ==> r.value.matchType == OneTime && r.value.reason == reason && r.value.specializations.None?
  {
    if !Truthy(reason) then None else Some(Preferences(OneTime, None, None, reason))
  }

  /** The page never sends specializations, so the preferences it asks for
      are never stored, encrypted or not. */
  lemma PageSendsNoPreferences(cipher: EncryptionService, reason: Option<string>)
    requires Truthy(reason)
    ensures SealPreferences(cipher, FindSupportRequest(reason).value) == Success(None)
  {
  }

  const JoinedAlert := "Successfully joined the support group!"

  /** The alert `handleJoinGroup` shows as written: the service reports
      errors in its result instead of throwing, so the `catch` with the
      failure message never runs. */
  function JoinAlertAsWritten(result: Result<MembershipRow, ServiceError>): string {
    JoinedAlert
  }

  /** A join the service refuses, say for want of an identity, shows the
      alert of a successful one, where the intended alert tells them apart. */
  lemma JoinFailureReportedAsSuccess(row: MembershipRow)
    ensures JoinAlertAsWritten(Failure(NoUserSession)) == JoinAlertAsWritten(Success(row))
    ensures JoinAlert(Failure(NoUserSession)) != JoinAlert(Success(row))
  {
  }

  /** The alert for the result the service returns. */
  function JoinAlert(result: Result<MembershipRow, ServiceError>): (text: string)
    ensures text == JoinedAlert <==> result.Success?
  {
    if result.Success? then JoinedAlert
    else "Unable to join group. It may be full or you may already be a member."
  }

  datatype Tab = FindSupport | MyMatches | Groups | BecomeSupporter

  class PeerSupportView {
    var matches: seq<PeerMatch>
    var activeTab: Tab
    var lastAlert: Option<string>

    constructor()
      ensures matches == [] && activeTab == FindSupport && lastAlert == None
    {
      matches := [];
      activeTab := FindSupport;
      lastAlert := None;
    }

    /** `handleFindSupport()` once the prompt has answered `reason` and, if
        a request was made, the service has answered `outcome`. A new match
        goes to the front of the list. */
    method HandleFindSupport(reason: Option<string>, outcome: Result<PeerMatch, ServiceError>)
      returns (request: Option<Preferences>)
      modifies this
      ensures request == FindSupportRequest(reason)
      ensures request.None? ==> matches == old(matches) && activeTab == old(activeTab) && lastAlert == old(lastAlert)
      ensures request.Some? && outcome.Failure? ==> matches == old(matches) && activeTab == old(activeTab) && lastAlert == Some(NoSupporterAlert)
      ensures request.Some? && outcome.Success? ==>
        matches == [outcome.value] + old(matches) && activeTab == MyMatches && lastAlert == Some(MatchFoundAlert)
    {
      request := FindSupportRequest(reason);
      if request.None? {
        return;
      }
      if outcome.Failure? {
        lastAlert := Some(NoSupporterAlert);
        return;
      }
      matches := [outcome.value] + matches;
      activeTab := MyMatches;
      lastAlert := Some(MatchFoundAlert);
    }

    /** `handleJoinGroup(groupId)` after the service answered `result`:
        the success alert, whatever the result. */
    method HandleJoinGroup(result: Result<MembershipRow, ServiceError>)
      modifies this
      ensures lastAlert == Some(JoinAlertAsWritten(result))
      ensures lastAlert == Some(JoinedAlert)
      ensures matches == old(matches) && activeTab == old(activeTab)
    {
      lastAlert := Some(JoinAlertAsWritten(result));
    }
  }
}
