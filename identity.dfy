/** The identity rule the record services share: the signed-in user's id
    first, then the anonymous id stored on the device; with neither, writes
    fail with "No user session found" and reads return nothing. Rows carry
    two owner columns, `user_id` and `anonymous_id`. */
module Identity {
  import opened Wrappers
  import opened Storage
  import opened Encryption
  import opened Auth

  datatype Principal = ByUser(userId: string) | ByAnonymous(anonymousId: string)

  /** The owner columns of a stored row. */
  datatype Owner = Owner(userId: Option<string>, anonymousId: Option<string>)

  /** Errors the services return in `{ error }`. */
  datatype ServiceError =
    | NoUserSession                 // "No user session found"
    | CipherFailed(cause: CipherError)
    | Rejected(message: string)     // the remote store refused the write
    | NotFound
    | NoAvailableSupporters         // "No available supporters found"
    | GroupFull                     // a join the group has no room for

  /** The signed-in user first, then the stored anonymous id, else nobody. */
  function ResolvePrincipal(user: Option<User>, anonymousId: Option<string>): (p: Option<Principal>)
    ensures p.None? <==> user.None? && !Truthy(anonymousId)
    ensures p.Some? && p.value.ByAnonymous? ==> user.None? && anonymousId == Some(p.value.anonymousId)
    ensures user.Some? ==> p == Some(ByUser(user.value.id))
  {
    if user.Some? then Some(ByUser(user.value.id))
    else if Truthy(anonymousId) then Some(ByAnonymous(anonymousId.value))
    else None
  }

  /** The principal of the current device: the user passed in, or the
      anonymous id kept in local storage. */
  function CurrentPrincipal(user: Option<User>, storage: LocalStorage): Option<Principal>
    reads storage
  {
    ResolvePrincipal(user, storage.GetItem(AnonymousIdKey))
  }

  /** The columns a write sets: exactly one of the two. */
  function OwnerOf(p: Principal): (o: Owner)
    ensures o.userId.Some? != o.anonymousId.Some?
  {
    match p
    case ByUser(u) => Owner(Some(u), None)
    case ByAnonymous(a) => Owner(None, Some(a))
  }

  /** The filter a read applies: `.eq('user_id', …)` or `.eq('anonymous_id', …)`. */
  predicate OwnedBy(o: Owner, p: Principal) {
    match p
    case ByUser(u) => o.userId == Some(u)
    case ByAnonymous(a) => o.anonymousId == Some(a)
  }

  /** A row written under a principal is read back by that principal and
      by no other. */
  lemma OwnerSeparation(p: Principal, q: Principal)
    ensures OwnedBy(OwnerOf(p), q) <==> p == q
  {
  }

  /** Rows written anonymously are never visible once the device signs in:
      nothing migrates them to the account. */
  lemma AnonymousRowsStayBehind(anonymousId: string, user: User, stored: Option<string>)
    ensures var p := ResolvePrincipal(Some(user), stored);
      p.Some? && !OwnedBy(OwnerOf(ByAnonymous(anonymousId)), p.value)
  {
  }
}
