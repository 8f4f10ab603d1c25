/** The authentication context: who the current user is (signed in,
    anonymous, or nobody), the session, the cipher key and the two
    local-storage entries of an anonymous device, and the transitions
    between them. Remote calls are parameters describing their outcome. */
module Auth {
  import opened Wrappers
  import opened Storage
  import opened Encryption

  datatype User = User(id: string)

  /** A remote session; `user` can be missing. */
  datatype Session = Session(accessToken: string, user: Option<User>)

  datatype PrivacyLevel = AnonymousLevel | EmailLevel | EnhancedLevel

  datatype Profile = Profile(id: string, userId: string, privacyLevel: PrivacyLevel)

  /** Outcome of loading the profile row of a user. */
  datatype ProfileLoad =
    | ProfileFound(profile: Profile)
    | ProfileMissing   // no row: the profile becomes null
    | ProfileError     // any other error: the profile is left as it was

  /** Outcome of asking the remote service for the current session. */
  datatype SessionFetch =
    | SessionError     // an error was returned or thrown
    | Fetched(session: Option<Session>)

  datatype AuthEvent = SignedIn | SignedOut | TokenRefreshed | UserUpdated | InitialSession | PasswordRecovery

  /** Everything a transition reads or writes. */
  datatype AuthState = AuthState(
    user: Option<User>,
    profile: Option<Profile>,
    session: Option<Session>,
    loading: bool,
    isAnonymous: bool,
    key: Option<string>,
    items: map<string, string>)

  function StoredAnonymousId(s: AuthState): Option<string> {
    if AnonymousIdKey in s.items then Some(s.items[AnonymousIdKey]) else None
  }

  predicate HasUser(session: Option<Session>) {
    session.Some? && session.value.user.Some?
  }

  function ProfileAfterLoad(current: Option<Profile>, load: ProfileLoad): Option<Profile> {
    match load
    case ProfileFound(p) => Some(p)
    case ProfileMissing => None
    case ProfileError => current
  }

  /** `clearAuthState`: nobody is signed in and the key is forgotten. */
  function Cleared(s: AuthState): (r: AuthState)
    ensures r.user == None && r.profile == None && r.session == None
    ensures !r.isAnonymous && r.key == None
    ensures r.items == s.items && r.loading == s.loading
  {
    s.(user := None, profile := None, session := None, isAnonymous := false, key := None)
  }

  /** `checkAnonymousSession`: with a stored anonymous id, become anonymous
      under the device key; otherwise change nothing. */
  function CheckedAnonymous(s: AuthState, randomKey: string): (r: (bool, AuthState))
    requires randomKey != ""
    ensures r.0 <==> Truthy(StoredAnonymousId(s))
    ensures !r.0 ==> r.1 == s
    ensures r.0 ==> r.1.isAnonymous && r.1.key.Some? && r.1.key.value != ""
    ensures r.0 ==> DeviceKeyKey in r.1.items && r.1.items[DeviceKeyKey] == r.1.key.value
    ensures r.1.user == s.user && r.1.session == s.session && r.1.profile == s.profile
  {
    if Truthy(StoredAnonymousId(s)) then
      var (k, items) := InitializedKey(None, s.items, randomKey);
      (true, s.(isAnonymous := true, key := Some(k), items := items))
    else (false, s)
  }

  /** Falls back to the anonymous session, or clears the state when there is none. */
  function AnonymousOrCleared(s: AuthState, randomKey: string): AuthState
    requires randomKey != ""
  {
    var (found, s1) := CheckedAnonymous(s, randomKey);
    if found then s1 else Cleared(s1)
  }

  /** A session with a user: it is adopted, the key is derived from its
      access token and the anonymous mode is left. */
  function Adopted(s: AuthState, session: Session, load: ProfileLoad, randomKey: string): AuthState
    requires randomKey != "" && session.user.Some?
  {
    var (k, items) := InitializedKey(Some(session.accessToken), s.items, randomKey);
    s.(session := Some(session), user := session.user, key := Some(k), items := items,
       profile := ProfileAfterLoad(s.profile, load), isAnonymous := false)
  }

  function InitializeAuthSpec(s: AuthState, fetch: SessionFetch, load: ProfileLoad, randomKey: string)
    : AuthState
    requires randomKey != ""
  {
    var r :=
      match fetch
      case SessionError => AnonymousOrCleared(s, randomKey)
      case Fetched(session) =>
        if HasUser(session) then Adopted(s, session.value, load, randomKey)
        else AnonymousOrCleared(s, randomKey);
    r.(loading := false)
  }

  function AuthStateChangeSpec(s: AuthState, event: AuthEvent, session: Option<Session>,
                               load: ProfileLoad, randomKey: string): AuthState
    requires randomKey != ""
  {
    if event == SignedOut then Cleared(s).(loading := false)
    else if HasUser(session) then Adopted(s, session.value, load, randomKey).(loading := false)
    else WithoutUser(s, event, randomKey).(loading := false)
  }

  /** An event whose session carries no user: the session is dropped and
      the anonymous mode is kept only while an anonymous id is stored. */
  function WithoutUser(s: AuthState, event: AuthEvent, randomKey: string): AuthState
    requires randomKey != ""
  {
    var s1 := s.(session := None, user := None, profile := None);
    // the event test of the source is always true here; the anonymous
    // check runs in every case that reaches this branch
    var checked := CheckedAnonymous(s1, randomKey);
    if event != SignedOut && !checked.0 then checked.1.(isAnonymous := false, key := None) else checked.1
  }

  function SignInSpec(s: AuthState): AuthState {
    s.(items := s.items - {AnonymousIdKey, DeviceKeyKey})
  }

  function SignOutSpec(s: AuthState): AuthState {
    Cleared(s).(items := s.items - {AnonymousIdKey, DeviceKeyKey}, loading := false)
  }

  function AnonymousSessionSpec(s: AuthState, anonymousId: string, randomKey: string): AuthState
    requires randomKey != ""
  {
    var withId := s.items[AnonymousIdKey := anonymousId];
    var (k, items) := InitializedKey(None, withId, randomKey);
    s.(items := items, key := Some(k), isAnonymous := true, user := None, profile := None, session := None)
  }

  /** Outcome of the remote sign-up. */
  datatype SignUpOutcome = SignUpFailed(message: string) | SignedUp(user: Option<User>)

  function UpgradeSpec(s: AuthState, outcome: SignUpOutcome): (r: (Option<string>, AuthState)) {
    if !s.isAnonymous then (Some("Not in anonymous mode"), s)
    else match outcome
      case SignUpFailed(m) => (Some(m), s)
      case SignedUp(u) =>
        if u.Some? then (None, s.(items := s.items - {AnonymousIdKey, DeviceKeyKey}))
        else (None, s)
  }

  // ---- properties of the transitions ----

  /** A session with a user always wins: it is adopted and the anonymous
      mode is left even when an anonymous id is stored. */
  lemma SessionWins(s: AuthState, event: AuthEvent, session: Session, load: ProfileLoad, randomKey: string)
    requires randomKey != "" && session.user.Some? && event != SignedOut
    ensures var r := AuthStateChangeSpec(s, event, Some(session), load, randomKey);
      r.user == session.user && r.session == Some(session) && !r.isAnonymous &&
      (session.accessToken != "" ==> r.key == Some(SessionKey(session.accessToken)))
    ensures var r := InitializeAuthSpec(s, Fetched(Some(session)), load, randomKey);
      r.user == session.user && r.session == Some(session) && !r.isAnonymous && !r.loading &&
      (session.accessToken != "" ==> r.key == Some(SessionKey(session.accessToken)))
  {
  }

  /** SIGNED_OUT clears everything and never looks at the anonymous id: the
      result is the same whatever the device has stored. */
  lemma SignedOutIgnoresAnonymousId(s: AuthState, session: Option<Session>, load: ProfileLoad,
                                    randomKey: string, otherItems: map<string, string>)
    requires randomKey != ""
    ensures var r := AuthStateChangeSpec(s, SignedOut, session, load, randomKey);
      r.user == None && r.session == None && r.profile == None &&
      !r.isAnonymous && r.key == None && r.items == s.items && !r.loading
    ensures AuthStateChangeSpec(s.(items := otherItems), SignedOut, session, load, randomKey).isAnonymous ==
      AuthStateChangeSpec(s, SignedOut, session, load, randomKey).isAnonymous
  {
  }

  /** Without a user session (and any event but SIGNED_OUT) the device is
      anonymous exactly when it holds an anonymous id, and otherwise has no
      key. */
  lemma NoSessionFollowsAnonymousId(s: AuthState, event: AuthEvent, session: Option<Session>,
                                    load: ProfileLoad, randomKey: string)
    requires randomKey != "" && event != SignedOut && !HasUser(session)
    ensures var r := AuthStateChangeSpec(s, event, session, load, randomKey);
      r.user == None && r.session == None && r.profile == None &&
      (r.isAnonymous <==> Truthy(StoredAnonymousId(s))) &&
      (!r.isAnonymous ==> r.key == None) &&
      (r.isAnonymous ==> r.key.Some? && r.items[DeviceKeyKey] == r.key.value)
  {
    var s1 := s.(session := None, user := None, profile := None);
    assert StoredAnonymousId(s1) == StoredAnonymousId(s);
  }

  /** After sign-out nothing of the anonymous device is left: both entries
      are gone, the key is forgotten and nobody is signed in. */
  lemma SignOutLeavesNothing(s: AuthState)
    ensures var r := SignOutSpec(s);
      AnonymousIdKey !in r.items && DeviceKeyKey !in r.items &&
      r.key == None && r.user == None && r.session == None && !r.isAnonymous && !r.loading
  {
  }

  /** A fresh anonymous session is anonymous, signed out, holds the new id
      and a device key equal to the cipher key. */
  lemma AnonymousSessionShape(s: AuthState, anonymousId: string, randomKey: string)
    requires randomKey != ""
    ensures var r := AnonymousSessionSpec(s, anonymousId, randomKey);
      r.isAnonymous && r.user == None && r.session == None && r.profile == None &&
      r.items[AnonymousIdKey] == anonymousId && r.key == Some(r.items[DeviceKeyKey])
  {
  }

  /** Upgrading is refused outside anonymous mode; a successful sign-up
      drops both device entries without touching anything else. */
  lemma UpgradeRules(s: AuthState, outcome: SignUpOutcome)
    ensures !s.isAnonymous ==> UpgradeSpec(s, outcome) == (Some("Not in anonymous mode"), s)
    ensures s.isAnonymous && outcome.SignedUp? && outcome.user.Some? ==>
      UpgradeSpec(s, outcome) == (None, s.(items := s.items - {AnonymousIdKey, DeviceKeyKey}))
    ensures UpgradeSpec(s, outcome).1.key == s.key && UpgradeSpec(s, outcome).1.isAnonymous == s.isAnonymous
  {
  }

  class AuthProvider {
    var user: Option<User>
    var profile: Option<Profile>
    var session: Option<Session>
    var loading: bool
    var isAnonymous: bool
    const cipher: EncryptionService
    const storage: LocalStorage

    function State(): AuthState
      reads this, cipher, storage
    {
      AuthState(user, profile, session, loading, isAnonymous, cipher.encryptionKey, storage.items)
    }

    constructor(cipher: EncryptionService, storage: LocalStorage)
      ensures this.cipher == cipher && this.storage == storage
      ensures user == None && profile == None && session == None
      ensures loading && !isAnonymous
    {
      this.cipher := cipher;
      this.storage := storage;
      user := None;
      profile := None;
      session := None;
      loading := true;
      isAnonymous := false;
    }

    method ClearAuthState()
      modifies this, cipher
      ensures State() == Cleared(old(State()))
    {
      user := None;
      profile := None;
      session := None;
      isAnonymous := false;
      cipher.ClearKey();
    }

    method CheckAnonymousSession(randomKey: string) returns (found: bool)
      requires |randomKey| == 64 && IsHex(randomKey)
      modifies this, cipher, storage
      ensures (found, State()) == CheckedAnonymous(old(State()), randomKey)
    {
      var anonymousId := storage.GetItem(AnonymousIdKey);
      if Truthy(anonymousId) {
        isAnonymous := true;
        cipher.InitializeKey(None, storage, randomKey);
        found := true;
      } else {
        found := false;
      }
    }

    method LoadUserProfile(load: ProfileLoad)
      modifies this
      ensures State() == old(State()).(profile := ProfileAfterLoad(old(profile), load))
    {
      profile := ProfileAfterLoad(profile, load);
    }

    method AdoptSession(s: Session, load: ProfileLoad, randomKey: string)
      requires s.user.Some? && |randomKey| == 64 && IsHex(randomKey)
      modifies this, cipher, storage
      ensures State() == Adopted(old(State()), s, load, randomKey)
    {
      session := Some(s);
      user := s.user;
      cipher.InitializeKey(Some(s.accessToken), storage, randomKey);
      LoadUserProfile(load);
      isAnonymous := false;
    }

    method AnonymousOrClear(randomKey: string)
      requires |randomKey| == 64 && IsHex(randomKey)
      modifies this, cipher, storage
      ensures State() == AnonymousOrCleared(old(State()), randomKey)
    {
      var found := CheckAnonymousSession(randomKey);
      if !found {
        ClearAuthState();
      }
    }

    method InitializeAuth(fetch: SessionFetch, load: ProfileLoad, randomKey: string)
      requires |randomKey| == 64 && IsHex(randomKey)
      modifies this, cipher, storage
      ensures State() == InitializeAuthSpec(old(State()), fetch, load, randomKey)
    {
      match fetch {
        case SessionError =>
          AnonymousOrClear(randomKey);
        case Fetched(s) =>
          if HasUser(s) {
            AdoptSession(s.value, load, randomKey);
          } else {
            AnonymousOrClear(randomKey);
          }
      }
      loading := false;
    }

    method OnAuthStateChange(event: AuthEvent, s: Option<Session>, load: ProfileLoad, randomKey: string)
      requires |randomKey| == 64 && IsHex(randomKey)
      modifies this, cipher, storage
      ensures State() == AuthStateChangeSpec(old(State()), event, s, load, randomKey)
    {
      if event == SignedOut {
        ClearAuthState();
        loading := false;
        return;
      }
      if HasUser(s) {
        AdoptSession(s.value, load, randomKey);
        loading := false;
        return;
      }
      DropSession(event, randomKey);
      loading := false;
    }

    /** The branch of the auth listener for a session without a user. */
    method DropSession(event: AuthEvent, randomKey: string)
      requires event != SignedOut && |randomKey| == 64 && IsHex(randomKey)
      modifies this, cipher, storage
      ensures State() == WithoutUser(old(State()), event, randomKey)
    {
      session := None;
      user := None;
      profile := None;
      if event != SignedOut {
        var found := CheckAnonymousSession(randomKey);
        if !found {
          isAnonymous := false;
          cipher.ClearKey();
        }
      }
    }

    /** Drops the anonymous device entries, then authenticates; the session
        itself arrives later as an auth event. */
    method SignIn(remoteError: Option<string>) returns (error: Option<string>)
      modifies storage
      ensures State() == SignInSpec(old(State()))
      ensures error == remoteError
    {
      storage.RemoveItem(AnonymousIdKey);
      storage.RemoveItem(DeviceKeyKey);
      error := remoteError;
    }

    /** Local state is cleared before the remote sign-out, whose failure is
        only logged. */
    method SignOut(remoteError: Option<string>)
      modifies this, cipher, storage
      ensures State() == SignOutSpec(old(State()))
    {
      loading := true;
      storage.RemoveItem(AnonymousIdKey);
      storage.RemoveItem(DeviceKeyKey);
      cipher.ClearKey();
      ClearAuthState();
      loading := false;
    }

    method CreateAnonymousSession(randomDigest: string, randomKey: string)
      requires |randomDigest| == 64 && IsHex(randomDigest)
      requires |randomKey| == 64 && IsHex(randomKey)
      modifies this, cipher, storage
      ensures State() == AnonymousSessionSpec(old(State()), randomDigest[..16], randomKey)
    {
      var anonymousId := cipher.GenerateAnonymousId(randomDigest);
      storage.SetItem(AnonymousIdKey, anonymousId);
      cipher.InitializeKey(None, storage, randomKey);
      isAnonymous := true;
      user := None;
      profile := None;
      session := None;
    }

    method UpgradeToEmail(outcome: SignUpOutcome) returns (error: Option<string>)
      modifies storage
      ensures (error, State()) == UpgradeSpec(old(State()), outcome)
    {
      if !isAnonymous {
        return Some("Not in anonymous mode");
      }
      match outcome {
        case SignUpFailed(m) =>
          error := Some(m);
        case SignedUp(u) =>
          if u.Some? {
            ghost var before := storage.items;
            storage.RemoveItem(AnonymousIdKey);
            storage.RemoveItem(DeviceKeyKey);
            assert storage.items == before - {AnonymousIdKey, DeviceKeyKey};
          }
          error := None;
      }
    }
  }
}
