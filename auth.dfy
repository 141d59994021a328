/** Sign-in and authorisation guards (app/lib/auth.ts).

    The NextAuth `signIn` callback saves the encrypted refresh token and makes sure a
    profile exists; `getCurrentUser` reads the profile of the session's user;
    `requireAuth` and `requireAdmin` turn a missing user or a missing role into an
    error. `encrypt` and the session lookup are parameters; store failures are the
    `fault` arguments of `Store.Database`. */
module Auth {
  import opened Common
  import opened Store

  const DefaultStrategy := "msal"
  const SecretProvider := "microsoft"
  const AdminRole := "admin"
  const AuthenticationRequiredMessage := "Authentication required"
  const AdminRequiredMessage := "Admin access required"

  /** `AUTH_STRATEGY = process.env.AUTH_STRATEGY || 'msal'`. */
  function Strategy(env: Option<string>): string {
    OrElse(env, DefaultStrategy)
  }

  /** The `user` NextAuth hands to the callback. */
  datatype SignInUser = SignInUser(id: Option<string>, name: Option<string>, email: Option<string>)

  /** The OAuth `account`: its provider id and the refresh token, when one was issued. */
  datatype Account = Account(providerAccountId: string, refreshToken: Option<string>)

  /** The callback goes on only with an account and an e-mail address. */
  predicate Admitted(user: SignInUser, account: Option<Account>) {
    account.Some? && Truthy(user.email)
  }

  /** `user.id || account.providerAccountId`. */
  function UserIdOf(user: SignInUser, account: Account): (id: string)
    ensures Truthy(user.id) ==> id == user.id.value
    ensures !Truthy(user.id) ==> id == account.providerAccountId
  {
    OrElse(user.id, account.providerAccountId)
  }

  /** The refresh token the callback stores: only under the 'msal' strategy, and
      only when the account carries one. */
  function TokenToSave(strategy: string, account: Account): (t: Option<string>)
    ensures t.Some? <==> strategy == DefaultStrategy && Truthy(account.refreshToken)
    ensures t.Some? ==> t == account.refreshToken && t.value != ""
  {
    if strategy == DefaultStrategy && Truthy(account.refreshToken) then account.refreshToken else None
  }

  /** The profile created for a first sign-in. */
  function NewProfile(user: SignInUser, account: Account): (p: UserProfile)
    requires Truthy(user.email)
    ensures p.userId == UserIdOf(user, account) && p.email == user.email.value
    ensures p.displayName == (if Truthy(user.name) then user.name.value else user.email.value)
    ensures p.timeZone == DefaultTimeZone && p.role == DefaultRole
  {
    UserProfile(UserIdOf(user, account), OrElse(user.name, user.email.value), user.email.value,
                DefaultTimeZone, DefaultRole)
  }

  /** The token step succeeds: nothing to save, or it was encrypted and stored. */
  predicate TokenStepOk(strategy: string, account: Account, encrypt: string -> Result<string>,
                        saveFault: Option<Error>)
  {
    var t := TokenToSave(strategy, account);
    t.None? || (encrypt(t.value).Ok? && saveFault.None?)
  }

  /** A profile stored as `createProfile` stores `p` reads back as `p` when it is
      the user's first. */
  lemma CreatedProfileReadsBack(docs: seq<ProfileDoc>, p: UserProfile, docId: nat)
    requires p.timeZone != "" && p.role != ""
    requires ProfileLookup(docs, p.userId).None?
    ensures ProfileLookup(docs + [ProfileDoc(docId, p.userId, p.displayName, p.email, Some(p.timeZone), Some(p.role))],
                          p.userId) == Some(p)
  {
    var d := ProfileDoc(docId, p.userId, p.displayName, p.email, Some(p.timeZone), Some(p.role));
    FirstIndexAppend(docs, d, x => ProfileOf(p.userId, x));
  }

  /** The `signIn` callback at time `now`. It answers `false` when refused and when
      any step throws; steps that already completed stay done. */
  method SignIn(db: Database, strategy: string, user: SignInUser, account: Option<Account>,
                encrypt: string -> Result<string>, now: nat,
                saveFault: Option<Error>, lookupFault: Option<Error>, createFault: Option<Error>)
    returns (ok: bool)
    requires db.Valid()
    modifies db
    ensures db.Valid()
    ensures db.auditLogs == old(db.auditLogs)
    ensures !Admitted(user, account) ==> !ok && db.secrets == old(db.secrets) && db.profiles == old(db.profiles)
    ensures Admitted(user, account) ==>
      var uid := UserIdOf(user, account.value);
      var t := TokenToSave(strategy, account.value);
      && (db.secrets ==
            if TokenStepOk(strategy, account.value, encrypt, saveFault) && t.Some?
            then Upserted(old(db.secrets), uid, SecretProvider, encrypt(t.value).value, now, old(db.nextDocId))
            else old(db.secrets))
      && (ok <==> TokenStepOk(strategy, account.value, encrypt, saveFault) && lookupFault.None?
                  && (ProfileLookup(old(db.profiles), uid).Some? || createFault.None?))
    ensures Admitted(user, account) ==>
      var uid := UserIdOf(user, account.value);
      if TokenStepOk(strategy, account.value, encrypt, saveFault) && lookupFault.None?
         && ProfileLookup(old(db.profiles), uid).None? && createFault.None?
      then |db.profiles| == |old(db.profiles)| + 1 && db.profiles[..|old(db.profiles)|] == old(db.profiles)
           && ProfileLookup(db.profiles, uid) == Some(NewProfile(user, account.value))
      else db.profiles == old(db.profiles)
    ensures ok ==> Admitted(user, account) && ProfileLookup(db.profiles, UserIdOf(user, account.value)).Some?
  {
    if account.None? || !Truthy(user.email) {
      return false;
    }
    var acct := account.value;
    if strategy == DefaultStrategy && Truthy(acct.refreshToken) {
      var userId := UserIdOf(user, acct);
      var refreshTokenEnc := encrypt(acct.refreshToken.value);
      if refreshTokenEnc.Err? {
        return false;
      }
      var saved := db.SaveSecret(userId, SecretProvider, refreshTokenEnc.value, now, saveFault);
      if saved.Err? {
        return false;
      }
    }
    var userId := UserIdOf(user, acct);
    var existing := db.GetProfile(userId, lookupFault);
    if existing.Err? {
      return false;
    }
    if existing.value.None? {
      ghost var before := db.profiles;
      var created := db.CreateProfile(NewProfile(user, acct), createFault);
      if created.Err? {
        return false;
      }
      CreatedProfileReadsBack(before, NewProfile(user, acct), db.nextDocId - 1);
    }
    ok := true;
  }

  /** `getCurrentUser()`: the profile of the session's user under the 'msal'
      strategy, and `null` otherwise or when anything fails. `session` is what
      `getServerSession` yields: the session user's id, if there is a session user. */
  function CurrentUser(db: Database, strategy: string, session: Result<Option<string>>,
                       lookupFault: Option<Error>): (r: Option<UserProfile>)
    reads db
    ensures strategy != DefaultStrategy || session.Err? || lookupFault.Some? ==> r.None?
    ensures strategy == DefaultStrategy && session.Ok? && session.value.None? ==> r.None?
    ensures strategy == DefaultStrategy && session.Ok? && session.value.Some? && lookupFault.None? ==>
      r == ProfileLookup(db.profiles, session.value.value)
    ensures r.Some? ==> session.Ok? && session.value.Some? && r.value.userId == session.value.value
  {
    if strategy != DefaultStrategy then None
    else match session
      case Err(_) => None
      case Ok(None) => None
      case Ok(Some(userId)) =>
        match db.GetProfile(userId, lookupFault)
        case Err(_) => None
        case Ok(profile) => profile
  }

  /** `requireAuth()` given the current user. */
  function RequireAuth(current: Option<UserProfile>): (r: Result<UserProfile>)
    ensures r.Err? <==> current.None?
    ensures r.Err? ==> r == Fail(AuthenticationRequiredMessage)
    ensures r.Ok? ==> r.value == current.value
  {
    if current.None? then Fail(AuthenticationRequiredMessage) else Ok(current.value)
  }

  /** `requireAdmin()` given the current user. */
  function RequireAdmin(current: Option<UserProfile>): (r: Result<UserProfile>)
    ensures r.Ok? <==> current.Some? && current.value.role == AdminRole
    ensures current.None? ==> r == Fail(AuthenticationRequiredMessage)
    ensures current.Some? && current.value.role != AdminRole ==> r == Fail(AdminRequiredMessage)
    ensures r.Ok? ==> r.value == current.value
  {
    match RequireAuth(current)
    case Err(e) => Err(e)
    case Ok(u) => if u.role != AdminRole then Fail(AdminRequiredMessage) else Ok(u)
  }

  /** A user whose profile was just created by sign-in is authenticated but not an
      administrator: the profile carries the role 'user'. */
  lemma FirstSignInIsNotAdmin(docs: seq<ProfileDoc>, user: SignInUser, account: Account, docId: nat)
    requires Truthy(user.email)
    requires ProfileLookup(docs, UserIdOf(user, account)).None?
    ensures var p := NewProfile(user, account);
      var current := ProfileLookup(docs + [ProfileDoc(docId, p.userId, p.displayName, p.email,
                                                      Some(p.timeZone), Some(p.role))], p.userId);
      RequireAuth(current) == Ok(p) && RequireAdmin(current) == Fail(AdminRequiredMessage)
  {
    var p := NewProfile(user, account);
    CreatedProfileReadsBack(docs, p, docId);
  }
}
