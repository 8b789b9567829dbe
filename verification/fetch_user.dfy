/** The decision `fetchUser` takes over the answers of its two requests:
    verify the session token, then try to refresh the user's profile. */
module FetchUserDecision {
  import opened Base
  import opened UserSlice

  /** The outcome of one request. `Failed(message)` is any exception raised
      before the body could be read: a transport error, or the error from
      reading a field of a missing body; `message` is "" when it is falsy. */
  datatype Response<+T> = Failed(message: string) | Responded(body: T)

  /** The body of the token check: `success` is the truthiness of its flag,
      `user` is `data.user` (`None` when `data` or its `user` is falsy). */
  datatype TokenBody = TokenBody(success: bool, user: Option<User>)

  /** The messages of the errors the thunk raises itself. */
  const TokenInvalid := "Token geçersiz."
  const UserMissing := "Kullanıcı bilgisi bulunamadı."

  /** `user.id || user._id`: the key the profile is fetched by, "" if none. */
  function ProfileKey(u: User): (k: string)
    ensures k == "" <==> u.id == "" && u.dbId == ""
    ensures u.id != "" ==> k == u.id
    ensures u.id == "" ==> k == u.dbId
  {
    OrElse(u.id, u.dbId)
  }

  /** The profile refresh succeeded for `u`: a key exists and the profile
      request answered with `success` and data. */
  predicate Refreshed(u: User, profile: string -> Response<ProfileBody>) {
    && ProfileKey(u) != ""
    && profile(ProfileKey(u)).Responded?
    && profile(ProfileKey(u)).body.success
    && profile(ProfileKey(u)).body.data.Some?
  }

  /** What the `fetchUser` thunk settles with, given the token response and
      the response the profile request would get for each key. A failed or
      unsuccessful profile request falls back to the user in the token. */
  function Resolve(token: Response<TokenBody>, profile: string -> Response<ProfileBody>): (r: Result<Session, string>)
    ensures r.Success? <==> token.Responded? && token.body.success && token.body.user.Some?
    ensures r.Success? ==> r.value.valid == Some(true) && r.value.user.Some?
    ensures r.Success? && Refreshed(token.body.user.value, profile) ==>
      r.value.user == profile(ProfileKey(token.body.user.value)).body.data
    ensures r.Success? && !Refreshed(token.body.user.value, profile) ==> r.value.user == token.body.user
    ensures token.Failed? ==> r == Failure(OrElse(token.message, DefaultMessage(FetchUser)))
    ensures token.Responded? && !token.body.success ==> r == Failure(TokenInvalid)
    ensures token.Responded? && token.body.success && token.body.user.None? ==> r == Failure(UserMissing)
    ensures r.Failure? ==> r.error != ""
  {
    match token
    case Failed(m) => Failure(OrElse(m, DefaultMessage(FetchUser)))
    case Responded(body) =>
      if !body.success then Failure(TokenInvalid)
      else if body.user.None? then Failure(UserMissing)
      else
        var u := body.user.value;
        var key := ProfileKey(u);
        if key != "" && profile(key).Responded? && profile(key).body.success && profile(key).body.data.Some? then
          Success(Session(Some(true), profile(key).body.data))
        else
          Success(Session(Some(true), Some(u)))
  }

  /** The action the thunk dispatches when it settles: fulfilled with a
      valid session for the resolved user, or rejected with a message. */
  function Settle(token: Response<TokenBody>, profile: string -> Response<ProfileBody>): (a: Action)
    ensures a.UserFetched? || a.Rejected?
    ensures a.UserFetched? <==> token.Responded? && token.body.success && token.body.user.Some?
    ensures a.UserFetched? ==>
      a.session == Session(Some(true), Some(ResolvedUser(token.body.user.value, profile)))
    ensures a.Rejected? ==> a.failed == FetchUser && a.message != ""
    ensures a.Rejected? ==> Resolve(token, profile) == Failure(a.message)
  {
    match Resolve(token, profile)
    case Success(session) => UserFetched(session)
    case Failure(m) => Rejected(FetchUser, m)
  }

  /** The user `fetchUser` resolves to once the token names `u`. */
  function ResolvedUser(u: User, profile: string -> Response<ProfileBody>): User {
    if Refreshed(u, profile) then profile(ProfileKey(u)).body.data.value else u
  }

  /** End to end: a valid token logs its user in, the refreshed profile
      winning over the token's copy, and success is recorded; any other
      token answer records an error and keeps the session. */
  lemma FetchUserOutcome(s: State, token: Response<TokenBody>, profile: string -> Response<ProfileBody>)
    ensures var r := Dispatch(s, Settle(token, profile));
            token.Responded? && token.body.success && token.body.user.Some? ==>
              && r.isLoggedIn && r.isSuccess && !r.isLoading
              && r.userInfo == Some(ResolvedUser(token.body.user.value, profile))
              && (r.isAdmin <==> ResolvedUser(token.body.user.value, profile).role == AdminRole)
    ensures var r := Dispatch(s, Settle(token, profile));
            !(token.Responded? && token.body.success && token.body.user.Some?) ==>
              && r.isError && !r.isLoading && r.errorMessage != ""
              && SameSession(r, s) && r.isSuccess == s.isSuccess
  {
  }

  /** The thunk never yields the "valid call, no session" payload: whenever
      it fulfils, the fulfilled case logs someone in. */
  lemma SettledSessionLogsIn(token: Response<TokenBody>, profile: string -> Response<ProfileBody>)
    requires Settle(token, profile).UserFetched?
    ensures IsValid(Settle(token, profile).session) && Settle(token, profile).session.user.Some?
  {
  }

  /** A profile request that fails falls back to the token's user and still
      counts as a successful login. */
  lemma ProfileFailureFallsBack(s: State, u: User, profile: string -> Response<ProfileBody>)
    requires profile(ProfileKey(u)).Failed?
    ensures var r := Dispatch(s, Settle(Responded(TokenBody(true, Some(u))), profile));
            r.userInfo == Some(u) && r.isLoggedIn && r.isSuccess
  {
  }
}
