/** The `user` slice: the current session (`userInfo`, `isLoggedIn`,
    `isAdmin`), four transient flags, and one case reducer per action. */
module UserSlice {
  import opened Base

  /** A user record as the server sends it. `id` and `dbId` are its `id` and
      `_id` fields, "" when missing; `role` decides `isAdmin`. */
  datatype User = User(id: string, dbId: string, userName: string, email: string, role: string)

  datatype State = State(
    userInfo: Option<User>,
    isLoggedIn: bool,
    isAdmin: bool,
    isLoading: bool,
    isSuccess: bool,
    isError: bool,
    errorMessage: string)

  const Initial := State(None, false, false, false, false, false, "")

  /** The role that makes a user an administrator. */
  const AdminRole := "admin"

  /** The asynchronous operations of the slice. */
  datatype Thunk = LoginUser | RegisterUser | LogoutUser | FetchUser | UpdateUserProfile

  /** A login or register response `{success, message, data: {user}}`:
      `success` is the truthiness of its flag, `user` is `data?.user`. */
  datatype AuthBody = AuthBody(success: bool, user: Option<User>)

  /** A profile response `{success, message, data}`. */
  datatype ProfileBody = ProfileBody(success: bool, data: Option<User>)

  /** The `{valid, user}` value `fetchUser` fulfils with; `valid` is `None`
      when the field is undefined. */
  datatype Session = Session(valid: Option<bool>, user: Option<User>)

  /** `None` in a payload position is a `null`/`undefined` payload; the
      rejection message is "" when the payload is falsy. */
  datatype Action =
    | Pending(thunk: Thunk)
    | Rejected(failed: Thunk, message: string)
    | LoggedIn(login: Option<AuthBody>)
    | Registered(registration: Option<AuthBody>)
    | LoggedOut
    | UserFetched(session: Session)
    | ProfileUpdated(profile: Option<ProfileBody>)
    | ClearState
    | ClearUserState

  /** The message recorded when a rejection of `t` carries none. */
  function DefaultMessage(t: Thunk): (m: string)
    ensures m != ""
  {
    match t
    case LoginUser => "Giriş başarısız."
    case RegisterUser => "Registration failed."
    case LogoutUser => "Çıkış yapılamadı."
    case FetchUser => "Kullanıcı bilgileri alınamadı."
    case UpdateUserProfile => "Profil güncellenemedi."
  }

  /** The session fields agree between two states. */
  predicate SameSession(a: State, b: State) {
    a.userInfo == b.userInfo && a.isLoggedIn == b.isLoggedIn && a.isAdmin == b.isAdmin
  }

  /** The invariant every reducer keeps: whoever is logged in, or flagged as
      administrator, has a user record. Being an administrator does not
      imply being logged in. */
  predicate Consistent(s: State) {
    (s.isLoggedIn ==> s.userInfo.Some?) && (s.isAdmin ==> s.userInfo.Some?)
  }

  /** Every pending case: loading, and nothing else changes; in particular a
      previous error stays recorded. */
  function PendingCase(s: State): (r: State)
    ensures r.isLoading && SameSession(r, s)
    ensures r.isSuccess == s.isSuccess && r.isError == s.isError && r.errorMessage == s.errorMessage
  {
    s.(isLoading := true)
  }

  /** Every rejected case: the error is recorded with a non-empty message and
      the session is kept. */
  function RejectedCase(s: State, message: string, fallback: string): (r: State)
    requires fallback != ""
    ensures !r.isLoading && r.isError && r.errorMessage != ""
    ensures message != "" ==> r.errorMessage == message
    ensures message == "" ==> r.errorMessage == fallback
    ensures SameSession(r, s) && r.isSuccess == s.isSuccess
  {
    s.(isLoading := false, isError := true, errorMessage := OrElse(message, fallback))
  }

  /** A user becomes the current user; `isAdmin` follows the role. */
  function SignIn(s: State, u: User): (r: State)
    ensures r.userInfo == Some(u) && r.isLoggedIn
    ensures r.isAdmin <==> u.role == AdminRole
    ensures Consistent(r)
    ensures r.isLoading == s.isLoading && r.isSuccess == s.isSuccess
    ensures r.isError == s.isError && r.errorMessage == s.errorMessage
  {
    s.(userInfo := Some(u), isAdmin := u.role == AdminRole, isLoggedIn := true)
  }

  /** The login and register fulfilled cases. Without `success` and a user
      only `isLoggedIn` drops: the previous `userInfo` and `isAdmin` stay. */
  function AuthCase(s: State, body: Option<AuthBody>): (r: Reduced<State>)
    ensures r.Threw? <==> body.None?
    ensures r.Next? ==> r.state.isSuccess && !r.state.isLoading
    ensures r.Next? ==> r.state.isError == s.isError && r.state.errorMessage == s.errorMessage
    ensures r.Next? && body.value.success && body.value.user.Some? ==>
      && r.state.userInfo == body.value.user
      && r.state.isLoggedIn
      && (r.state.isAdmin <==> body.value.user.value.role == AdminRole)
    ensures r.Next? && !(body.value.success && body.value.user.Some?) ==>
      !r.state.isLoggedIn && r.state.userInfo == s.userInfo && r.state.isAdmin == s.isAdmin
  {
    match body
    case None => Threw
    case Some(b) =>
      var s' := if b.success && b.user.Some? then SignIn(s, b.user.value) else s.(isLoggedIn := false);
      Next(s'.(isLoading := false, isSuccess := true))
  }

  /** The logout fulfilled case: the session is wiped and success recorded. */
  function LoggedOutCase(s: State): (r: State)
    ensures r.userInfo.None? && !r.isLoggedIn && !r.isAdmin
    ensures r.isSuccess && !r.isLoading
    ensures r.isError == s.isError && r.errorMessage == s.errorMessage
  {
    s.(isLoading := false, isSuccess := true, userInfo := None, isLoggedIn := false, isAdmin := false)
  }

  /** `valid !== false`: only an explicit `false` marks a session invalid;
      an undefined `valid` counts as valid. */
  predicate IsValid(session: Session)
    ensures session.valid.None? ==> IsValid(session)
    ensures session.valid == Some(true) ==> IsValid(session)
    ensures session.valid == Some(false) ==> !IsValid(session)
  {
    session.valid != Some(false)
  }

  /** The `fetchUser` fulfilled case. Without a valid session both session
      flags drop but `userInfo` stays. */
  function UserFetchedCase(s: State, session: Session): (r: State)
    ensures r.isSuccess && !r.isLoading
    ensures r.isError == s.isError && r.errorMessage == s.errorMessage
    ensures IsValid(session) && session.user.Some? ==>
      && r.userInfo == session.user
      && r.isLoggedIn
      && (r.isAdmin <==> session.user.value.role == AdminRole)
    ensures !(IsValid(session) && session.user.Some?) ==>
      !r.isLoggedIn && !r.isAdmin && r.userInfo == s.userInfo
  {
    var s' := if IsValid(session) && session.user.Some? then SignIn(s, session.user.value)
              else s.(isLoggedIn := false, isAdmin := false);
    s'.(isLoading := false, isSuccess := true)
  }

  /** The `updateUserProfile` fulfilled case: `userInfo` is replaced only by a
      successful response with data; the session flags never change. */
  function ProfileUpdatedCase(s: State, body: Option<ProfileBody>): (r: Reduced<State>)
    ensures r.Threw? <==> body.None?
    ensures r.Next? ==> r.state.isSuccess && !r.state.isLoading
    ensures r.Next? ==> r.state.isLoggedIn == s.isLoggedIn && r.state.isAdmin == s.isAdmin
    ensures r.Next? ==> r.state.isError == s.isError && r.state.errorMessage == s.errorMessage
    ensures r.Next? && body.value.success && body.value.data.Some? ==> r.state.userInfo == body.value.data
    ensures r.Next? && !(body.value.success && body.value.data.Some?) ==> r.state.userInfo == s.userInfo
  {
    match body
    case None => Threw
    case Some(b) =>
      var s' := if b.success && b.data.Some? then s.(userInfo := b.data) else s;
      Next(s'.(isLoading := false, isSuccess := true))
  }

  /** The local `clearState`: only the transient flags are reset. */
  function ClearFlags(s: State): (r: State)
    ensures SameSession(r, s)
    ensures !r.isLoading && !r.isSuccess && !r.isError && r.errorMessage == ""
  {
    s.(isLoading := false, isSuccess := false, isError := false, errorMessage := "")
  }

  /** The slice reducer: dispatches each action to its case. Only a `null`
      login, register or profile payload throws; the flag actions keep the
      session, and no case breaks its consistency. */
  function Reduce(s: State, a: Action): (r: Reduced<State>)
    ensures r.Threw? <==>
      || (a.LoggedIn? && a.login.None?)
      || (a.Registered? && a.registration.None?)
      || (a.ProfileUpdated? && a.profile.None?)
    ensures (a.Pending? || a.Rejected? || a.ClearState?) ==> r.Next? && SameSession(r.state, s)
    ensures r.Next? && Consistent(s) ==> Consistent(r.state)
  {
    match a
    case Pending(_) => Next(PendingCase(s))
    case Rejected(t, m) => Next(RejectedCase(s, m, DefaultMessage(t)))
    case LoggedIn(b) => AuthCase(s, b)
    case Registered(b) => AuthCase(s, b)
    case LoggedOut => Next(LoggedOutCase(s))
    case UserFetched(session) => Next(UserFetchedCase(s, session))
    case ProfileUpdated(b) => ProfileUpdatedCase(s, b)
    case ClearState => Next(ClearFlags(s))
    case ClearUserState => Next(Initial)
  }

  /** The store's state after dispatching `a`. */
  function Dispatch(s: State, a: Action): State {
    Commit(s, Reduce(s, a))
  }

  /** The store's state after dispatching every action of `trace` in order. */
  function Run(s: State, trace: seq<Action>): State
    decreases |trace|
  {
    if |trace| == 0 then s else Run(Dispatch(s, trace[0]), trace[1..])
  }

  /** Every action keeps the session consistent. */
  lemma ConsistentStep(s: State, a: Action)
    requires Consistent(s)
    ensures Consistent(Dispatch(s, a))
  {
  }

  /** Every state the store reaches from a consistent state, `Initial`
      among them, is consistent. */
  lemma {:induction false} ConsistentRun(s: State, trace: seq<Action>)
    requires Consistent(s)
    ensures Consistent(Run(s, trace))
    decreases |trace|
  {
    if |trace| > 0 {
      ConsistentStep(s, trace[0]);
      ConsistentRun(Dispatch(s, trace[0]), trace[1..]);
    }
  }

  /** `isAdmin` can outlive `isLoggedIn`: an administrator's login followed
      by a login answered without a user leaves the administrator flag set. */
  lemma AdminWithoutLogin(admin: User)
    requires admin.role == AdminRole
    ensures var s := Dispatch(Dispatch(Initial, LoggedIn(Some(AuthBody(true, Some(admin))))),
                              LoggedIn(Some(AuthBody(true, None))));
            s.isAdmin && !s.isLoggedIn && s.userInfo == Some(admin)
  {
  }

  /** A login that fails and is retried successfully stays marked as failed:
      neither the pending nor the fulfilled case clears `isError`. */
  lemma RetryKeepsError(u: User)
    ensures var failed := Dispatch(Dispatch(Initial, Pending(LoginUser)), Rejected(LoginUser, ""));
            var s := Dispatch(Dispatch(failed, Pending(LoginUser)), LoggedIn(Some(AuthBody(true, Some(u)))));
            s.isLoggedIn && s.isSuccess && s.isError && s.errorMessage == DefaultMessage(LoginUser)
  {
  }

  /** Register and login share one fulfilled case. */
  lemma RegisterIsLogin(s: State, body: Option<AuthBody>)
    ensures Dispatch(s, Registered(body)) == Dispatch(s, LoggedIn(body))
  {
  }

  /** A valid `fetchUser` result with a user logs in exactly as login does. */
  lemma FetchLogsInLikeLogin(s: State, session: Session)
    requires IsValid(session) && session.user.Some?
    ensures Dispatch(s, UserFetched(session)) == Dispatch(s, LoggedIn(Some(AuthBody(true, session.user))))
  {
  }

  /** Dispatching the same login response twice is dispatching it once. */
  lemma LoginIdempotent(s: State, body: Option<AuthBody>)
    ensures Dispatch(Dispatch(s, LoggedIn(body)), LoggedIn(body)) == Dispatch(s, LoggedIn(body))
  {
  }

  /** `clearUserState` is a full wipe whatever the state; a logout followed
      by `clearState` reaches the same place, while `clearState` alone keeps
      the session. */
  lemma ClearReach(s: State)
    ensures Dispatch(s, ClearUserState) == Initial
    ensures Dispatch(Dispatch(s, LoggedOut), ClearState) == Initial
    ensures SameSession(Dispatch(s, ClearState), s)
  {
  }

  /** The administrator flag agrees with the role of the logged-in user. */
  predicate RoleAgrees(s: State) {
    s.isLoggedIn && s.userInfo.Some? ==> (s.isAdmin <==> s.userInfo.value.role == AdminRole)
  }

  /** Every action except a profile update keeps the administrator flag in
      line with the logged-in user's role. */
  lemma RoleAgreesStep(s: State, a: Action)
    requires RoleAgrees(s) && !a.ProfileUpdated?
    ensures RoleAgrees(Dispatch(s, a))
  {
  }

  /** A profile update does not recompute `isAdmin`: a logged-in
      administrator whose updated profile carries another role keeps the
      administrator flag. */
  lemma ProfileUpdateKeepsStaleAdmin(s: State, u: User)
    requires s.isLoggedIn && s.isAdmin && u.role != AdminRole
    ensures var r := Dispatch(s, ProfileUpdated(Some(ProfileBody(true, Some(u)))));
            r.isAdmin && r.isLoggedIn && r.userInfo == Some(u) && !RoleAgrees(r)
  {
  }
}
