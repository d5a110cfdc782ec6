/**
 * The client-side session store: the signed-in user mirrored from provider
 * events, and `login` / `signup` / `logout` as the UI calls them. Sign-up is
 * an explicit two-tier fallback keyed by the error code of the direct call:
 * direct sign-up, then the register route followed by a sign-in, otherwise
 * the caller is told to log in by hand.
 */
module AuthContext {
  import opened Wrappers
  import opened Strings
  import opened Provider
  import opened SupabaseClient

  /** The object `login` and `signup` resolve to; absent fields are `None` / `false`. */
  datatype AuthOutcome = AuthOutcome(
    success: bool, message: Option<String>, error: Option<String>, code: Option<String>,
    needsConfirmation: bool, needsLogin: bool)

  const UserExistsCode := "USER_EXISTS"
  const UserExistsMessage := "An account with this email already exists. Please try logging in instead."
  const LoggedInMessage := "Account created and logged in successfully!"
  const PleaseLogInMessage := "Account created successfully! Please log in to continue."
  const ConfirmEmailMessage := "Please check your email to confirm your account before logging in."

  function Succeeded(): AuthOutcome {
    AuthOutcome(true, None, None, None, false, false)
  }

  function Failed(error: Option<String>, code: Option<String>): AuthOutcome {
    AuthOutcome(false, None, error, code, false, false)
  }

  /** `login(email, password)`. */
  function Login(instance: Option<Client>, email: String, password: String,
                 signIn: Credentials -> Reply<AuthData>): (r: AuthOutcome)
    ensures var res := SignIn(instance, email, password, signIn);
      && (r.success <==> res.error.None?)
      && (r.success ==> r == Succeeded())
      && (!r.success ==> r == Failed(Some(res.error.value.message), None))
  {
    var res := SignIn(instance, email, password, signIn);
    match res.error
    case Some(e) => Failed(Some(e.message), None)
    case None => Succeeded()
  }

  /** The direct sign-up failed in a way the register route may get around. */
  predicate TriggersFallback(e: AuthError) {
    e.code == Some(RateLimitExceeded) || e.code == Some(ServerErrorCode)
  }

  /** Second tier: the register route succeeded or not, then a sign-in decides the message. */
  function AfterFallback(fallback: RegisterResult, instance: Option<Client>, email: String, password: String,
                         signIn: Credentials -> Reply<AuthData>): (r: AuthOutcome)
    ensures r.success <==> fallback.success
    ensures !fallback.success ==> r == Failed(fallback.error, fallback.code)
    ensures fallback.success ==>
      var login := SignIn(instance, email, password, signIn);
      && r.needsLogin == !(login.data.Some? && login.error.None?)
      && r.message == Some(if r.needsLogin then PleaseLogInMessage else LoggedInMessage)
    ensures fallback.success ==>
      r == AuthOutcome(true, Some(if r.needsLogin then PleaseLogInMessage else LoggedInMessage), None, None, false, r.needsLogin)
  {
    if fallback.success then
      var login := SignIn(instance, email, password, signIn);
      if login.data.Some? && login.error.None? then AuthOutcome(true, Some(LoggedInMessage), None, None, false, false)
      else AuthOutcome(true, Some(PleaseLogInMessage), None, None, false, true)
    else Failed(fallback.error, fallback.code)
  }

  /** `signup(name, email, password)`. */
  function Signup(instance: Option<Client>, name: String, email: String, password: String,
                  signUp: SignUpArgs -> Reply<AuthData>, fetch: Http.JsonBody -> Transport,
                  signIn: Credentials -> Reply<AuthData>): (r: AuthOutcome)
    ensures var res := SignUp(instance, email, password, name, signUp);
      && (res.error.Some? && TriggersFallback(res.error.value) ==>
            r == AfterFallback(RegisterUser(name, email, password, fetch), instance, email, password, signIn))
      && (res.error.Some? && !TriggersFallback(res.error.value) ==>
            !r.success &&
            if Includes(res.error.value.message, "User already registered")
            then r == Failed(Some(UserExistsMessage), Some(UserExistsCode))
            else r == Failed(Some(res.error.value.message), None))
      && (res.error.None? ==>
            r.success && !r.needsLogin &&
            (r.needsConfirmation <==> res.data.value.user.Some? && res.data.value.session.None?) &&
            (r.needsConfirmation ==> r == AuthOutcome(true, Some(ConfirmEmailMessage), None, None, true, false)) &&
            (!r.needsConfirmation ==> r == Succeeded()))
  {
    var res := SignUp(instance, email, password, name, signUp);
    match res.error
    case Some(e) =>
      if TriggersFallback(e) then
        AfterFallback(RegisterUser(name, email, password, fetch), instance, email, password, signIn)
      else if Includes(e.message, "User already registered") then Failed(Some(UserExistsMessage), Some(UserExistsCode))
      else Failed(Some(e.message), None)
    case None =>
      var data := res.data.value;
      if data.user.Some? && data.session.None? then
        AuthOutcome(true, Some(ConfirmEmailMessage), None, None, true, false)
      else Succeeded()
  }

  /** The register route and the follow-up sign-in are consulted only after a throttled or faulted direct sign-up. */
  lemma FallbackOnlyOnThrottleOrFault(instance: Option<Client>, name: String, email: String, password: String,
                                      signUp: SignUpArgs -> Reply<AuthData>,
                                      fetch1: Http.JsonBody -> Transport, fetch2: Http.JsonBody -> Transport,
                                      signIn1: Credentials -> Reply<AuthData>, signIn2: Credentials -> Reply<AuthData>)
    requires var res := SignUp(instance, email, password, name, signUp);
             res.error.None? || !TriggersFallback(res.error.value)
    ensures Signup(instance, name, email, password, signUp, fetch1, signIn1)
         == Signup(instance, name, email, password, signUp, fetch2, signIn2)
  {
  }

  /**
   * Without a client the direct sign-up reports a network error, which is not
   * a fallback trigger: the sign-up fails and neither the register route nor
   * the follow-up sign-in is consulted.
   */
  lemma MissingClientDoesNotFallBack(name: String, email: String, password: String,
                                     signUp: SignUpArgs -> Reply<AuthData>,
                                     fetch1: Http.JsonBody -> Transport, fetch2: Http.JsonBody -> Transport,
                                     signIn1: Credentials -> Reply<AuthData>, signIn2: Credentials -> Reply<AuthData>)
    ensures !Signup(None, name, email, password, signUp, fetch1, signIn1).success
    ensures Signup(None, name, email, password, signUp, fetch1, signIn1)
         == Signup(None, name, email, password, signUp, fetch2, signIn2)
  {
    FallbackOnlyOnThrottleOrFault(None, name, email, password, signUp, fetch1, fetch2, signIn1, signIn2);
  }

  /** `logout()`: sign-out exceptions are caught, so it always completes. */
  function Logout(instance: Option<Client>, reply: Reply<()>): (r: Completion<()>)
    ensures r.Normal?
  {
    match SignOut(instance, reply)
    case Abrupt => Normal(())
    case Normal(_) => Normal(())
  }

  /** The provider's state: the signed-in user and whether the first lookup is still pending. */
  datatype AuthState = AuthState(user: Option<User>, loading: bool)

  function Initial(): AuthState {
    AuthState(None, true)
  }

  /** `isAuthenticated: !!user`. */
  predicate IsAuthenticated(s: AuthState) {
    s.user.Some?
  }

  /** The initial `getCurrentUser` lookup; when it throws the state stays as it was. */
  function InitialSession(s: AuthState, lookup: Completion<CurrentUser>): (r: AuthState)
    ensures lookup.Normal? ==> r.user == lookup.value.user && !r.loading
    ensures lookup.Abrupt? ==> r == s
  {
    match lookup
    case Normal(current) => AuthState(current.user, false)
    case Abrupt => s
  }

  /** The auth-state listener: every event replaces the user with the session's user, or none. */
  function OnAuthEvent(s: AuthState, session: Option<Session>): (r: AuthState)
    ensures !r.loading
    ensures IsAuthenticated(r) <==> session.Some?
    ensures session.Some? ==> r.user == Some(session.value.user)
  {
    AuthState(if session.Some? then Some(session.value.user) else None, false)
  }

  /** The listener keeps no memory: after an event the state depends on that event alone. */
  lemma EventForgetsEarlierState(s1: AuthState, s2: AuthState, session: Option<Session>)
    ensures OnAuthEvent(s1, session) == OnAuthEvent(s2, session)
  {
  }
}
