/**
 * The `auth` helpers wrapped around the SDK client: lazy client creation,
 * `ensureSupabase`, and sign-up / sign-in / register / sign-out /
 * current-user, which turn provider messages and exceptions into coded errors.
 */
module SupabaseClient {
  import opened Wrappers
  import opened Strings
  import opened Http
  import opened Provider
  import RegisterRoute

  /** How a call that may throw ended. */
  datatype Completion<T> = Normal(value: T) | Abrupt

  /** `{ data, error }` as the helpers return it; either part may be `null`. */
  datatype AuthResult = AuthResult(data: Option<AuthData>, error: Option<AuthError>)

  const RateLimitExceeded := "RATE_LIMIT_EXCEEDED"
  const ServerErrorCode := "SERVER_ERROR"
  const NetworkErrorCode := "NETWORK_ERROR"

  const SignUpRateLimitMessage := "Too many signup attempts. Please wait a few minutes and try again."
  const SignInRateLimitMessage := "Too many login attempts. Please wait a few minutes and try again."
  const ServerErrorMessage := "Server error. Please check your Supabase configuration or try the alternative signup method."
  const NetworkErrorMessage := "Network error. Please check your connection and try again."

  /** Module initialisation: a client exists only when both settings are truthy and creation did not throw. */
  function CreateInstance(url: Option<String>, anonKey: Option<String>, createThrows: bool): (r: Option<Client>)
    ensures r.Some? <==> Truthy(url) && Truthy(anonKey) && !createThrows
    ensures r.Some? ==> r.value.url == url.value && r.value.anonKey == anonKey.value
  {
    if Truthy(url) && Truthy(anonKey) && !createThrows then Some(Client(url.value, anonKey.value)) else None
  }

  /** `ensureSupabase()`: the client when it was created, otherwise an exception. */
  function EnsureSupabase(instance: Option<Client>): (r: Completion<Client>)
    ensures r.Normal? <==> instance.Some?
    ensures r.Normal? ==> r.value == instance.value
  {
    match instance
    case Some(c) => Normal(c)
    case None => Abrupt
  }

  /** The message reports throttling (`'429'` or `'rate limit'`). */
  predicate IsRateLimited(message: String) {
    Includes(message, "429") || Includes(message, "rate limit")
  }

  /** The error reports a provider-side fault: status 500 or `'500'` in the message. */
  predicate IsServerFault(e: AuthError) {
    e.status == Some(500) || Includes(e.message, "500")
  }

  function Coded(message: String, code: String): AuthError {
    AuthError(message, None, Some(code))
  }

  /** What every exception inside sign-up or sign-in becomes. */
  function NetworkFailure(): AuthResult {
    AuthResult(None, Some(Coded(NetworkErrorMessage, NetworkErrorCode)))
  }

  /** `auth.signUp(email, password, name)`; the name goes into the user metadata twice. */
  function SignUp(instance: Option<Client>, email: String, password: String, name: String,
                  signUp: SignUpArgs -> Reply<AuthData>): (r: AuthResult)
    ensures r.error.None? ==> r.data.Some?
    ensures instance.None? ==> r == NetworkFailure()
    ensures instance.Some? ==>
      var reply := signUp(SignUpArgs(email, password, name, name));
      && (reply.Threw? ==> r == NetworkFailure())
      && (reply.Replied? && reply.error.None? ==> r == AuthResult(Some(reply.data), None))
      && (reply.Replied? && reply.error.Some? ==>
            var e := reply.error.value;
            && (IsRateLimited(e.message) ==> r == AuthResult(None, Some(Coded(SignUpRateLimitMessage, RateLimitExceeded))))
            && (!IsRateLimited(e.message) && IsServerFault(e) ==> r == AuthResult(None, Some(Coded(ServerErrorMessage, ServerErrorCode))))
            && (!IsRateLimited(e.message) && !IsServerFault(e) ==> r == AuthResult(Some(reply.data), Some(e))))
  {
    match EnsureSupabase(instance)
    case Abrupt => NetworkFailure()
    case Normal(_) =>
      match signUp(SignUpArgs(email, password, name, name))
      case Threw => NetworkFailure()
      case Replied(data, None) => AuthResult(Some(data), None)
      case Replied(data, Some(e)) =>
        if IsRateLimited(e.message) then AuthResult(None, Some(Coded(SignUpRateLimitMessage, RateLimitExceeded)))
        else if IsServerFault(e) then AuthResult(None, Some(Coded(ServerErrorMessage, ServerErrorCode)))
        else AuthResult(Some(data), Some(e))
  }

  /** `auth.signIn(email, password)`: like sign-up, but with no server-fault branch. */
  function SignIn(instance: Option<Client>, email: String, password: String,
                  signIn: Credentials -> Reply<AuthData>): (r: AuthResult)
    ensures r.error.None? ==> r.data.Some?
    ensures r.error.Some? && r.error.value.code == Some(ServerErrorCode) ==>
      instance.Some? && signIn(Credentials(email, password)).Replied? && signIn(Credentials(email, password)).error == r.error
    ensures instance.None? ==> r == NetworkFailure()
    ensures instance.Some? ==>
      var reply := signIn(Credentials(email, password));
      && (reply.Threw? ==> r == NetworkFailure())
      && (reply.Replied? && reply.error.None? ==> r == AuthResult(Some(reply.data), None))
      && (reply.Replied? && reply.error.Some? ==>
            var e := reply.error.value;
            && (IsRateLimited(e.message) ==> r == AuthResult(None, Some(Coded(SignInRateLimitMessage, RateLimitExceeded))))
            && (!IsRateLimited(e.message) ==> r == AuthResult(Some(reply.data), Some(e))))
  {
    match EnsureSupabase(instance)
    case Abrupt => NetworkFailure()
    case Normal(_) =>
      match signIn(Credentials(email, password))
      case Threw => NetworkFailure()
      case Replied(data, None) => AuthResult(Some(data), None)
      case Replied(data, Some(e)) =>
        if IsRateLimited(e.message) then AuthResult(None, Some(Coded(SignInRateLimitMessage, RateLimitExceeded)))
        else AuthResult(Some(data), Some(e))
  }

  /** What `fetch('/api/auth/register')` and `response.json()` produced. */
  datatype Transport = Delivered(response: RegisterRoute.Response) | TransportFailed

  /** The object `auth.registerUser` resolves to. */
  datatype RegisterResult = RegisterResult(
    success: bool, message: Option<String>, user: Option<RegisterRoute.UserView>,
    error: Option<String>, code: Option<String>)

  /** The JSON body `registerUser` posts. */
  function RegisterRequest(name: String, email: String, password: String): (b: JsonBody)
    ensures b.Object? && b.fields.Keys == {"name", "email", "password"}
    ensures Field(b, "name") == Some(name) && Field(b, "email") == Some(email) && Field(b, "password") == Some(password)
  {
    Object(map["name" := name, "email" := email, "password" := password])
  }

  /** `auth.registerUser(name, email, password)`: the register route as a fallback path. */
  function RegisterUser(name: String, email: String, password: String,
                        fetch: JsonBody -> Transport): (r: RegisterResult)
    ensures r.success <==>
      fetch(RegisterRequest(name, email, password)).Delivered? && IsOk(fetch(RegisterRequest(name, email, password)).response.status)
    ensures fetch(RegisterRequest(name, email, password)).TransportFailed? ==>
      r == RegisterResult(false, None, None, Some(NetworkErrorMessage), Some(NetworkErrorCode))
    ensures fetch(RegisterRequest(name, email, password)).Delivered? ==>
      var body := fetch(RegisterRequest(name, email, password)).response.body;
      if r.success then r == RegisterResult(true, body.MessageField(), body.UserField(), None, None)
      else r == RegisterResult(false, None, None, body.ErrorField(), body.CodeField())
  {
    match fetch(RegisterRequest(name, email, password))
    case TransportFailed => RegisterResult(false, None, None, Some(NetworkErrorMessage), Some(NetworkErrorCode))
    case Delivered(response) =>
      if !IsOk(response.status) then
        RegisterResult(false, None, None, response.body.ErrorField(), response.body.CodeField())
      else
        RegisterResult(true, response.body.MessageField(), response.body.UserField(), None, None)
  }

  /** `auth.signOut()`: no catch, so a missing client or a provider exception reaches the caller. */
  function SignOut(instance: Option<Client>, reply: Reply<()>): (r: Completion<Option<AuthError>>)
    ensures r.Abrupt? <==> instance.None? || reply.Threw?
    ensures r.Normal? ==> r.value == reply.error
  {
    match EnsureSupabase(instance)
    case Abrupt => Abrupt
    case Normal(_) =>
      match reply
      case Threw => Abrupt
      case Replied(_, error) => Normal(error)
  }

  /** `{ user, error }` of `auth.getCurrentUser()`. */
  datatype CurrentUser = CurrentUser(user: Option<User>, error: Option<AuthError>)

  /** `auth.getCurrentUser()`: no catch either. */
  function GetCurrentUser(instance: Option<Client>, reply: Reply<Option<User>>): (r: Completion<CurrentUser>)
    ensures r.Abrupt? <==> instance.None? || reply.Threw?
    ensures r.Normal? ==> r.value.user == reply.data && r.value.error == reply.error
  {
    match EnsureSupabase(instance)
    case Abrupt => Abrupt
    case Normal(_) =>
      match reply
      case Threw => Abrupt
      case Replied(user, error) => Normal(CurrentUser(user, error))
  }

  /** `auth.onAuthStateChange(callback)`: subscribing needs a client. */
  function OnAuthStateChange(instance: Option<Client>): (r: Completion<()>)
    ensures r.Normal? <==> instance.Some?
  {
    match EnsureSupabase(instance)
    case Abrupt => Abrupt
    case Normal(_) => Normal(())
  }

  /** A message mentioning both throttling and a server fault is classified as throttling. */
  lemma RateLimitBeforeServerFault(instance: Option<Client>, email: String, password: String, name: String,
                                   signUp: SignUpArgs -> Reply<AuthData>)
    requires instance.Some?
    requires signUp(SignUpArgs(email, password, name, name)).Replied?
    requires signUp(SignUpArgs(email, password, name, name)).error.Some?
    requires var e := signUp(SignUpArgs(email, password, name, name)).error.value;
             IsRateLimited(e.message) && IsServerFault(e)
    ensures SignUp(instance, email, password, name, signUp).error.value.code == Some(RateLimitExceeded)
  {
  }
}
