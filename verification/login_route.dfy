/** `POST /api/auth/login`: required fields, then the coded sign-in, then a status. */
module LoginRoute {
  import opened Wrappers
  import opened Strings
  import opened Http
  import opened Provider
  import opened SupabaseClient

  /** `{ error }` or `{ message, user }`. */
  datatype Body = Failure(error: String) | LoggedIn(message: String, user: Option<User>)

  datatype Response = Response(status: int, body: Body)

  const RequiredMessage := "Email and password are required"
  const LoginMessage := "Login successful"
  const InternalMessage := "Internal server error"

  predicate HasCredentials(body: JsonBody) {
    body.Object? && Truthy(Field(body, "email")) && Truthy(Field(body, "password"))
  }

  /** The handler; every sign-in error, whatever its kind, is a 401 carrying that error's message. */
  function Post(body: JsonBody, instance: Option<Client>, signIn: Credentials -> Reply<AuthData>): (r: Response)
    ensures body.Malformed? ==> r == Response(500, Failure(InternalMessage))
    ensures body.Object? && !HasCredentials(body) ==> r == Response(400, Failure(RequiredMessage))
    ensures r.status == 400 <==> body.Object? && !HasCredentials(body)
    ensures HasCredentials(body) ==>
      var res := SignIn(instance, body.fields["email"], body.fields["password"], signIn);
      && (res.error.Some? ==> r == Response(401, Failure(res.error.value.message)))
      && (res.error.None? ==> r == Response(200, LoggedIn(LoginMessage, res.data.value.user)))
  {
    match body
    case Malformed => Response(500, Failure(InternalMessage))
    case Object(_) =>
      var email, password := Field(body, "email"), Field(body, "password");
      if !Truthy(email) || !Truthy(password) then Response(400, Failure(RequiredMessage))
      else
        var res := SignIn(instance, email.value, password.value, signIn);
        match res.error
        case Some(e) => Response(401, Failure(e.message))
        case None => Response(200, LoggedIn(LoginMessage, res.data.value.user))
  }

  /** A throttled sign-in is reported as 401, not 429, with the coded throttling message. */
  lemma ThrottledLoginIsUnauthorized(body: JsonBody, instance: Option<Client>, signIn: Credentials -> Reply<AuthData>)
    requires HasCredentials(body) && instance.Some?
    requires var reply := signIn(Credentials(body.fields["email"], body.fields["password"]));
             reply.Replied? && reply.error.Some? && IsRateLimited(reply.error.value.message)
    ensures Post(body, instance, signIn) == Response(401, Failure(SignInRateLimitMessage))
  {
  }

  /** Without a client the route still answers 401, with the network-error message. */
  lemma MissingClientLoginIsUnauthorized(body: JsonBody, signIn: Credentials -> Reply<AuthData>)
    requires HasCredentials(body)
    ensures Post(body, None, signIn) == Response(401, Failure(NetworkErrorMessage))
  {
  }
}
