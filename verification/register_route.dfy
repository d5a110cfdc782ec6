/**
 * `POST /api/auth/register`: field validation (required, e-mail pattern,
 * password length), then a direct provider sign-up whose outcome is mapped
 * to an HTTP status and a short client-facing message.
 */
module RegisterRoute {
  import opened Wrappers
  import opened Strings
  import opened Http
  import opened Provider
  import opened Email

  /** The `user` object of a success body. */
  datatype UserView = UserView(id: String, email: String, name: String)

  /** The JSON body of a response: `{ error, code? }` or `{ message, user, needsConfirmation? }`. */
  datatype Body =
    | Failure(error: String, code: Option<String>)
    | Created(message: String, user: UserView, needsConfirmation: bool)
  {
    /** `result.error` as a client reads it. */
    function ErrorField(): Option<String> {
      if Failure? then Some(error) else None
    }

    /** `result.code` as a client reads it. */
    function CodeField(): Option<String> {
      if Failure? then code else None
    }

    function MessageField(): Option<String> {
      if Created? then Some(message) else None
    }

    function UserField(): Option<UserView> {
      if Created? then Some(user) else None
    }
  }

  datatype Response = Response(status: int, body: Body)

  const MinPasswordLength := 6

  const RequiredMessage := "Name, email, and password are required"
  const InvalidEmailMessage := "Please enter a valid email address"
  const ShortPasswordMessage := "Password must be at least 6 characters long"
  const RateLimitMessage := "Too many registration attempts. Please wait a few minutes and try again."
  const UserExistsMessage := "An account with this email already exists. Please try logging in instead."
  const FailedMessage := "Failed to create account. Please try again later."
  const InternalMessage := "Internal server error. Please try again."
  const ConfirmMessage := "Account created! Please check your email to confirm your account."
  const CreatedMessage := "Account created successfully!"

  const RateLimitCode := "RATE_LIMIT"
  const UserExistsCode := "USER_EXISTS"

  function BadRequest(message: String): Response {
    Response(400, Failure(message, None))
  }

  function Internal(): Response {
    Response(500, Failure(InternalMessage, None))
  }

  /** The three fields are present and non-empty. */
  predicate HasRequiredFields(body: JsonBody) {
    body.Object? && Truthy(Field(body, "name")) && Truthy(Field(body, "email")) && Truthy(Field(body, "password"))
  }

  /** Every check the route makes before it calls the provider passes. */
  predicate PassesValidation(body: JsonBody) {
    && HasRequiredFields(body)
    && IsValidEmail(body.fields["email"])
    && |body.fields["password"]| >= MinPasswordLength
  }

  /** The provider's message reports throttling. */
  predicate IsRateLimited(message: String) {
    Includes(message, "rate limit") || Includes(message, "429")
  }

  /** The provider's message reports an existing account. */
  predicate IsExistingAccount(message: String) {
    Includes(message, "already registered") || Includes(message, "already exists")
  }

  /** Either a response that ends the request, or the sign-up call to make. */
  datatype Verdict = Reject(response: Response) | Accept(args: SignUpArgs)

  /** The validation pipeline: required fields, then e-mail, then password length. */
  function Validate(body: JsonBody): (v: Verdict)
    ensures v.Accept? <==> PassesValidation(body)
    ensures v.Accept? ==>
      var name := body.fields["name"];
      v.args == SignUpArgs(body.fields["email"], body.fields["password"], name, name)
    ensures body.Malformed? ==> v == Reject(Internal())
    ensures body.Object? && !HasRequiredFields(body) ==> v == Reject(BadRequest(RequiredMessage))
    ensures HasRequiredFields(body) && !IsValidEmail(body.fields["email"]) ==>
      v == Reject(BadRequest(InvalidEmailMessage))
    ensures HasRequiredFields(body) && IsValidEmail(body.fields["email"]) && |body.fields["password"]| < MinPasswordLength ==>
      v == Reject(BadRequest(ShortPasswordMessage))
  {
    match body
    case Malformed => Reject(Internal())
    case Object(_) =>
      var name, email, password := Field(body, "name"), Field(body, "email"), Field(body, "password");
      if !Truthy(name) || !Truthy(email) || !Truthy(password) then Reject(BadRequest(RequiredMessage))
      else if !IsValidEmail(email.value) then Reject(BadRequest(InvalidEmailMessage))
      else if |password.value| < MinPasswordLength then Reject(BadRequest(ShortPasswordMessage))
      else Accept(SignUpArgs(email.value, password.value, name.value, name.value))
  }

  /** The name reported back: the metadata name when truthy, else the name the request sent. */
  function ReportedName(user: User, requested: String): (r: String)
    ensures Truthy(user.metadataName) ==> r == user.metadataName.value
    ensures !Truthy(user.metadataName) ==> r == requested
  {
    if Truthy(user.metadataName) then user.metadataName.value else requested
  }

  /**
   * Maps the provider's sign-up reply to the response: throttling (429,
   * `RATE_LIMIT`) before an existing account (400, `USER_EXISTS`) before any
   * other error (500); without error, a user gives 200 and a null user 500;
   * an exception 500.
   */
  function AfterSignUp(reply: Reply<AuthData>, requestedName: String): (r: Response)
    ensures reply.Threw? ==> r == Response(500, Failure(InternalMessage, None))
    ensures reply.Replied? && reply.error.Some? && IsRateLimited(reply.error.value.message) ==>
      r == Response(429, Failure(RateLimitMessage, Some(RateLimitCode)))
    ensures reply.Replied? && reply.error.Some? && !IsRateLimited(reply.error.value.message)
            && IsExistingAccount(reply.error.value.message) ==>
      r == Response(400, Failure(UserExistsMessage, Some(UserExistsCode)))
    ensures reply.Replied? && reply.error.Some? && !IsRateLimited(reply.error.value.message)
            && !IsExistingAccount(reply.error.value.message) ==>
      r == Response(500, Failure(FailedMessage, None))
    ensures reply.Replied? && reply.error.None? && reply.data.user.None? ==>
      r == Response(500, Failure(InternalMessage, None))
    ensures reply.Replied? && reply.error.None? && reply.data.user.Some? ==>
      var u := reply.data.user.value;
      var confirm := reply.data.session.None?;
      r == Response(200, Created(if confirm then ConfirmMessage else CreatedMessage,
                                 UserView(u.id, u.email, ReportedName(u, requestedName)), confirm))
    ensures r.status == 500 <==>
      reply.Threw? || (reply.error.Some? && !IsRateLimited(reply.error.value.message)
                        && !IsExistingAccount(reply.error.value.message))
      || (reply.error.None? && reply.data.user.None?)
    ensures r.body.Created? <==> r.status == 200
  {
    match reply
    case Threw => Internal()
    case Replied(data, Some(e)) =>
      if IsRateLimited(e.message) then Response(429, Failure(RateLimitMessage, Some(RateLimitCode)))
      else if IsExistingAccount(e.message) then Response(400, Failure(UserExistsMessage, Some(UserExistsCode)))
      else Response(500, Failure(FailedMessage, None))
    case Replied(data, None) =>
      match data.user
      // `data.user.id` on a null user throws; the route's catch answers 500.
      case None => Internal()
      case Some(u) =>
        var view := UserView(u.id, u.email, ReportedName(u, requestedName));
        if data.session.None? then Response(200, Created(ConfirmMessage, view, true))
        else Response(200, Created(CreatedMessage, view, false))
  }

  /**
   * The handler. `instance` is the exported SDK client (absent when it was
   * never created), `signUp` the provider's answer to each possible call.
   */
  function Post(body: JsonBody, instance: Option<Client>, signUp: SignUpArgs -> Reply<AuthData>): (r: Response)
    ensures !PassesValidation(body) ==> r.status in {400, 500} && r.body.Failure?
    ensures !PassesValidation(body) ==> r == Validate(body).response
    ensures PassesValidation(body) && instance.None? ==> r == Internal()
    ensures PassesValidation(body) && instance.Some? ==>
      r == AfterSignUp(signUp(Validate(body).args), body.fields["name"])
    ensures r.status == 500 <==>
      || body.Malformed?
      || (&& PassesValidation(body)
          && (|| instance.None?
              || var reply := signUp(Validate(body).args);
                 || reply.Threw?
                 || (reply.error.Some? && !IsRateLimited(reply.error.value.message)
                     && !IsExistingAccount(reply.error.value.message))
                 || (reply.error.None? && reply.data.user.None?)))
    ensures r.status == 429 ==> r.body == Failure(RateLimitMessage, Some(RateLimitCode))
    ensures r.body.CodeField() == Some(UserExistsCode) ==> r == Response(400, Failure(UserExistsMessage, Some(UserExistsCode)))
    ensures r.status == 429 <==>
      && PassesValidation(body) && instance.Some?
      && var reply := signUp(Validate(body).args);
         reply.Replied? && reply.error.Some? && IsRateLimited(reply.error.value.message)
    ensures r.body.CodeField() == Some(UserExistsCode) <==>
      && PassesValidation(body) && instance.Some?
      && var reply := signUp(Validate(body).args);
         && reply.Replied? && reply.error.Some?
         && !IsRateLimited(reply.error.value.message) && IsExistingAccount(reply.error.value.message)
    ensures r.body.Created? <==>
      && PassesValidation(body) && instance.Some?
      && var reply := signUp(Validate(body).args);
         reply.Replied? && reply.error.None? && reply.data.user.Some?
    ensures r.body.Created? ==>
      && r.status == 200
      && var reply := signUp(Validate(body).args);
         && r.body.needsConfirmation == reply.data.session.None?
         && r.body.user.id == reply.data.user.value.id
         && r.body.user.name == ReportedName(reply.data.user.value, body.fields["name"])
  {
    match Validate(body)
    case Reject(response) => response
    case Accept(args) =>
      if instance.None? then Internal()
      else AfterSignUp(signUp(args), args.name)
  }

  /** A request that fails validation never reaches the provider: its response does not depend on it. */
  lemma RejectedRequestSkipsProvider(body: JsonBody, instance: Option<Client>,
                                     signUp1: SignUpArgs -> Reply<AuthData>, signUp2: SignUpArgs -> Reply<AuthData>)
    requires !PassesValidation(body)
    ensures Post(body, instance, signUp1) == Post(body, instance, signUp2)
  {
  }

  /** A throttling message wins over an existing-account message. */
  lemma RateLimitTakesPrecedence(reply: Reply<AuthData>, name: String)
    requires reply.Replied? && reply.error.Some?
    requires IsRateLimited(reply.error.value.message) && IsExistingAccount(reply.error.value.message)
    ensures AfterSignUp(reply, name).status == 429
  {
  }
}
