/**
 * The sign-up path end to end: the form calls the session store's `signup`,
 * whose fallback posts to the register route, which calls the same provider.
 */
module SignupFlow {
  import opened Wrappers
  import opened Strings
  import opened Http
  import opened Provider
  import opened SupabaseClient
  import AuthContext
  import AuthForm
  import RegisterRoute

  /** A network that delivers every register request to the route, served by the same client and provider. */
  function ToRegisterRoute(instance: Option<Client>, signUp: SignUpArgs -> Reply<AuthData>): JsonBody -> Transport {
    (body: JsonBody) => Delivered(RegisterRoute.Post(body, instance, signUp))
  }

  /** The form's `signup` bound to a client and a provider. */
  function BoundSignup(instance: Option<Client>, signUp: SignUpArgs -> Reply<AuthData>,
                       signIn: Credentials -> Reply<AuthData>): (String, String, String) -> AuthContext.AuthOutcome {
    (name: String, email: String, password: String) =>
      AuthContext.Signup(instance, name, email, password, signUp, ToRegisterRoute(instance, signUp), signIn)
  }

  /**
   * When the provider throttles sign-ups, the direct call falls back to the
   * register route, which is throttled too and answers 429; the form then
   * shows the route's message behind a warning sign.
   */
  lemma ThrottledSignupShowsWarning(s: AuthForm.State, instance: Option<Client>,
                                    signUp: SignUpArgs -> Reply<AuthData>, signIn: Credentials -> Reply<AuthData>,
                                    login: (String, String) -> AuthContext.AuthOutcome)
    requires !s.isLogin && instance.Some?
    requires RegisterRoute.PassesValidation(RegisterRequest(s.name, s.email, s.password))
    requires var reply := signUp(SignUpArgs(s.email, s.password, s.name, s.name));
             reply.Replied? && reply.error.Some? && IsRateLimited(reply.error.value.message)
    ensures var r := AuthForm.HandleSubmit(s, login, BoundSignup(instance, signUp, signIn));
      r.error == AuthForm.WarningPrefix + RegisterRoute.RateLimitMessage && r.success == ""
  {
    var body := RegisterRequest(s.name, s.email, s.password);
    var response := RegisterRoute.Post(body, instance, signUp);
    assert RegisterRoute.Validate(body).args == SignUpArgs(s.email, s.password, s.name, s.name);
    assert response == RegisterRoute.Response(429, RegisterRoute.Failure(RegisterRoute.RateLimitMessage, Some(RegisterRoute.RateLimitCode)));
    var fallback := RegisterUser(s.name, s.email, s.password, ToRegisterRoute(instance, signUp));
    assert !fallback.success && fallback.code == Some(AuthForm.RateLimitCode);
    assert fallback.error == Some(RegisterRoute.RateLimitMessage);
  }
}
