/**
 * The two ways to log in, side by side: the session store's `login` and the
 * `POST /api/auth/login` route both go through the coded `signIn` helper.
 */
module LoginFlow {
  import opened Wrappers
  import opened Strings
  import opened Http
  import opened Provider
  import AuthContext
  import LoginRoute

  /** The request body the route receives for these credentials. */
  function CredentialsBody(email: String, password: String): (b: JsonBody)
    ensures b.Object? && Field(b, "email") == Some(email) && Field(b, "password") == Some(password)
  {
    Object(map["email" := email, "password" := password])
  }

  /**
   * For non-empty credentials, `login` succeeds exactly when the route
   * answers 200, and when it fails the route answers 401 with the very
   * message `login` reports.
   */
  lemma LoginAgreesWithRoute(instance: Option<Client>, email: String, password: String,
                             signIn: Credentials -> Reply<AuthData>)
    requires email != [] && password != []
    ensures var outcome := AuthContext.Login(instance, email, password, signIn);
      var response := LoginRoute.Post(CredentialsBody(email, password), instance, signIn);
      && (outcome.success <==> response.status == 200)
      && (!outcome.success ==> response == LoginRoute.Response(401, LoginRoute.Failure(outcome.error.value)))
  {
  }
}
