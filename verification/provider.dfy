/**
 * The hosted authentication provider as this application sees it: its user
 * and session records, its error objects, and the `{ data, error }` pair (or
 * rejected promise) every SDK auth call produces. The provider itself is
 * never modelled; its replies are inputs.
 */
module Provider {
  import opened Wrappers
  import opened Strings

  /** A created SDK client; it exists only when the URL and key were configured. */
  datatype Client = Client(url: String, anonKey: String)

  /** A provider user: id, e-mail and the `name` stored in its user metadata. */
  datatype User = User(id: String, email: String, metadataName: Option<String>)

  datatype Session = Session(user: User, accessToken: String)

  /** `data` of sign-up and sign-in: either part may be `null`. */
  datatype AuthData = AuthData(user: Option<User>, session: Option<Session>)

  /** An auth error object: message, optional HTTP status, optional code. */
  datatype AuthError = AuthError(message: String, status: Option<int>, code: Option<String>)

  /** What an SDK call produced: its `{ data, error }` pair, or an exception. */
  datatype Reply<T> = Replied(data: T, error: Option<AuthError>) | Threw

  /** Arguments of `auth.signUp`: credentials plus `options.data.{name, display_name}`. */
  datatype SignUpArgs = SignUpArgs(email: String, password: String, name: String, displayName: String)

  /** Arguments of `auth.signInWithPassword`. */
  datatype Credentials = Credentials(email: String, password: String)
}
