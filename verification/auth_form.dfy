/**
 * The login / sign-up form as a record of component state: field edits,
 * mode switching, and the mapping from a `login` / `signup` outcome to the
 * error or success line the form shows.
 */
module AuthForm {
  import opened Wrappers
  import opened Strings
  import opened Http
  import opened AuthContext

  datatype Field = Name | Email | Password

  datatype State = State(isLogin: bool, name: String, email: String, password: String,
                         error: String, success: String, loading: bool)

  const WarningPrefix := "\U{26A0}\U{FE0F} "
  const CheckPrefix := "\U{2705} "
  const SignedUpMessage := "\U{2705} Account created successfully! You can now start using the app."
  const RateLimitCode := "RATE_LIMIT"

  function Initial(): State {
    State(true, "", "", "", "", "", false)
  }

  function Get(s: State, f: Field): String {
    match f
    case Name => s.name
    case Email => s.email
    case Password => s.password
  }

  /** `handleChange`: writes one field and clears both messages. */
  function HandleChange(s: State, f: Field, value: String): (r: State)
    ensures Get(r, f) == value
    ensures forall g :: g != f ==> Get(r, g) == Get(s, g)
    ensures r.error == "" && r.success == ""
    ensures r.isLogin == s.isLogin && r.loading == s.loading
  {
    match f
    case Name => s.(name := value, error := "", success := "")
    case Email => s.(email := value, error := "", success := "")
    case Password => s.(password := value, error := "", success := "")
  }

  /** `toggleMode`: the other mode, empty fields, no messages. */
  function ToggleMode(s: State): (r: State)
    ensures r.isLogin == !s.isLogin
    ensures forall f :: Get(r, f) == ""
    ensures r.error == "" && r.success == ""
    ensures r.loading == s.loading
  {
    s.(isLogin := !s.isLogin, name := "", email := "", password := "", error := "", success := "")
  }

  /** Toggling twice returns to the starting mode with a blank form. */
  lemma ToggleTwice(s: State)
    ensures ToggleMode(ToggleMode(s)) == ToggleMode(s).(isLogin := s.isLogin)
  {
  }

  /**
   * The messages a settled outcome produces from cleared messages. An
   * `undefined` error leaves the error line empty, as a falsy value renders nothing.
   */
  function Show(isLogin: bool, result: AuthOutcome): (r: (String, String))
    ensures !result.success && result.code == Some(RateLimitCode) ==>
      r == (WarningPrefix + Http.Show(result.error), "")
    ensures !result.success && result.code != Some(RateLimitCode) ==> r == (result.error.GetOr(""), "")
    ensures result.success && (result.needsConfirmation || result.needsLogin) ==>
      r == ("", CheckPrefix + Http.Show(result.message))
    ensures result.success && !result.needsConfirmation && !result.needsLogin ==>
      r == ("", if isLogin then "" else SignedUpMessage)
  {
    if !result.success then
      if result.code == Some(RateLimitCode) then (WarningPrefix + Http.Show(result.error), "")
      else (result.error.GetOr(""), "")
    else if result.needsConfirmation then ("", CheckPrefix + Http.Show(result.message))
    else if result.needsLogin then ("", CheckPrefix + Http.Show(result.message))
    else if !isLogin then ("", SignedUpMessage)
    else ("", "")
  }

  /**
   * `handleSubmit`: clears both messages, calls `login(email, password)` in
   * login mode or `signup(name, email, password)` otherwise, and shows the outcome.
   */
  function HandleSubmit(s: State, login: (String, String) -> AuthOutcome,
                        signup: (String, String, String) -> AuthOutcome): (r: State)
    ensures var result := if s.isLogin then login(s.email, s.password) else signup(s.name, s.email, s.password);
      (r.error, r.success) == Show(s.isLogin, result)
    ensures r.error == "" || r.success == ""
    ensures r.(error := s.error, success := s.success, loading := s.loading) == s && !r.loading
  {
    var result := if s.isLogin then login(s.email, s.password) else signup(s.name, s.email, s.password);
    var (error, success) := Show(s.isLogin, result);
    s.(error := error, success := success, loading := false)
  }

  /** In login mode the sign-up path is never taken, and the other way round. */
  lemma SubmitCallsOnlyTheModesOperation(s: State, login1: (String, String) -> AuthOutcome, login2: (String, String) -> AuthOutcome,
                                         signup1: (String, String, String) -> AuthOutcome,
                                         signup2: (String, String, String) -> AuthOutcome)
    requires if s.isLogin then login1(s.email, s.password) == login2(s.email, s.password)
             else signup1(s.name, s.email, s.password) == signup2(s.name, s.email, s.password)
    ensures HandleSubmit(s, login1, signup1) == HandleSubmit(s, login2, signup2)
  {
  }
}
