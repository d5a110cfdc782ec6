# mojo-notes: the decision logic between the UI and the hosted backend

mojo-notes is a small multi-user notes application. Users register and log in, then create, list, edit, search and delete their own notes. Authentication and storage belong to a hosted backend (Supabase: an auth service plus a Postgres `notes` table). The repository's own logic is the thin layer between that backend and the user:

- the HTTP route handlers for register, login and notes;
- the `auth` helpers that turn provider messages and exceptions into coded errors;
- the session store, with its two-tier sign-up fallback;
- the `noteStorage` data-access wrapper;
- the state transitions of the notes dashboard and the login/sign-up form.

This project models that layer in Dafny. Every provider call is a parameter. An SDK call is a function from its arguments to a `Reply` (`Replied(data, error)` or `Threw`). A database call is a function from the query sent to an `Answer` (`Answered(data, error)` or `Raised`). Because of this, "the route sends exactly this query" and "the provider is never reached" can both be stated. The second takes the form "the response does not depend on that parameter". The exported SDK client is `Option<Client>`: absent when it was never created. The register and notes routes and `noteStorage` dereference it directly, so a missing client is an exception their `catch` turns into a failure. The `auth` helpers go through `ensureSupabase`, and so does the login route, which calls `auth.signIn`: there a missing client becomes a `NETWORK_ERROR`.

Modules, one per source file plus shared ones:

| module | file | models |
|---|---|---|
| `Wrappers` | wrappers.dfy | `null`/`undefined` as `Option` |
| `Strings` | strings.dfy | `includes`, first-occurrence `replace`, ASCII `toLowerCase` and `trim` |
| `Email` | email.dfy | the register route's e-mail regular expression |
| `Http` | http.dfy | request bodies, truthiness, `response.ok` |
| `Provider` | provider.dfy | auth-provider records and replies |
| `Db` | db.dfy | the `notes` row, the queries sent, and a reference semantics for selects |
| `RegisterRoute` | register_route.dfy | `src/app/api/auth/register/route.js` |
| `LoginRoute` | login_route.dfy | `src/app/api/auth/login/route.js` |
| `NotesRoute` | notes_route.dfy | `src/app/api/notes/route.js` |
| `SupabaseClient` | supabase_client.dfy | `src/lib/supabase.js` |
| `AuthContext` | auth_context.dfy | `src/contexts/AuthContext.js` |
| `NoteStorage` | storage.dfy | `src/lib/storage.js` |
| `NotesDashboard` | notes_dashboard.dfy | `src/components/NotesDashboard.js` |
| `AuthForm` | auth_form.dfy | `src/components/AuthForm.js` |
| `SignupFlow` | signup_flow.dfy | the sign-up path across form, session store, client and register route |
| `LoginFlow` | login_flow.dfy | the session store's `login` beside the login route |

`Db.Run` is not code of the repository. It is a reference for what a correct database returns for a select: the filtered rows, newest `updated_at` first. It is used only to state what the issued queries mean. `Db.ServeOne` plays the same role for `.single()`, `Db.ServeUpdate` for an update followed by `.single()`, and `Db.Store` for an insert.

## Model

| member | source | states |
|---|---|---|
| `Email.IsValidEmailMatchesPattern` | src/app/api/auth/register/route.js:16-22 | the e-mail check accepts a string iff it matches `^[^\s@]+@[^\s@]+\.[^\s@]+$`: no white space, exactly one `@` with something before it, and a `.` in the domain with a character on each side |
| `Email.PatternExamples` | src/app/api/auth/register/route.js:16-17 | `a@b.c` passes; a second `@`, a space, a domain without a dot, or an empty local part each fail |
| `Strings.Includes` | src/lib/supabase.js:55 | `includes` holds iff the pattern occurs at some index |
| `Strings.ReplaceFirst` | src/app/api/notes/route.js:17 | `replace` with a string pattern removes only the leftmost occurrence; a string without the pattern is returned unchanged |
| `Strings.ReplaceLeadingOccurrence` | src/app/api/notes/route.js:65 | a string that starts with the pattern loses exactly that prefix |
| `Strings.Trim` | src/components/NotesDashboard.js:40 | `trim()` is the string with a blank prefix and a blank suffix cut off; it is empty iff the string is all white space, and otherwise starts and ends with a non-space |
| `RegisterRoute.Validate` | src/app/api/auth/register/route.js:6-30 | checks run required → e-mail → password, each with its own 400 message; a malformed body gives 500; the provider call is made iff all pass, with the request's name as both metadata fields; length 6 passes and length 5 does not |
| `RegisterRoute.ReportedName` | src/app/api/auth/register/route.js:79 | the reported name is the metadata name when truthy, else the requested name |
| `RegisterRoute.AfterSignUp` | src/app/api/auth/register/route.js:44-101 | throttling gives 429 with code `RATE_LIMIT` and its message, ahead of an existing account, which gives 400 with `USER_EXISTS`; any other provider error gives 500 `Failed to create account…`; without error a user gives 200 with the confirmation or the created message, `needsConfirmation` iff there is no session, and the metadata name or the requested one; a null user or an exception gives 500 `Internal server error…`; status 500 holds exactly in those three cases |
| `RegisterRoute.Post` | src/app/api/auth/register/route.js:4-102 | a request that fails validation gets the validation response; otherwise a missing client gives 500 and a present one the mapped provider reply for the validated arguments; 500 holds iff the body is malformed or a valid request meets a missing client, an exception, an unclassified error or a null user; a 429 always carries `RATE_LIMIT` and its message; `USER_EXISTS` iff a non-throttling already-exists error, always with 400; a success body iff a user came back without error, with `needsConfirmation` iff no session |
| `RegisterRoute.RejectedRequestSkipsProvider` | src/app/api/auth/register/route.js:8-33 | a request that fails validation gets the same response whatever the provider would do |
| `RegisterRoute.RateLimitTakesPrecedence` | src/app/api/auth/register/route.js:45-63 | a message that is both throttling and already-exists is answered 429 |
| `SupabaseClient.CreateInstance` | src/lib/supabase.js:8-20 | a client exists iff URL and key are both truthy and creation did not throw |
| `SupabaseClient.EnsureSupabase` | src/lib/supabase.js:24-29 | returns the client iff it was created, otherwise throws |
| `SupabaseClient.SignUp` | src/lib/supabase.js:38-90 | throttling messages become `RATE_LIMIT_EXCEEDED`, ahead of the status-500/`'500'` check that gives `SERVER_ERROR`; other errors pass through with the provider's data; every exception, a missing client included, becomes `NETWORK_ERROR` with null data; data and error are never both null |
| `SupabaseClient.SignIn` | src/lib/supabase.js:127-158 | throttling becomes `RATE_LIMIT_EXCEEDED`; there is no server-fault branch, so a `SERVER_ERROR` code can only come from the provider itself; exceptions become `NETWORK_ERROR` |
| `SupabaseClient.RateLimitBeforeServerFault` | src/lib/supabase.js:55-74 | an error that is both throttling and a server fault is coded `RATE_LIMIT_EXCEEDED` |
| `SupabaseClient.RegisterRequest` | src/lib/supabase.js:95-101 | the posted body has exactly the fields name, email and password |
| `SupabaseClient.RegisterUser` | src/lib/supabase.js:93-125 | success iff the route's response is ok (2xx); on failure exactly the route's `error` and `code`, with no message or user; on success exactly its `message` and `user`, with no error or code; a transport failure gives `NETWORK_ERROR` |
| `SupabaseClient.SignOut` | src/lib/supabase.js:160-163 | throws iff the client is missing or the provider throws; otherwise yields the provider's error |
| `SupabaseClient.GetCurrentUser` | src/lib/supabase.js:165-168 | throws iff the client is missing or the provider throws; otherwise yields the provider's user and error |
| `SupabaseClient.OnAuthStateChange` | src/lib/supabase.js:170-173 | subscribing succeeds iff the client exists |
| `AuthContext.Login` | src/contexts/AuthContext.js:31-43 | success iff sign-in returned no error; a failure carries the error's message and no code |
| `AuthContext.AfterFallback` | src/contexts/AuthContext.js:58-79 | a failed registration passes on its error and code; after a successful one the outcome is exactly `{ success: true, message }` or `{ success: true, message, needsLogin: true }`: `needsLogin` holds iff the sign-in did not give data without error, the message follows it, and there is no error, code or `needsConfirmation` |
| `AuthContext.Signup` | src/contexts/AuthContext.js:45-102 | the fallback is taken exactly on `RATE_LIMIT_EXCEEDED` or `SERVER_ERROR`; otherwise an error containing `User already registered` gives `USER_EXISTS` and any other gives its message with no code; without error, `needsConfirmation` iff a user came back without a session, and then the message is `Please check your email to confirm your account before logging in.` |
| `AuthContext.FallbackOnlyOnThrottleOrFault` | src/contexts/AuthContext.js:54-56 | when the direct sign-up did not fail with a fallback code, the outcome does not depend on the register route or on sign-in |
| `AuthContext.MissingClientDoesNotFallBack` | src/contexts/AuthContext.js:48-90 | with no client, sign-up fails, and it consults neither the register route nor sign-in |
| `AuthContext.Logout` | src/contexts/AuthContext.js:130-136 | logout always completes normally |
| `AuthContext.InitialSession` | src/contexts/AuthContext.js:14-18 | the first lookup sets the user and ends loading; a lookup that throws changes nothing |
| `AuthContext.OnAuthEvent` | src/contexts/AuthContext.js:23-26 | after an event the user is the session's user or none, so `isAuthenticated` holds iff the event carried a session; loading ends |
| `AuthContext.EventForgetsEarlierState` | src/contexts/AuthContext.js:23-26 | the state after an event depends on that event alone |
| `LoginRoute.Post` | src/app/api/auth/login/route.js:4-37 | a missing or empty field gives 400, and only that gives 400; any sign-in error gives 401 with that error's message; success gives 200 with `Login successful` and the user; a malformed body gives 500 |
| `LoginRoute.ThrottledLoginIsUnauthorized` | src/app/api/auth/login/route.js:17-24 | a throttled sign-in is answered 401, not 429, with the coded throttling message |
| `LoginRoute.MissingClientLoginIsUnauthorized` | src/app/api/auth/login/route.js:17-24 | with no client the route answers 401 with the network-error message |
| `LoginFlow.LoginAgreesWithRoute` | src/contexts/AuthContext.js:31-43 | for non-empty credentials, `login` succeeds iff the login route answers 200 on them, and a failed `login` reports the message of the route's 401 |
| `NotesRoute.BearerToken` | src/app/api/notes/route.js:17 | the token is the header with its leftmost `Bearer ` removed, wherever it occurs; a header without it is used as is |
| `NotesRoute.BearerTokenOfPrefixedHeader` | src/app/api/notes/route.js:17 | `Bearer <credential>` yields exactly the credential, even one that itself starts with `Bearer ` |
| `NotesRoute.Authenticate` | src/app/api/notes/route.js:8-25 | a missing or empty header gives 401 `No authorization header`; a lookup error or absent user gives 401 `Invalid or expired token`; a lookup exception or missing client gives 500 |
| `NotesRoute.OwnNotesQuery` | src/app/api/notes/route.js:28-32 | the select filters on `user_id` and orders by `updated_at` descending |
| `NotesRoute.Get` | src/app/api/notes/route.js:5-50 | a denied request gets the authentication response; a database error gives 500 `Failed to fetch notes`; null data is listed as `[]`; error bodies are only the fixed messages |
| `NotesRoute.GetListsOwnNotesNewestFirst` | src/app/api/notes/route.js:28-41 | against a correct database the listed notes are exactly the caller's rows, newest first |
| `NotesRoute.NewRow` | src/app/api/notes/route.js:87-91 | the inserted row's owner is the token's user; only title and content come from the body |
| `NotesRoute.Post` | src/app/api/notes/route.js:53-111 | authentication first; then a malformed body gives 500 and a missing title or content gives 400; a database error gives 500 `Failed to create note`; error bodies are only the fixed messages |
| `NotesRoute.PostAuthenticatesBeforeReadingBody` | src/app/api/notes/route.js:56-75 | a denied request's answer depends neither on its body nor on the database |
| `NotesRoute.PostOwnerComesFromToken` | src/app/api/notes/route.js:75-91 | a body naming a `user_id` still creates a note owned by the token's user |
| `Db.Where` | src/lib/storage.js:11 | `.eq` keeps exactly the matching rows, with their multiplicities |
| `Db.SortNewestFirst` | src/lib/storage.js:12 | `.order('updated_at', { ascending: false })` gives a permutation ordered newest first |
| `Db.Run` | src/lib/storage.js:9-12 | a select returns only matching rows, a permutation of all of them, newest first when ordered |
| `NoteStorage.UserNotesQuery` | src/lib/storage.js:8-12 | the select filters on `user_id` and orders by `updated_at` descending |
| `NoteStorage.ByIdFilter` | src/lib/storage.js:24-27 | the id filter matches a row iff its id is equal, whoever owns the row |
| `NoteStorage.GetByUserId` | src/lib/storage.js:6-20 | the answered rows on success; `[]` on an error, an exception, null data or a missing client |
| `NoteStorage.GetByUserIdReturnsOwnRowsNewestFirst` | src/lib/storage.js:8-15 | against a correct database the result is exactly the user's rows, newest first |
| `NoteStorage.FindById` | src/lib/storage.js:22-36 | a `PGRST116` error counts as no error and the data is returned; any other failure gives null |
| `NoteStorage.FindByIdIgnoresOwner` | src/lib/storage.js:24-31 | a row is found by id whoever owns it |
| `NoteStorage.FindByIdMissingIsNull` | src/lib/storage.js:30-31 | an id with no row gives null, not an error |
| `NoteStorage.Create` | src/lib/storage.js:38-63 | the inserted row on success; null on any failure |
| `NoteStorage.CreateReturnsTheStoredNote` | src/lib/storage.js:41-52 | against a database that stores the row, the result is the note sent, with its owner, title and content, under the database's id |
| `NoteStorage.Update` | src/lib/storage.js:65-80 | the updated row on success, filtered by id only; null on any failure |
| `NoteStorage.UpdateIgnoresOwner` | src/lib/storage.js:67-75 | against a correct database the row with that id is updated whoever owns it: id, owner and creation time kept, the patched columns written |
| `NoteStorage.UpdateOfMissingRowIsNull` | src/lib/storage.js:67-78 | an id with no row makes `.single()` fail, and unlike `findById` that gives null |
| `Db.Patched` | src/lib/storage.js:69 | an update writes title, content and `updated_at` and keeps id, owner and creation time |
| `NoteStorage.Delete` | src/lib/storage.js:82-95 | true iff the database reported no error, filtered by id only |
| `NoteStorage.DeleteOfMissingRowSucceeds` | src/lib/storage.js:84-90 | a delete that removed nothing still reports true |
| `NotesDashboard.FilteredNotes` | src/components/NotesDashboard.js:118-121 | a note is kept iff its lower-cased title or content contains the lower-cased term, as often as it occurs in the list; the result keeps list order |
| `NotesDashboard.EmptySearchKeepsAll` | src/components/NotesDashboard.js:118-121 | an empty term keeps every note |
| `NotesDashboard.SearchIsIdempotent` | src/components/NotesDashboard.js:118-121 | filtering the filtered list with the same term changes nothing |
| `NotesDashboard.SearchIgnoresCase` | src/components/NotesDashboard.js:118-121 | terms equal up to case select the same notes |
| `NotesDashboard.SearchWithLoweredTerm` | src/components/NotesDashboard.js:118-121 | lower-casing the term before searching changes nothing, since the search lower-cases it anyway |
| `Strings.LowerIdempotent` | src/components/NotesDashboard.js:119-120 | lower-casing twice is lower-casing once |
| `NotesDashboard.Visible` | src/components/NotesDashboard.js:118-121 | the shown list is the notes matching the current search term, each as often as in the list, in list order |
| `NotesDashboard.IsComplete` | src/components/NotesDashboard.js:40 | the form is complete iff neither field is all white space |
| `NotesDashboard.FetchNotes` | src/components/NotesDashboard.js:17-30 | without a user nothing changes; with one, only the list and the loading flag change |
| `NotesDashboard.SaveEdit` | src/components/NotesDashboard.js:47-63 | updates the edited note's id with the untrimmed form text; a saved note empties and closes the form, clears editing and error, and reloads the list; a failed update keeps the form and sets `Failed to update note` |
| `NotesDashboard.SaveNew` | src/components/NotesDashboard.js:64-81 | creates a note owned by the current user with the untrimmed text; a created note empties and closes the form and reloads the list; a failure sets `Failed to create note`; with no user, the thrown `user.id` sets the generic error |
| `NotesDashboard.HandleSubmit` | src/components/NotesDashboard.js:38-88 | a form with an all-white-space title or content only sets `Please fill in all fields`; otherwise an edit in progress is saved by update and anything else by create |
| `NotesDashboard.IncompleteFormSkipsStorage` | src/components/NotesDashboard.js:40-43 | with a blank title or content the outcome does not depend on storage |
| `NotesDashboard.EditThenSaveUpdatesThatNote` | src/components/NotesDashboard.js:47-63 | saving a freshly edited note sends that note's id; a failed update keeps the edit open |
| `NotesDashboard.HandleEdit` | src/components/NotesDashboard.js:90-95 | loads the note's title and content, opens the form, clears the error, leaves the rest alone |
| `NotesDashboard.ResetForm` | src/components/NotesDashboard.js:123-128 | an empty closed form, nothing edited, no error, the rest unchanged |
| `NotesDashboard.CancelEditRestores` | src/components/NotesDashboard.js:90-128 | editing and then cancelling is the same as cancelling |
| `NotesDashboard.HandleDelete` | src/components/NotesDashboard.js:97-116 | a declined confirmation changes nothing; a failed delete sets `Failed to delete note`; a successful one reloads the list |
| `AuthForm.HandleChange` | src/components/AuthForm.js:21-28 | only the named field changes, and both messages are cleared |
| `AuthForm.ToggleMode` | src/components/AuthForm.js:77-82 | the mode flips, all fields become empty, both messages are cleared, and `loading` is untouched |
| `AuthForm.ToggleTwice` | src/components/AuthForm.js:77-82 | toggling twice restores the mode with a blank form |
| `AuthForm.Show` | src/components/AuthForm.js:44-69 | code `RATE_LIMIT` gets a warning prefix, and every other failure shows its error verbatim; `needsConfirmation` or `needsLogin` shows a check-marked message; a plain success shows the fixed text in sign-up mode and nothing in login mode |
| `AuthForm.HandleSubmit` | src/components/AuthForm.js:30-75 | calls login with the e-mail and password in login mode, otherwise signup with name, e-mail and password; shows the outcome; never shows both messages; fields and mode unchanged |
| `AuthForm.SubmitCallsOnlyTheModesOperation` | src/components/AuthForm.js:37-42 | the outcome depends only on the current mode's operation |
| `SignupFlow.ThrottledSignupShowsWarning` | src/contexts/AuthContext.js:54-79 | a throttled provider makes the direct sign-up fall back to the register route; the route answers 429, and the form shows its message behind the warning sign |

## Left out

- Supabase itself is not modelled: its auth service, sessions, row-level security, the `updated_at` trigger, id generation and `.single()`. Their answers are inputs. `Db.Run`, `Db.ServeOne`, `Db.ServeUpdate` and `Db.Store` serve only as references for what a correct answer is.
- React and the browser are not modelled: hooks and effects, the order of asynchronous steps, intermediate `loading` values, the `setTimeout` mode switches in the form, the `confirm()` dialog, `fetch`, and console logging. A confirmation answer and each storage result are parameters. Only each handler's final state is modelled.
- Exception messages are not modelled: `Completion.Abrupt` carries none, because callers only log them.
- `AuthContext.Signup`: the `catch` block of `signup` (src/contexts/AuthContext.js:103-127) is left out. It is unreachable, because `auth.signUp`, `auth.registerUser` and `auth.signIn` catch every exception. The `catch` of `login` is left out for the same reason.
- `NotesDashboard.HandleSubmit`: the `catch` branch is modelled only for a create with no signed-in user. There, `user.id` throws. The storage operations never throw.
- `AuthForm.HandleSubmit`: the `catch` of the form's `handleSubmit` (src/components/AuthForm.js:70-71, `An unexpected error occurred…`) is left out. It is unreachable, because `login` and `signup` never reject.
- `AuthForm.Show`: an `undefined` error is shown as the empty string. Both are falsy, so the form renders no error line for either.
- Provider data sent together with an error is carried through, but no caller reads it.
- JSON bodies are modelled as objects with string fields. Non-string values, such as a numeric `password`, are not modelled.
- Unicode is not modelled. `toLowerCase` and the `\s` class are ASCII. Lengths count `char`s, not UTF-16 code units.
- Timestamps are opaque ordered integers. Ties in `updated_at` may come back in any order from the database. The reference sort fixes one order.
- `src/app/api/notes/[id]/route.js`, the diagnostic/setup/fix pages, the UI kit components, `database/migrate.js` and `src/app/page.js` are not part of this model. They are rendering, I/O plumbing, or outside the modelled core.
