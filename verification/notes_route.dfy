/**
 * `GET` and `POST /api/notes`: an `Authorization` header is required and
 * resolved to a provider user before anything else; the user's id, never
 * the request body, decides which rows are read or owned.
 */
module NotesRoute {
  import opened Wrappers
  import opened Strings
  import opened Http
  import opened Provider
  import Db

  /** `{ error }`, `{ notes }` or `{ note }`. */
  datatype Body = Failure(error: String) | NoteList(notes: seq<Db.Note>) | NoteCreated(note: Option<Db.Note>)

  datatype Response = Response(status: int, body: Body)

  const NoHeaderMessage := "No authorization header"
  const InvalidTokenMessage := "Invalid or expired token"
  const RequiredMessage := "Title and content are required"
  const FetchFailedMessage := "Failed to fetch notes"
  const CreateFailedMessage := "Failed to create note"
  const InternalMessage := "Internal server error"

  const BearerPrefix := "Bearer "

  function Internal(): Response {
    Response(500, Failure(InternalMessage))
  }

  /** `authHeader.replace('Bearer ', '')`: the leftmost `"Bearer "` is removed, wherever it is. */
  function BearerToken(header: String): (token: String)
    ensures !Contains(header, BearerPrefix) ==> token == header
    ensures Contains(header, BearerPrefix) ==>
      exists i :: FirstOccurrence(header, BearerPrefix, i) && token == header[..i] + header[i + |BearerPrefix|..]
    ensures |token| == |header| || |token| == |header| - |BearerPrefix|
  {
    ReplaceFirst(header, BearerPrefix, "")
  }

  /** The usual header form yields exactly the credential after the prefix, even when that credential repeats the prefix. */
  lemma BearerTokenOfPrefixedHeader(credential: String)
    ensures BearerToken(BearerPrefix + credential) == credential
  {
    ReplaceLeadingOccurrence(BearerPrefix, credential, "");
  }

  /** The outcome of the authentication step. */
  datatype Identity = Authenticated(user: User) | Denied(response: Response)

  /** Header check, then the provider's user lookup for the extracted token. */
  function Authenticate(header: Option<String>, instance: Option<Client>,
                        getUser: String -> Reply<Option<User>>): (a: Identity)
    ensures !Truthy(header) ==> a == Denied(Response(401, Failure(NoHeaderMessage)))
    ensures Truthy(header) && instance.None? ==> a == Denied(Internal())
    ensures Truthy(header) && instance.Some? ==>
      var reply := getUser(BearerToken(header.value));
      && (reply.Threw? ==> a == Denied(Internal()))
      && (reply.Replied? && (reply.error.Some? || reply.data.None?) ==>
            a == Denied(Response(401, Failure(InvalidTokenMessage))))
      && (reply.Replied? && reply.error.None? && reply.data.Some? ==> a == Authenticated(reply.data.value))
    ensures a.Denied? ==> a.response.status in {401, 500}
  {
    if !Truthy(header) then Denied(Response(401, Failure(NoHeaderMessage)))
    else if instance.None? then Denied(Internal())
    else
      match getUser(BearerToken(header.value))
      case Threw => Denied(Internal())
      case Replied(user, error) =>
        if error.Some? || user.None? then Denied(Response(401, Failure(InvalidTokenMessage)))
        else Authenticated(user.value)
  }

  /** The select `GET` sends: the user's rows, newest `updated_at` first. */
  function OwnNotesQuery(userId: String): (q: Db.Select)
    ensures q.filter == Db.Eq(Db.UserId, userId) && q.order == Db.UpdatedAtDescending
  {
    Db.Select(Db.Eq(Db.UserId, userId), Db.UpdatedAtDescending)
  }

  /** `GET /api/notes`. */
  function Get(header: Option<String>, instance: Option<Client>, getUser: String -> Reply<Option<User>>,
               select: Db.Select -> Db.Answer<seq<Db.Note>>): (r: Response)
    ensures Authenticate(header, instance, getUser).Denied? ==> r == Authenticate(header, instance, getUser).response
    ensures Authenticate(header, instance, getUser).Authenticated? ==>
      var answer := select(OwnNotesQuery(Authenticate(header, instance, getUser).user.id));
      && (answer.Raised? ==> r == Internal())
      && (answer.Answered? && answer.error.Some? ==> r == Response(500, Failure(FetchFailedMessage)))
      && (answer.Answered? && answer.error.None? ==> r == Response(200, NoteList(answer.data.GetOr([]))))
    ensures r.body.Failure? ==> r.body.error in {NoHeaderMessage, InvalidTokenMessage, FetchFailedMessage, InternalMessage}
  {
    match Authenticate(header, instance, getUser)
    case Denied(response) => response
    case Authenticated(user) =>
      match select(OwnNotesQuery(user.id))
      case Raised => Internal()
      case Answered(notes, error) =>
        if error.Some? then Response(500, Failure(FetchFailedMessage))
        else Response(200, NoteList(notes.GetOr([])))
  }

  /** Against a correctly answering database, `GET` lists exactly the caller's notes, newest first. */
  lemma GetListsOwnNotesNewestFirst(header: Option<String>, instance: Option<Client>,
                                    getUser: String -> Reply<Option<User>>, table: seq<Db.Note>)
    requires Authenticate(header, instance, getUser).Authenticated?
    ensures var r := Get(header, instance, getUser, Db.Serve(table));
      var owner := Authenticate(header, instance, getUser).user.id;
      && r.status == 200 && r.body.NoteList?
      && (forall n :: n in r.body.notes ==> n.userId == owner)
      && Db.NewestFirst(r.body.notes)
      && multiset(r.body.notes) == multiset(Db.Where(table, Db.Eq(Db.UserId, owner)))
  {
  }

  predicate HasTitleAndContent(body: JsonBody) {
    body.Object? && Truthy(Field(body, "title")) && Truthy(Field(body, "content"))
  }

  /** The row `POST` inserts for `owner`: only title and content come from the body. */
  function NewRow(owner: User, body: JsonBody): (row: Db.NewNote)
    requires HasTitleAndContent(body)
    ensures row.userId == owner.id
    ensures row.title == body.fields["title"] && row.content == body.fields["content"]
  {
    Db.NewNote(owner.id, body.fields["title"], body.fields["content"])
  }

  /** `POST /api/notes`. */
  function Post(header: Option<String>, instance: Option<Client>, getUser: String -> Reply<Option<User>>,
                body: JsonBody, insert: Db.NewNote -> Db.Answer<Db.Note>): (r: Response)
    ensures Authenticate(header, instance, getUser).Denied? ==> r == Authenticate(header, instance, getUser).response
    ensures Authenticate(header, instance, getUser).Authenticated? ==>
      && (body.Malformed? ==> r == Internal())
      && (body.Object? && !HasTitleAndContent(body) ==> r == Response(400, Failure(RequiredMessage)))
      && (HasTitleAndContent(body) ==>
            var answer := insert(NewRow(Authenticate(header, instance, getUser).user, body));
            && (answer.Raised? ==> r == Internal())
            && (answer.Answered? && answer.error.Some? ==> r == Response(500, Failure(CreateFailedMessage)))
            && (answer.Answered? && answer.error.None? ==> r == Response(200, NoteCreated(answer.data))))
    ensures r.body.Failure? ==>
      r.body.error in {NoHeaderMessage, InvalidTokenMessage, RequiredMessage, CreateFailedMessage, InternalMessage}
  {
    match Authenticate(header, instance, getUser)
    case Denied(response) => response
    case Authenticated(user) =>
      match body
      case Malformed => Internal()
      case Object(_) =>
        if !HasTitleAndContent(body) then Response(400, Failure(RequiredMessage))
        else
          match insert(NewRow(user, body))
          case Raised => Internal()
          case Answered(note, error) =>
            if error.Some? then Response(500, Failure(CreateFailedMessage))
            else Response(200, NoteCreated(note))
  }

  /** Authentication comes first: a denied request's answer depends neither on its body nor on the database. */
  lemma PostAuthenticatesBeforeReadingBody(header: Option<String>, instance: Option<Client>,
                                           getUser: String -> Reply<Option<User>>,
                                           body1: JsonBody, body2: JsonBody,
                                           insert1: Db.NewNote -> Db.Answer<Db.Note>, insert2: Db.NewNote -> Db.Answer<Db.Note>)
    requires Authenticate(header, instance, getUser).Denied?
    ensures Post(header, instance, getUser, body1, insert1) == Post(header, instance, getUser, body2, insert2)
  {
  }

  /** The created note belongs to the token's user even when the body names another owner. */
  lemma PostOwnerComesFromToken(header: Option<String>, instance: Option<Client>,
                                getUser: String -> Reply<Option<User>>, body: JsonBody, id: String, now: int)
    requires Authenticate(header, instance, getUser).Authenticated?
    requires HasTitleAndContent(body) && "user_id" in body.fields
    ensures var r := Post(header, instance, getUser, body, Db.Store(id, now));
      && r.body.NoteCreated? && r.body.note.Some?
      && r.body.note.value.userId == Authenticate(header, instance, getUser).user.id
      && r.body.note.value.title == body.fields["title"]
  {
  }
}
