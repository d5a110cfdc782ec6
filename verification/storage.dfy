/**
 * `noteStorage`: the browser-side data access used by the dashboard. Every
 * failure (an error reply, an exception, a missing client) collapses to a
 * default value: `[]`, `null` or `false`. Only `getByUserId` filters by
 * owner; the other operations address a row by id alone.
 */
module NoteStorage {
  import opened Wrappers
  import opened Strings
  import opened Provider
  import opened Db

  /** The select `getByUserId` sends. */
  function UserNotesQuery(userId: String): (q: Select)
    ensures q.filter == Eq(UserId, userId) && q.order == UpdatedAtDescending
  {
    Select(Eq(UserId, userId), UpdatedAtDescending)
  }

  /** The filter `findById`, `update` and `delete` send: the id, and nothing about the owner. */
  function ByIdFilter(id: String): (f: Filter)
    ensures forall n: Note, owner: String :: Matches(f, n) == Matches(f, n.(userId := owner))
    ensures forall n: Note :: Matches(f, n) <==> n.id == id
  {
    Eq(Id, id)
  }

  /** `getByUserId(userId)`: the rows as answered, or `[]` on any failure or `null` data. */
  function GetByUserId(instance: Option<Client>, userId: String, select: Select -> Answer<seq<Note>>): (r: seq<Note>)
    ensures instance.None? ==> r == []
    ensures instance.Some? ==>
      var answer := select(UserNotesQuery(userId));
      if answer.Answered? && answer.error.None? && answer.data.Some? then r == answer.data.value else r == []
  {
    if instance.None? then []
    else
      match select(UserNotesQuery(userId))
      case Raised => []
      case Answered(data, error) => if error.Some? then [] else data.GetOr([])
  }

  /** Against a correctly answering database, `getByUserId` returns exactly the user's rows, newest first. */
  lemma GetByUserIdReturnsOwnRowsNewestFirst(c: Client, userId: String, table: seq<Note>)
    ensures var r := GetByUserId(Some(c), userId, Serve(table));
      && (forall n :: n in r ==> n.userId == userId)
      && NewestFirst(r)
      && multiset(r) == multiset(Where(table, Eq(UserId, userId)))
  {
  }

  /** `findById(id)`: a `PGRST116` error counts as no error and the (null) data is returned; other failures give `null`. */
  function FindById(instance: Option<Client>, id: String, single: Select -> Answer<Note>): (r: Option<Note>)
    ensures instance.None? ==> r.None?
    ensures instance.Some? ==>
      var answer := single(Select(ByIdFilter(id), AsStored));
      && (answer.Raised? ==> r.None?)
      && (answer.Answered? && answer.error.Some? && answer.error.value.code != NotExactlyOneRow ==> r.None?)
      && (answer.Answered? && (answer.error.None? || answer.error.value.code == NotExactlyOneRow) ==> r == answer.data)
  {
    if instance.None? then None
    else
      match single(Select(ByIdFilter(id), AsStored))
      case Raised => None
      case Answered(data, error) =>
        if error.Some? && error.value.code != NotExactlyOneRow then None else data
  }

  /** A row is found by id whoever owns it: `findById` makes no ownership check. */
  lemma FindByIdIgnoresOwner(c: Client, table: seq<Note>, n: Note)
    requires Where(table, Eq(Id, n.id)) == [n]
    ensures FindById(Some(c), n.id, ServeOne(table)) == Some(n)
  {
  }

  /** A missing id is `null`, not an error. */
  lemma FindByIdMissingIsNull(c: Client, table: seq<Note>, id: String)
    requires Where(table, Eq(Id, id)) == []
    ensures FindById(Some(c), id, ServeOne(table)) == None
  {
  }

  /** `create(note)`: the inserted row on success, `null` on any failure. */
  function Create(instance: Option<Client>, note: NewNote, insert: NewNote -> Answer<Note>): (r: Option<Note>)
    ensures r.Some? ==> instance.Some? && insert(note).Answered? && insert(note).error.None? && r == insert(note).data
    ensures instance.Some? && insert(note).Answered? && insert(note).error.None? ==> r == insert(note).data
  {
    if instance.None? then None
    else
      match insert(note)
      case Raised => None
      case Answered(data, error) => if error.Some? then None else data
  }

  /** Against a database that stores the row, the created note is the one sent, under the database's id. */
  lemma CreateReturnsTheStoredNote(c: Client, note: NewNote, id: String, now: int)
    ensures var r := Create(Some(c), note, Store(id, now));
      && r.Some?
      && r.value.id == id
      && r.value.userId == note.userId && r.value.title == note.title && r.value.content == note.content
  {
  }

  /** `update(id, updates)`: the updated row on success, `null` on any failure. */
  function Update(instance: Option<Client>, id: String, patch: Patch, update: (Filter, Patch) -> Answer<Note>): (r: Option<Note>)
    ensures r.Some? ==>
      instance.Some? && update(ByIdFilter(id), patch).Answered? && update(ByIdFilter(id), patch).error.None?
      && r == update(ByIdFilter(id), patch).data
    ensures instance.Some? && update(ByIdFilter(id), patch).Answered? && update(ByIdFilter(id), patch).error.None? ==>
      r == update(ByIdFilter(id), patch).data
  {
    if instance.None? then None
    else
      match update(ByIdFilter(id), patch)
      case Raised => None
      case Answered(data, error) => if error.Some? then None else data
  }

  /** A row is updated by id whoever owns it: `update` makes no ownership check. */
  lemma UpdateIgnoresOwner(c: Client, table: seq<Note>, n: Note, patch: Patch)
    requires Where(table, Eq(Id, n.id)) == [n]
    ensures Update(Some(c), n.id, patch, ServeUpdate(table)) == Some(Patched(n, patch))
  {
  }

  /** Updating a missing id is `null`: the `.single()` error is not excused as in `findById`. */
  lemma UpdateOfMissingRowIsNull(c: Client, table: seq<Note>, id: String, patch: Patch)
    requires Where(table, Eq(Id, id)) == []
    ensures Update(Some(c), id, patch, ServeUpdate(table)) == None
  {
  }

  /** `delete(id)`: true exactly when the database reported no error; whether a row went away is not checked. */
  function Delete(instance: Option<Client>, id: String, delete: Filter -> Answer<()>): (r: bool)
    ensures r <==> instance.Some? && delete(ByIdFilter(id)).Answered? && delete(ByIdFilter(id)).error.None?
  {
    if instance.None? then false
    else
      match delete(ByIdFilter(id))
      case Raised => false
      case Answered(_, error) => error.None?
  }

  /** A delete that matched no row still reports success. */
  lemma DeleteOfMissingRowSucceeds(c: Client, id: String)
    ensures Delete(Some(c), id, (f: Filter) => Answered(None, None))
  {
  }
}
