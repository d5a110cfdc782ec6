/**
 * The `notes` table and the queries the application sends to it, with a
 * reference semantics for selects (filter, then newest `updated_at` first)
 * used to state what a correctly answered query returns.
 */
module Db {
  import opened Wrappers
  import opened Strings

  /** A row of `notes`; timestamps are opaque ordered integers. */
  datatype Note = Note(id: String, userId: String, title: String, content: String, createdAt: int, updatedAt: int)

  /** The row an insert sends; id and timestamps are assigned by the database. */
  datatype NewNote = NewNote(userId: String, title: String, content: String)

  /** The columns an update sends. */
  datatype Patch = Patch(title: String, content: String, updatedAt: int)

  datatype Column = Id | UserId

  /** `.eq(column, value)`. */
  datatype Filter = Eq(column: Column, value: String)

  datatype Order = AsStored | UpdatedAtDescending

  /** `.select('*')` with one filter and an optional `.order('updated_at', { ascending: false })`. */
  datatype Select = Select(filter: Filter, order: Order)

  datatype DbError = DbError(code: String, message: String)

  /** What a query builder resolved to: `{ data, error }`, or an exception. */
  datatype Answer<T> = Answered(data: Option<T>, error: Option<DbError>) | Raised

  predicate Matches(f: Filter, n: Note) {
    match f.column
    case Id => n.id == f.value
    case UserId => n.userId == f.value
  }

  /** The rows of `table` the filter keeps, in table order. */
  function Where(table: seq<Note>, f: Filter): (r: seq<Note>)
    ensures forall n :: n in r ==> Matches(f, n)
    ensures forall n :: multiset(r)[n] == (if Matches(f, n) then multiset(table)[n] else 0)
  {
    if table == [] then []
    else
      var rest := Where(table[1..], f);
      assert table == [table[0]] + table[1..];
      if Matches(f, table[0]) then [table[0]] + rest else rest
  }

  ghost predicate NewestFirst(s: seq<Note>) {
    forall i, j :: 0 <= i < j < |s| ==> s[i].updatedAt >= s[j].updatedAt
  }

  function InsertNewestFirst(n: Note, s: seq<Note>): (r: seq<Note>)
    requires NewestFirst(s)
    ensures NewestFirst(r)
    ensures multiset(r) == multiset(s) + multiset{n}
    ensures |r| == |s| + 1
    ensures r[0] == n || (s != [] && r[0] == s[0])
  {
    if s == [] || n.updatedAt >= s[0].updatedAt then [n] + s
    else
      var t := InsertNewestFirst(n, s[1..]);
      assert s == [s[0]] + s[1..];
      [s[0]] + t
  }

  /** Orders rows by `updated_at`, newest first. */
  function SortNewestFirst(s: seq<Note>): (r: seq<Note>)
    ensures NewestFirst(r)
    ensures multiset(r) == multiset(s)
  {
    if s == [] then []
    else
      assert s == [s[0]] + s[1..];
      InsertNewestFirst(s[0], SortNewestFirst(s[1..]))
  }

  /** Reference semantics of a select against `table`. */
  function Run(table: seq<Note>, q: Select): (r: seq<Note>)
    ensures forall n :: n in r ==> Matches(q.filter, n)
    ensures multiset(r) == multiset(Where(table, q.filter))
    ensures q.order == UpdatedAtDescending ==> NewestFirst(r)
  {
    var rows := Where(table, q.filter);
    match q.order
    case AsStored => rows
    case UpdatedAtDescending => SortNewestFirst(rows)
  }

  /** PostgREST's code for a `.single()` select that did not match exactly one row. */
  const NotExactlyOneRow := "PGRST116"

  /**
   * A database that answers every `.single()` select correctly from `table`:
   * the one matching row, or no data and a `PGRST116` error.
   */
  function ServeOne(table: seq<Note>): Select -> Answer<Note> {
    q =>
      var rows := Run(table, q);
      if |rows| == 1 then Answered(Some(rows[0]), None)
      else Answered(None, Some(DbError(NotExactlyOneRow, "JSON object requested, multiple (or no) rows returned")))
  }

  /** A database that stores each inserted row as given, with id `id` and both timestamps `now`. */
  function Store(id: String, now: int): NewNote -> Answer<Note> {
    (row: NewNote) => Answered(Some(Note(id, row.userId, row.title, row.content, now, now)), None)
  }

  /** The row after an update writes the patch's columns; id, owner and creation time stay. */
  function Patched(n: Note, patch: Patch): (r: Note)
    ensures r.id == n.id && r.userId == n.userId && r.createdAt == n.createdAt
    ensures r.title == patch.title && r.content == patch.content && r.updatedAt == patch.updatedAt
  {
    n.(title := patch.title, content := patch.content, updatedAt := patch.updatedAt)
  }

  /**
   * A database that answers every `.update(...).eq(...).select().single()`
   * correctly from `table`: the one matching row as patched, or no data and a
   * `PGRST116` error.
   */
  function ServeUpdate(table: seq<Note>): (Filter, Patch) -> Answer<Note> {
    (f: Filter, patch: Patch) =>
      var rows := Where(table, f);
      if |rows| == 1 then Answered(Some(Patched(rows[0], patch)), None)
      else Answered(None, Some(DbError(NotExactlyOneRow, "JSON object requested, multiple (or no) rows returned")))
  }

  /** A database that answers every select correctly from `table`. */
  function Serve(table: seq<Note>): Select -> Answer<seq<Note>> {
    q => Answered(Some(Run(table, q)), None)
  }
}
