/**
 * The notes dashboard as a record of component state and the transitions
 * its handlers make. Storage calls are parameters standing for the
 * `noteStorage` operations (which never throw); the confirmation dialog's
 * answer and the clock are parameters too.
 */
module NotesDashboard {
  import opened Wrappers
  import opened Strings
  import opened Provider
  import Db

  datatype FormData = FormData(title: String, content: String)

  datatype State = State(
    notes: seq<Db.Note>, loading: bool, searchTerm: String, showForm: bool,
    editing: Option<Db.Note>, form: FormData, error: String)

  const FillInMessage := "Please fill in all fields"
  const UpdateFailedMessage := "Failed to update note"
  const CreateFailedMessage := "Failed to create note"
  const DeleteFailedMessage := "Failed to delete note"
  const UnexpectedMessage := "An error occurred. Please try again."

  function EmptyForm(): FormData {
    FormData("", "")
  }

  function Initial(): State {
    State([], false, "", false, None, EmptyForm(), "")
  }

  /** The search keeps a note when its title or content contains the term, ignoring case. */
  predicate IsMatch(n: Db.Note, term: String) {
    Includes(Lower(n.title), Lower(term)) || Includes(Lower(n.content), Lower(term))
  }

  /** `a` is `b` with some elements left out, the rest in their original order. */
  ghost predicate IsSubsequence(a: seq<Db.Note>, b: seq<Db.Note>)
    decreases |b|
  {
    if a == [] then true
    else if b == [] then false
    else (a[0] == b[0] && IsSubsequence(a[1..], b[1..])) || IsSubsequence(a, b[1..])
  }

  /** `filteredNotes`: the notes the search term selects, in list order. */
  function FilteredNotes(notes: seq<Db.Note>, term: String): (r: seq<Db.Note>)
    ensures forall n :: n in r <==> n in notes && IsMatch(n, term)
    ensures forall n :: multiset(r)[n] == if IsMatch(n, term) then multiset(notes)[n] else 0
    ensures IsSubsequence(r, notes)
    ensures |r| <= |notes|
  {
    if notes == [] then []
    else
      var rest := FilteredNotes(notes[1..], term);
      assert notes == [notes[0]] + notes[1..];
      if IsMatch(notes[0], term) then [notes[0]] + rest else rest
  }

  lemma EmptyPatternOccurs(s: String)
    ensures Includes(s, "")
  {
    assert OccursAt(s, "", 0);
  }

  /** An empty search shows every note. */
  lemma {:induction false} EmptySearchKeepsAll(notes: seq<Db.Note>)
    ensures FilteredNotes(notes, "") == notes
  {
    if notes != [] {
      EmptyPatternOccurs(Lower(notes[0].title));
      EmptySearchKeepsAll(notes[1..]);
    }
  }

  /** Searching the search results again with the same term changes nothing. */
  lemma {:induction false} SearchIsIdempotent(notes: seq<Db.Note>, term: String)
    ensures FilteredNotes(FilteredNotes(notes, term), term) == FilteredNotes(notes, term)
  {
    if notes != [] {
      SearchIsIdempotent(notes[1..], term);
    }
  }

  /** The search is case-insensitive: terms that agree after lower-casing select the same notes. */
  lemma {:induction false} SearchIgnoresCase(notes: seq<Db.Note>, term1: String, term2: String)
    requires Lower(term1) == Lower(term2)
    ensures FilteredNotes(notes, term1) == FilteredNotes(notes, term2)
  {
    if notes != [] {
      SearchIgnoresCase(notes[1..], term1, term2);
    }
  }

  /** Searching with the lower-cased term is the same search. */
  lemma SearchWithLoweredTerm(notes: seq<Db.Note>, term: String)
    ensures FilteredNotes(notes, Lower(term)) == FilteredNotes(notes, term)
  {
    LowerIdempotent(term);
    SearchIgnoresCase(notes, Lower(term), term);
  }

  /** Both fields have something besides white space (`formData.title.trim()` and `.content.trim()` are truthy). */
  predicate IsComplete(form: FormData)
    ensures IsComplete(form) <==> !IsBlank(form.title) && !IsBlank(form.content)
  {
    Trim(form.title) != "" && Trim(form.content) != ""
  }

  /** `fetchNotes`: reloads the user's notes; without a user it does nothing. */
  function FetchNotes(s: State, user: Option<User>, fetch: String -> seq<Db.Note>): (r: State)
    ensures user.None? ==> r == s
    ensures user.Some? ==> r.notes == fetch(user.value.id) && !r.loading
    ensures user.Some? ==> r.(notes := s.notes, loading := s.loading) == s
  {
    if user.None? then s else s.(notes := fetch(user.value.id), loading := false)
  }

  /** The form after a successful save: emptied, closed, nothing being edited, no error. */
  function Closed(s: State): State {
    s.(form := EmptyForm(), showForm := false, editing := None, error := "")
  }

  /** The list after a successful save: reloaded for the signed-in user, kept without one. */
  function Reloaded(s: State, user: Option<User>, fetch: String -> seq<Db.Note>): seq<Db.Note> {
    if user.Some? then fetch(user.value.id) else s.notes
  }

  /** The edit branch of `handleSubmit`: updates `note` with the form's untrimmed text. */
  function SaveEdit(s: State, note: Db.Note, user: Option<User>, now: int,
                    update: (String, Db.Patch) -> Option<Db.Note>, fetch: String -> seq<Db.Note>): (r: State)
    ensures var saved := update(note.id, Db.Patch(s.form.title, s.form.content, now));
      && (saved.Some? ==>
            && r.form == EmptyForm() && !r.showForm && r.editing.None? && r.error == ""
            && r.notes == Reloaded(s, user, fetch))
      && (saved.None? ==> r == s.(error := UpdateFailedMessage, loading := false))
    ensures !r.loading && r.searchTerm == s.searchTerm
  {
    var saved := update(note.id, Db.Patch(s.form.title, s.form.content, now));
    if saved.Some? then FetchNotes(Closed(s), user, fetch).(loading := false)
    else s.(error := UpdateFailedMessage, loading := false)
  }

  /** The create branch of `handleSubmit`: a new note owned by the signed-in user. */
  function SaveNew(s: State, user: Option<User>, create: Db.NewNote -> Option<Db.Note>,
                   fetch: String -> seq<Db.Note>): (r: State)
    // `user.id` on a missing user throws; the handler's catch reports it.
    ensures user.None? ==> r == s.(error := UnexpectedMessage, loading := false)
    ensures user.Some? ==>
      var created := create(Db.NewNote(user.value.id, s.form.title, s.form.content));
      && (created.Some? ==>
            && r.form == EmptyForm() && !r.showForm && r.error == ""
            && r.editing == s.editing && r.notes == fetch(user.value.id))
      && (created.None? ==> r == s.(error := CreateFailedMessage, loading := false))
    ensures !r.loading && r.searchTerm == s.searchTerm
  {
    if user.None? then s.(error := UnexpectedMessage, loading := false)
    else
      var created := create(Db.NewNote(user.value.id, s.form.title, s.form.content));
      if created.Some? then FetchNotes(s.(form := EmptyForm(), showForm := false, error := ""), user, fetch).(loading := false)
      else s.(error := CreateFailedMessage, loading := false)
  }

  /**
   * `handleSubmit`: a form with a blank field only gets the fill-in message;
   * otherwise the note being edited is updated, or a new one created.
   */
  function HandleSubmit(s: State, user: Option<User>, now: int,
                        update: (String, Db.Patch) -> Option<Db.Note>,
                        create: Db.NewNote -> Option<Db.Note>,
                        fetch: String -> seq<Db.Note>): (r: State)
    ensures IsBlank(s.form.title) || IsBlank(s.form.content) ==> r == s.(error := FillInMessage)
    ensures !IsBlank(s.form.title) && !IsBlank(s.form.content) ==>
      r == if s.editing.Some? then SaveEdit(s, s.editing.value, user, now, update, fetch)
           else SaveNew(s, user, create, fetch)
  {
    if !IsComplete(s.form) then s.(error := FillInMessage)
    else
      match s.editing
      case Some(note) => SaveEdit(s, note, user, now, update, fetch)
      case None => SaveNew(s, user, create, fetch)
  }

  /** A form with a blank field never reaches storage: the outcome does not depend on it. */
  lemma IncompleteFormSkipsStorage(s: State, user: Option<User>, now: int,
                                   update1: (String, Db.Patch) -> Option<Db.Note>, update2: (String, Db.Patch) -> Option<Db.Note>,
                                   create1: Db.NewNote -> Option<Db.Note>, create2: Db.NewNote -> Option<Db.Note>,
                                   fetch1: String -> seq<Db.Note>, fetch2: String -> seq<Db.Note>)
    requires IsBlank(s.form.title) || IsBlank(s.form.content)
    ensures HandleSubmit(s, user, now, update1, create1, fetch1) == HandleSubmit(s, user, now, update2, create2, fetch2)
  {
  }

  /** `handleEdit(note)`: loads the note into an open form and clears the error. */
  function HandleEdit(s: State, note: Db.Note): (r: State)
    ensures r.editing == Some(note) && r.showForm && r.error == ""
    ensures r.form == FormData(note.title, note.content)
    ensures r.notes == s.notes && r.searchTerm == s.searchTerm && r.loading == s.loading
  {
    s.(editing := Some(note), form := FormData(note.title, note.content), showForm := true, error := "")
  }

  /** `resetForm`: an empty, closed form with nothing being edited and no error. */
  function ResetForm(s: State): (r: State)
    ensures r.form == EmptyForm() && !r.showForm && r.editing.None? && r.error == ""
    ensures r.notes == s.notes && r.searchTerm == s.searchTerm && r.loading == s.loading
  {
    Closed(s)
  }

  /** Cancelling an edit leaves no trace of it. */
  lemma CancelEditRestores(s: State, note: Db.Note)
    ensures ResetForm(HandleEdit(s, note)) == ResetForm(s)
  {
  }

  /** Editing a note and saving its unchanged text sends that note's id and text to storage. */
  lemma EditThenSaveUpdatesThatNote(s: State, note: Db.Note, user: Option<User>, now: int,
                                    update: (String, Db.Patch) -> Option<Db.Note>,
                                    create: Db.NewNote -> Option<Db.Note>, fetch: String -> seq<Db.Note>)
    requires !IsBlank(note.title) && !IsBlank(note.content)
    requires update(note.id, Db.Patch(note.title, note.content, now)).None?
    ensures var r := HandleSubmit(HandleEdit(s, note), user, now, update, create, fetch);
      r.error == UpdateFailedMessage && r.editing == Some(note) && r.showForm
  {
  }

  /** `handleDelete(noteId)`: a declined confirmation changes nothing. */
  function HandleDelete(s: State, user: Option<User>, noteId: String, confirmed: bool,
                        delete: String -> bool, fetch: String -> seq<Db.Note>): (r: State)
    ensures !confirmed ==> r == s
    ensures confirmed && delete(noteId) ==> r == FetchNotes(s, user, fetch).(loading := false)
    ensures confirmed && !delete(noteId) ==> r == s.(error := DeleteFailedMessage, loading := false)
  {
    if !confirmed then s
    else if delete(noteId) then FetchNotes(s, user, fetch).(loading := false)
    else s.(error := DeleteFailedMessage, loading := false)
  }

  /** The list the dashboard shows. */
  function Visible(s: State): (r: seq<Db.Note>)
    ensures forall n :: n in r <==> n in s.notes && IsMatch(n, s.searchTerm)
    ensures forall n :: multiset(r)[n] == if IsMatch(n, s.searchTerm) then multiset(s.notes)[n] else 0
    ensures IsSubsequence(r, s.notes)
  {
    FilteredNotes(s.notes, s.searchTerm)
  }
}
