/**
 * `NoteController`: the note endpoints. Each identifies the caller first
 * (401 without one), validates the request fields, title before content,
 * and then answers from `NoteService`; a note the caller does not own is
 * answered exactly like a note that does not exist.
 */
module NoteController {
  import opened Wrappers
  import opened Text
  import opened Tables
  import opened Notes
  import opened NoteService
  import opened Jwt
  import opened RequestAuth
  import opened Responses

  const TitleRequiredMessage: string := "Title is required"
  const ContentRequiredMessage: string := "Content is required"
  const NoteNotFoundMessage: string := "Note not found"

  /** A request field the controller rejects: missing, or nothing but whitespace. */
  predicate Blank(field: Option<string>) {
    field.None? || Trim(field.value) == []
  }

  /** The 400 answer for the first blank field, the title checked before the content. */
  function Rejection(title: Option<string>, content: Option<string>): (r: Option<Response>)
    ensures r.None? <==> !Blank(title) && !Blank(content)
    ensures r.Some? ==> r.value.status == BadRequest
    ensures Blank(title) ==> r == Some(Response(BadRequest, Fields(Outcome(false, TitleRequiredMessage))))
    ensures !Blank(title) && Blank(content) ==> r == Some(Response(BadRequest, Fields(Outcome(false, ContentRequiredMessage))))
  {
    if Blank(title) then Some(Response(BadRequest, Fields(Outcome(false, TitleRequiredMessage))))
    else if Blank(content) then Some(Response(BadRequest, Fields(Outcome(false, ContentRequiredMessage))))
    else None
  }

  /** The body of a successful create or update: `success` true, the message and the note. */
  function Saved(message: string, row: Row<Note>): (m: map<string, Value>)
    ensures "success" in m && m["success"] == Flag(true)
    ensures "message" in m && m["message"] == Str(message)
    ensures "note" in m && m["note"] == NoteValue(row)
  {
    Outcome(true, message)["note" := NoteValue(row)]
  }

  /**
   * `getAllNotes`: 401 without a caller; otherwise every note the caller
   * owns, each once, newest first.
   */
  method GetAll(jwt: Option<Verifier>, notes: Table<Note>, header: Option<string>) returns (r: Response)
    ensures ExtractUserId(jwt, header).None? <==> r == Response(Unauthorized, NoBody)
    ensures ExtractUserId(jwt, header).Some? ==>
      var userId := ExtractUserId(jwt, header).value;
      && r.status == Ok && r.body.NoteList?
      && ListsOwnedRows(notes, userId, r.body.notes)
      && NewestFirst(r.body.notes)
      && (forall id :: id in notes.rows && notes.rows[id].userId == userId ==> Row(id, notes.rows[id]) in r.body.notes)
  {
    match ExtractUserId(jwt, header)
    case None =>
      r := Response(Unauthorized, NoBody);
    case Some(userId) =>
      var listing := FindByUserIdOrderByCreatedAtDesc(notes, userId);
      r := Response(Ok, NoteList(listing));
  }

  /** `getNoteById`: 404 unless the caller owns the note, the note otherwise. */
  function GetById(jwt: Option<Verifier>, notes: Table<Note>, header: Option<string>, id: int): (r: Response)
    ensures ExtractUserId(jwt, header).None? <==> r == Response(Unauthorized, NoBody)
    ensures ExtractUserId(jwt, header).Some? ==>
      var userId := ExtractUserId(jwt, header).value;
      && (r.status == Ok <==> id in notes.rows && notes.rows[id].userId == userId)
      && (r.status != Ok ==> r == Response(NotFound, NoBody))
    ensures r.status == Ok ==> id in notes.rows && r.body == NoteBody(Row(id, notes.rows[id]))
  {
    match ExtractUserId(jwt, header)
    case None => Response(Unauthorized, NoBody)
    case Some(userId) =>
      match FindByIdAndUserId(notes, id, userId)
      case None => Response(NotFound, NoBody)
      case Some(note) => Response(Ok, NoteBody(Row(id, note)))
  }

  /**
   * `createNote`: 401 without a caller, 400 for a blank title or content,
   * otherwise 201 with the note stored under a fresh id, owned by the
   * caller, every other note as it was.
   */
  function Create(jwt: Option<Verifier>, notes: Table<Note>, header: Option<string>,
                  title: Option<string>, content: Option<string>, now: nat): (r: (Table<Note>, Response))
    requires Valid(notes)
    ensures Valid(r.0)
    ensures r.1.status != Created ==> r.0 == notes
    ensures ExtractUserId(jwt, header).None? <==> r.1 == Response(Unauthorized, NoBody)
    ensures ExtractUserId(jwt, header).Some? ==> (r.1.status == Created <==> !Blank(title) && !Blank(content))
    ensures ExtractUserId(jwt, header).Some? && Rejection(title, content).Some? ==> r.1 == Rejection(title, content).value
    ensures r.1.status == Created ==>
      && Field(r.1, "success") == Flag(true)
      && Field(r.1, "note").NoteValue?
      && var row := Field(r.1, "note").note;
      && row.value == Note(ExtractUserId(jwt, header).value, title.value, content.value, now)
      && row.id !in notes.rows && Find(r.0, row.id) == Some(row.value)
      && (forall k :: k != row.id ==> Find(r.0, k) == Find(notes, k))
  {
    match ExtractUserId(jwt, header)
    case None => (notes, Response(Unauthorized, NoBody))
    case Some(userId) =>
      match Rejection(title, content)
      case Some(rejected) => (notes, rejected)
      case None =>
        var (notes', row) := CreateNote(notes, userId, title.value, content.value, now);
        (notes', Response(Created, Fields(Saved("Note created successfully", row))))
  }

  /**
   * `updateNote`: 401 without a caller, 400 for a blank title or content,
   * 404 unless the caller owns the note, otherwise 200 with the note under
   * its new title and content, every other note as it was.
   */
  function Update(jwt: Option<Verifier>, notes: Table<Note>, header: Option<string>, id: int,
                  title: Option<string>, content: Option<string>): (r: (Table<Note>, Response))
    ensures Valid(notes) ==> Valid(r.0)
    ensures r.1.status != Ok ==> r.0 == notes
    ensures ExtractUserId(jwt, header).None? <==> r.1 == Response(Unauthorized, NoBody)
    ensures ExtractUserId(jwt, header).Some? && Rejection(title, content).Some? ==> r.1 == Rejection(title, content).value
    ensures ExtractUserId(jwt, header).Some? && Rejection(title, content).None? ==>
      var userId := ExtractUserId(jwt, header).value;
      && (r.1.status == Ok <==> id in notes.rows && notes.rows[id].userId == userId)
      && (r.1.status != Ok ==> r.1 == Response(NotFound, Fields(Outcome(false, NoteNotFoundMessage))))
    ensures r.1.status == Ok ==>
      && id in notes.rows
      && var note := notes.rows[id].(title := title.value, content := content.value);
      && Field(r.1, "note") == NoteValue(Row(id, note))
      && Find(r.0, id) == Some(note)
      && (forall k :: k != id ==> Find(r.0, k) == Find(notes, k))
  {
    match ExtractUserId(jwt, header)
    case None => (notes, Response(Unauthorized, NoBody))
    case Some(userId) =>
      match Rejection(title, content)
      case Some(rejected) => (notes, rejected)
      case None =>
        match UpdateNote(notes, id, userId, title.value, content.value)
        case (_, None) => (notes, Response(NotFound, Fields(Outcome(false, NoteNotFoundMessage))))
        case (notes', Some(note)) =>
          (notes', Response(Ok, Fields(Saved("Note updated successfully", Row(id, note)))))
  }

  /** `deleteNote`: 401 without a caller, 404 unless the caller owns the note, 200 once it is gone. */
  function Delete(jwt: Option<Verifier>, notes: Table<Note>, header: Option<string>, id: int): (r: (Table<Note>, Response))
    ensures Valid(notes) ==> Valid(r.0)
    ensures r.1.status != Ok ==> r.0 == notes
    ensures ExtractUserId(jwt, header).None? <==> r.1 == Response(Unauthorized, NoBody)
    ensures ExtractUserId(jwt, header).Some? ==>
      var userId := ExtractUserId(jwt, header).value;
      && (r.1.status == Ok <==> id in notes.rows && notes.rows[id].userId == userId)
      && (r.1.status != Ok ==> r.1 == Response(NotFound, Fields(Outcome(false, NoteNotFoundMessage))))
    ensures r.1.status == Ok ==>
      && Find(r.0, id).None?
      && (forall k :: k != id ==> Find(r.0, k) == Find(notes, k))
  {
    match ExtractUserId(jwt, header)
    case None => (notes, Response(Unauthorized, NoBody))
    case Some(userId) =>
      match DeleteNote(notes, id, userId)
      case (notes', true) => (notes', Response(Ok, Fields(Outcome(true, "Note deleted successfully"))))
      case (_, false) => (notes, Response(NotFound, Fields(Outcome(false, NoteNotFoundMessage))))
  }

  /**
   * Another user's note is indistinguishable from one that does not exist:
   * reading, updating and deleting it are answered as if it were removed,
   * and it stays as it was.
   */
  lemma ForeignNoteLooksMissing(jwt: Option<Verifier>, notes: Table<Note>, header: Option<string>, id: int,
                                title: Option<string>, content: Option<string>)
    requires ExtractUserId(jwt, header).Some?
    requires id in notes.rows && notes.rows[id].userId != ExtractUserId(jwt, header).value
    ensures GetById(jwt, notes, header, id) == GetById(jwt, Remove(notes, id), header, id)
    ensures Update(jwt, notes, header, id, title, content).1 == Update(jwt, Remove(notes, id), header, id, title, content).1
    ensures Delete(jwt, notes, header, id).1 == Delete(jwt, Remove(notes, id), header, id).1
    ensures Update(jwt, notes, header, id, title, content).0 == notes
    ensures Delete(jwt, notes, header, id).0 == notes
  {
  }

  /** A blank title decides the answer whatever the content is. */
  lemma TitleCheckedFirst(jwt: Option<Verifier>, notes: Table<Note>, header: Option<string>, id: int,
                          title: Option<string>, content1: Option<string>, content2: Option<string>)
    requires ExtractUserId(jwt, header).Some?
    requires Blank(title)
    ensures Update(jwt, notes, header, id, title, content1) == Update(jwt, notes, header, id, title, content2)
    ensures Update(jwt, notes, header, id, title, content1).1.body == Fields(Outcome(false, TitleRequiredMessage))
  {
  }

  /** The note a 201 reports is the one its owner then reads back. */
  lemma CreateThenGet(jwt: Option<Verifier>, notes: Table<Note>, header: Option<string>,
                      title: Option<string>, content: Option<string>, now: nat)
    requires Valid(notes)
    requires Create(jwt, notes, header, title, content, now).1.status == Created
    ensures var (notes', r) := Create(jwt, notes, header, title, content, now);
      var row := Field(r, "note").note;
      GetById(jwt, notes', header, row.id) == Response(Ok, NoteBody(row))
  {
    var (notes', r) := Create(jwt, notes, header, title, content, now);
    var row := Field(r, "note").note;
    assert Find(notes', row.id) == Some(row.value);
  }

  /** After a 200 from `updateNote` the owner reads back the note with the new title and content. */
  lemma UpdateThenGet(jwt: Option<Verifier>, notes: Table<Note>, header: Option<string>, id: int,
                      title: Option<string>, content: Option<string>)
    requires Update(jwt, notes, header, id, title, content).1.status == Ok
    ensures var (notes', r) := Update(jwt, notes, header, id, title, content);
      GetById(jwt, notes', header, id) == Response(Ok, NoteBody(Field(r, "note").note))
  {
    var (notes', r) := Update(jwt, notes, header, id, title, content);
    assert Find(notes', id) == Some(Field(r, "note").note.value);
  }

  /** After a 200 from `deleteNote` the note reads as missing and a second delete answers 404. */
  lemma DeleteThenGet(jwt: Option<Verifier>, notes: Table<Note>, header: Option<string>, id: int)
    requires Delete(jwt, notes, header, id).1.status == Ok
    ensures var notes' := Delete(jwt, notes, header, id).0;
      && GetById(jwt, notes', header, id) == Response(NotFound, NoBody)
      && Delete(jwt, notes', header, id) == (notes', Response(NotFound, Fields(Outcome(false, NoteNotFoundMessage))))
  {
    var notes' := Delete(jwt, notes, header, id).0;
    assert Find(notes', id).None?;
  }
}
