/**
 * `NoteService`: create, read, update and delete of notes, every read and
 * write scoped to the calling user through the derived queries of `Notes`.
 */
module NoteService {
  import opened Wrappers
  import opened Tables
  import opened Notes

  /** `createNote`: a new row under a fresh id whose owner, title and content are the arguments. */
  function CreateNote(t: Table<Note>, userId: string, title: string, content: string, now: nat): (r: (Table<Note>, Row<Note>))
    requires Valid(t)
    ensures Valid(r.0)
    ensures r.1.value.userId == userId && r.1.value.title == title && r.1.value.content == content
    ensures r.1.id !in t.rows
    ensures FindByIdAndUserId(r.0, r.1.id, userId) == Some(r.1.value)
    ensures forall id :: id != r.1.id ==> Find(r.0, id) == Find(t, id)
    ensures r.0.nextId > t.nextId
  {
    var note := Note(userId, title, content, now);
    var (t', id) := Insert(t, note);
    (t', Row(id, note))
  }

  /**
   * `updateNote`: an owned note gets the new title and content and keeps its
   * owner and creation time; for an absent or foreign note the result is
   * empty and the table is untouched.
   */
  function UpdateNote(t: Table<Note>, id: int, userId: string, title: string, content: string): (r: (Table<Note>, Option<Note>))
    ensures r.1.Some? <==> ExistsByIdAndUserId(t, id, userId)
    ensures r.1.None? ==> r.0 == t
    ensures r.1.Some? ==>
      && r.1.value.title == title && r.1.value.content == content
      && r.1.value.userId == userId && r.1.value.createdAt == t.rows[id].createdAt
      && Find(r.0, id) == r.1
    ensures forall k :: k != id ==> Find(r.0, k) == Find(t, k)
    ensures Valid(t) ==> Valid(r.0)
  {
    match FindByIdAndUserId(t, id, userId)
    case None => (t, None)
    case Some(note) =>
      var updated := note.(title := title, content := content);
      (Put(t, id, updated), Some(updated))
  }

  /**
   * `deleteNote`: true exactly when the note existed and belonged to
   * `userId`; the note is then gone and every other row stays.
   */
  function DeleteNote(t: Table<Note>, id: int, userId: string): (r: (Table<Note>, bool))
    ensures r.1 <==> ExistsByIdAndUserId(t, id, userId)
    ensures !r.1 ==> r.0 == t
    ensures FindByIdAndUserId(r.0, id, userId).None?
    ensures forall k :: k != id ==> Find(r.0, k) == Find(t, k)
    ensures Valid(t) ==> Valid(r.0)
  {
    if ExistsByIdAndUserId(t, id, userId) then (DeleteByIdAndUserId(t, id, userId), true)
    else (t, false)
  }

  /** No operation on `userId`'s behalf changes a note another user owns. */
  lemma OtherUsersNotesUntouched(t: Table<Note>, id: int, userId: string, title: string, content: string, k: int)
    requires k in t.rows && t.rows[k].userId != userId
    ensures Find(UpdateNote(t, id, userId, title, content).0, k) == Find(t, k)
    ensures Find(DeleteNote(t, id, userId).0, k) == Find(t, k)
  {
    if k == id {
      assert !ExistsByIdAndUserId(t, id, userId);
    }
  }

  /** Deleting a note just created, as its owner, gives back the rows before the creation. */
  lemma CreateThenDeleteRestoresRows(t: Table<Note>, userId: string, title: string, content: string, now: nat)
    requires Valid(t)
    ensures var (t1, row) := CreateNote(t, userId, title, content, now);
      var (t2, deleted) := DeleteNote(t1, row.id, userId);
      deleted && t2.rows == t.rows
  {
    var (t1, row) := CreateNote(t, userId, title, content, now);
    var (t2, deleted) := DeleteNote(t1, row.id, userId);
    assert ExistsByIdAndUserId(t1, row.id, userId);
    forall k | k in t2.rows || k in t.rows
      ensures k in t2.rows && k in t.rows && t2.rows[k] == t.rows[k]
    {
      assert Find(t2, k) == Find(t, k);
    }
    assert t2.rows.Keys == t.rows.Keys;
  }

  /** Updating twice with the same title and content is updating once. */
  lemma UpdateIdempotent(t: Table<Note>, id: int, userId: string, title: string, content: string)
    ensures var t1 := UpdateNote(t, id, userId, title, content).0;
      UpdateNote(t1, id, userId, title, content) == (t1, UpdateNote(t, id, userId, title, content).1)
  {
    var (t1, r1) := UpdateNote(t, id, userId, title, content);
    if r1.Some? {
      assert t1.rows[id] == r1.value;
      assert t1.rows[id := r1.value] == t1.rows;
    }
  }
}
