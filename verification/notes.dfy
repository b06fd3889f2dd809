/**
 * Notes and the derived queries of `NoteRepository`, each an operation on
 * the id-keyed note table that only ever sees one user's rows.
 */
module Notes {
  import opened Wrappers
  import opened Tables

  /** A travel note. `createdAt` is the clock reading `@PrePersist` stores, supplied by the caller. */
  datatype Note = Note(userId: string, title: string, content: string, createdAt: nat)

  /** `findByIdAndUserId`: the note, when it exists and belongs to `userId`. */
  function FindByIdAndUserId(t: Table<Note>, id: int, userId: string): (r: Option<Note>)
    ensures r.Some? <==> Find(t, id).Some? && Find(t, id).value.userId == userId
    ensures r.Some? ==> Find(t, id) == r
  {
    if id in t.rows && t.rows[id].userId == userId then Some(t.rows[id]) else None
  }

  /** `existsByIdAndUserId`. */
  function ExistsByIdAndUserId(t: Table<Note>, id: int, userId: string): (r: bool)
    ensures r <==> FindByIdAndUserId(t, id, userId).Some?
  {
    id in t.rows && t.rows[id].userId == userId
  }

  /** `deleteByIdAndUserId`: removes the note only when `userId` owns it. */
  function DeleteByIdAndUserId(t: Table<Note>, id: int, userId: string): (r: Table<Note>)
    ensures FindByIdAndUserId(r, id, userId).None?
    ensures ExistsByIdAndUserId(t, id, userId) ==> Find(r, id).None?
    ensures !ExistsByIdAndUserId(t, id, userId) ==> r == t
    ensures forall k :: k != id ==> Find(r, k) == Find(t, k)
    ensures Valid(t) ==> Valid(r)
  {
    if ExistsByIdAndUserId(t, id, userId) then Remove(t, id) else t
  }

  /** The rows of a listing are `userId`'s notes as stored, each id once. */
  predicate ListsOwnedRows(t: Table<Note>, userId: string, r: seq<Row<Note>>) {
    && (forall x :: x in r ==> x.id in t.rows && t.rows[x.id] == x.value && x.value.userId == userId)
    && (forall i, j :: 0 <= i < j < |r| ==> r[i].id != r[j].id)
  }

  /** Creation times never increase along the listing. */
  predicate NewestFirst(r: seq<Row<Note>>) {
    forall i, j :: 0 <= i < j < |r| ==> r[i].value.createdAt >= r[j].value.createdAt
  }

  /** Where a row goes in a newest-first listing: after every row at least as new. */
  function InsertionPoint(r: seq<Row<Note>>, e: Row<Note>): (k: nat)
    ensures k <= |r|
    ensures forall i :: 0 <= i < k ==> r[i].value.createdAt >= e.value.createdAt
    ensures k < |r| ==> r[k].value.createdAt < e.value.createdAt
  {
    if r == [] || r[0].value.createdAt < e.value.createdAt then 0
    else 1 + InsertionPoint(r[1..], e)
  }

  lemma InsertAtPreservesOrder(r: seq<Row<Note>>, e: Row<Note>, k: nat)
    requires NewestFirst(r)
    requires k <= |r|
    requires forall i :: 0 <= i < k ==> r[i].value.createdAt >= e.value.createdAt
    requires k < |r| ==> r[k].value.createdAt < e.value.createdAt
    ensures NewestFirst(r[..k] + [e] + r[k..])
  {
    var r' := r[..k] + [e] + r[k..];
    forall i, j | 0 <= i < j < |r'|
      ensures r'[i].value.createdAt >= r'[j].value.createdAt
    {
      if j < k {
        assert r'[i] == r[i] && r'[j] == r[j];
      } else if j == k {
        assert r'[i] == r[i] && r'[j] == e;
      } else if i < k {
        assert r'[i] == r[i] && r'[j] == r[j - 1];
      } else if i == k {
        assert r'[i] == e && r'[j] == r[j - 1];
        assert r[k].value.createdAt >= r[j - 1].value.createdAt;
      } else {
        assert r'[i] == r[i - 1] && r'[j] == r[j - 1];
      }
    }
  }

  /** A newest-first listing with one more row, still newest first, the old rows kept in order around it. */
  function InsertNewest(r: seq<Row<Note>>, e: Row<Note>): (r': seq<Row<Note>>)
    requires NewestFirst(r)
    ensures NewestFirst(r')
    ensures |r'| == |r| + 1
    ensures forall x :: x in r' <==> x in r || x == e
    ensures exists k :: 0 <= k <= |r| && r' == r[..k] + [e] + r[k..]
  {
    var k := InsertionPoint(r, e);
    var r' := r[..k] + [e] + r[k..];
    InsertAtPreservesOrder(r, e, k);
    r'
  }

  /** Ids stay distinct when a row with an unlisted id is spliced in. */
  lemma InsertAtKeepsIdsDistinct(r: seq<Row<Note>>, e: Row<Note>, k: nat)
    requires k <= |r|
    requires forall i, j :: 0 <= i < j < |r| ==> r[i].id != r[j].id
    requires forall i :: 0 <= i < |r| ==> r[i].id != e.id
    ensures var r' := r[..k] + [e] + r[k..];
      forall i, j :: 0 <= i < j < |r'| ==> r'[i].id != r'[j].id
  {
    var r' := r[..k] + [e] + r[k..];
    forall i, j | 0 <= i < j < |r'|
      ensures r'[i].id != r'[j].id
    {
      if j < k {
        assert r'[i] == r[i] && r'[j] == r[j];
      } else if j == k {
        assert r'[i] == r[i] && r'[j] == e;
      } else if i < k {
        assert r'[i] == r[i] && r'[j] == r[j - 1];
      } else if i == k {
        assert r'[i] == e && r'[j] == r[j - 1];
      } else {
        assert r'[i] == r[i - 1] && r'[j] == r[j - 1];
      }
    }
  }

  /** Inserting a stored row of `userId` whose id is not yet listed keeps the listing one of owned rows. */
  lemma InsertKeepsListing(t: Table<Note>, userId: string, r: seq<Row<Note>>, e: Row<Note>)
    requires ListsOwnedRows(t, userId, r) && NewestFirst(r)
    requires e.id in t.rows && t.rows[e.id] == e.value && e.value.userId == userId
    requires forall x :: x in r ==> x.id != e.id
    ensures ListsOwnedRows(t, userId, InsertNewest(r, e))
  {
    var r' := InsertNewest(r, e);
    var k :| 0 <= k <= |r| && r' == r[..k] + [e] + r[k..];
    assert forall i :: 0 <= i < |r| ==> r[i].id != e.id by {
      forall i | 0 <= i < |r| ensures r[i].id != e.id {
        assert r[i] in r;
      }
    }
    InsertAtKeepsIdsDistinct(r, e, k);
  }

  /**
   * `findByUserIdOrderByCreatedAtDesc`: exactly the notes `userId` owns,
   * newest first. Notes created at the same instant come in no promised order.
   */
  method FindByUserIdOrderByCreatedAtDesc(t: Table<Note>, userId: string) returns (r: seq<Row<Note>>)
    ensures ListsOwnedRows(t, userId, r)
    ensures forall id :: id in t.rows && t.rows[id].userId == userId ==> Row(id, t.rows[id]) in r
    ensures NewestFirst(r)
  {
    r := [];
    var pending := t.rows.Keys;
    while exists x :: x in pending
      invariant pending <= t.rows.Keys
      invariant ListsOwnedRows(t, userId, r)
      invariant NewestFirst(r)
      invariant forall x :: x in r ==> x.id !in pending
      invariant forall id :: id in t.rows && id !in pending && t.rows[id].userId == userId ==> Row(id, t.rows[id]) in r
      decreases pending
    {
      var next :| next in pending;
      pending := pending - {next};
      if t.rows[next].userId == userId {
        InsertKeepsListing(t, userId, r, Row(next, t.rows[next]));
        r := InsertNewest(r, Row(next, t.rows[next]));
      }
    }
  }
}
