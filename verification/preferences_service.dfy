/**
 * `TravelPreferencesService`: the preference table keyed by its unique
 * `userId` column, with get, upsert, delete and existence test.
 */
module PreferencesService {
  import opened Wrappers
  import opened Preferences

  /** The preference rows by owner, and the next IDENTITY id the database hands out. */
  datatype PrefStore = PrefStore(byUser: map<string, Preferences>, nextId: int)

  /**
   * Every stored record names its owner, carries an id handed out before
   * `nextId`, and no two owners share an id.
   */
  predicate ValidStore(s: PrefStore) {
    && (forall u :: u in s.byUser ==>
          s.byUser[u].userId == Some(u) && s.byUser[u].id.Some? && s.byUser[u].id.value < s.nextId)
    && (forall u, v :: u in s.byUser && v in s.byUser && u != v ==> s.byUser[u].id != s.byUser[v].id)
  }

  function EmptyStore(): (s: PrefStore)
    ensures ValidStore(s) && s.byUser == map[]
  {
    PrefStore(map[], 1)
  }

  /** `getPreferencesByUserId`: the user's single record, or nothing. */
  function Get(s: PrefStore, u: string): (r: Option<Preferences>)
    ensures r.Some? <==> u in s.byUser
    ensures ValidStore(s) && r.Some? ==> r.value.userId == Some(u) && r.value.id.Some?
  {
    if u in s.byUser then Some(s.byUser[u]) else None
  }

  /** `hasPreferences`: the `existsByUserId` query agrees with `findByUserId`. */
  function HasPreferences(s: PrefStore, u: string): (r: bool)
    ensures r <==> Get(s, u).Some?
  {
    u in s.byUser
  }

  /** The stored record `e` with its seven categories taken from `payload`, id and owner kept. */
  function Overwrite(e: Preferences, payload: Preferences): (r: Preferences)
    ensures SameCategories(r, payload)
    ensures r.id == e.id && r.userId == e.userId
  {
    e.(budget := payload.budget, pace := payload.pace, interests := payload.interests,
       accommodationStyle := payload.accommodationStyle, transport := payload.transport,
       foodPreferences := payload.foodPreferences, season := payload.season)
  }

  /**
   * `savePreferences`, corrected: over an existing record every category is
   * replaced, cleared ones included, and the record keeps its id and owner;
   * with no record the payload is stored under a fresh id, whatever id the
   * client sent, with its owner forced to `u`. Other users' records stay as
   * they were.
   */
  function Save(s: PrefStore, u: string, payload: Preferences): (r: (PrefStore, Preferences))
    requires ValidStore(s)
    ensures ValidStore(r.0)
    ensures Get(r.0, u) == Some(r.1)
    ensures SameCategories(r.1, payload)
    ensures r.1.userId == Some(u)
    ensures u in s.byUser ==> r.1.id == s.byUser[u].id
    ensures u !in s.byUser ==> r.1.id.Some? && r.1.id.value >= s.nextId
    ensures r.0.nextId >= s.nextId
    ensures forall v :: v != u ==> Get(r.0, v) == Get(s, v)
  {
    if u in s.byUser then
      var e := Overwrite(s.byUser[u], payload);
      (s.(byUser := s.byUser[u := e]), e)
    else
      var p := payload.(userId := Some(u), id := Some(s.nextId));
      (PrefStore(s.byUser[u := p], s.nextId + 1), p)
  }

  /**
   * The owner of the record stored under `id`, if any. Ids are distinct in
   * a valid store, so there is at most one.
   */
  function OwnerOfId(s: PrefStore, id: int): (r: Option<string>)
    requires ValidStore(s)
    ensures r.Some? <==> exists v :: v in s.byUser && s.byUser[v].id == Some(id)
    ensures r.Some? ==> r.value in s.byUser && s.byUser[r.value].id == Some(id)
  {
    if exists v :: v in s.byUser && s.byUser[v].id == Some(id) then
      var v :| v in s.byUser && s.byUser[v].id == Some(id);
      Some(v)
    else None
  }

  /**
   * `savePreferences` as written. The request body is bound to the entity
   * itself, so a new record keeps whatever id the client sent. The
   * repository's `save` persists an entity without an id under a fresh
   * one, and merges an entity with an id: when that id is another user's
   * record, the record is overwritten with the payload and handed to `u`,
   * and its former owner has no preferences any more.
   */
  function SaveAsWritten(s: PrefStore, u: string, payload: Preferences): (r: (PrefStore, Preferences))
    requires ValidStore(s)
    ensures ValidStore(r.0)
    ensures Get(r.0, u) == Some(r.1)
    ensures SameCategories(r.1, payload) && r.1.userId == Some(u)
    ensures u in s.byUser ==> r.0 == Save(s, u, payload).0
    ensures u !in s.byUser && payload.id.Some? && OwnerOfId(s, payload.id.value).Some? ==>
      && r.1.id == payload.id
      && Get(r.0, OwnerOfId(s, payload.id.value).value).None?
      && forall v :: v != u && v != OwnerOfId(s, payload.id.value).value ==> Get(r.0, v) == Get(s, v)
    ensures !(u !in s.byUser && payload.id.Some? && OwnerOfId(s, payload.id.value).Some?) ==>
      forall v :: v != u ==> Get(r.0, v) == Get(s, v)
  {
    if u in s.byUser || payload.id.None? || OwnerOfId(s, payload.id.value).None? then
      Save(s, u, payload)
    else
      var former := OwnerOfId(s, payload.id.value).value;
      var p := payload.(userId := Some(u));
      (s.(byUser := (s.byUser - {former})[u := p]), p)
  }

  /**
   * The takeover: user "a" holds record 1, user "b" has none and saves a
   * payload carrying id 1. Afterwards "b" owns record 1 and "a" has lost
   * its preferences.
   */
  lemma SaveAsWrittenTakesOverForeignRecord()
    ensures var s := PrefStore(map["a" := Blank().(id := Some(1), userId := Some("a"))], 2);
      && ValidStore(s)
      && HasPreferences(s, "a")
      && var (s', p) := SaveAsWritten(s, "b", Blank().(id := Some(1)));
      && p.id == Some(1) && Get(s', "b") == Some(p)
      && !HasPreferences(s', "a")
  {
    var s := PrefStore(map["a" := Blank().(id := Some(1), userId := Some("a"))], 2);
    assert s.byUser["a"].id == Some(1);
    assert OwnerOfId(s, 1) == Some("a");
  }

  /**
   * The corrected `Save` is the written one applied to the payload with its
   * client-sent id dropped, and the two agree whenever that id names no
   * other user's record.
   */
  lemma SaveIgnoresClientId(s: PrefStore, u: string, payload: Preferences)
    requires ValidStore(s)
    ensures Save(s, u, payload) == SaveAsWritten(s, u, payload.(id := None))
    ensures u in s.byUser || payload.id.None? || OwnerOfId(s, payload.id.value).None? ==>
      Save(s, u, payload) == SaveAsWritten(s, u, payload)
  {
  }

  /** `deletePreferences` (`deleteByUserId`): only `u`'s record goes. */
  function Delete(s: PrefStore, u: string): (r: PrefStore)
    ensures ValidStore(s) ==> ValidStore(r)
    ensures Get(r, u).None?
    ensures forall v :: v != u ==> Get(r, v) == Get(s, v)
    ensures r.nextId == s.nextId
  {
    s.(byUser := s.byUser - {u})
  }

  /** After a save the user has preferences, and they are the payload's categories. */
  lemma SaveThenHasPreferences(s: PrefStore, u: string, payload: Preferences)
    requires ValidStore(s)
    ensures HasPreferences(Save(s, u, payload).0, u)
    ensures SameCategories(Get(Save(s, u, payload).0, u).value, payload)
  {
    var (s', e) := Save(s, u, payload);
    assert Get(s', u) == Some(e);
  }

  /** Saving the same payload a second time changes nothing. */
  lemma SaveIdempotent(s: PrefStore, u: string, payload: Preferences)
    requires ValidStore(s)
    ensures Save(Save(s, u, payload).0, u, payload).0 == Save(s, u, payload).0
  {
    var (s1, e1) := Save(s, u, payload);
    assert u in s1.byUser && s1.byUser[u] == e1;
    assert Overwrite(e1, payload) == e1;
    assert s1.byUser[u := e1] == s1.byUser;
  }

  /** A record saved after its owner's deletion is a new row: it never reuses the deleted id. */
  lemma DeleteThenSaveGetsFreshId(s: PrefStore, u: string, payload: Preferences)
    requires ValidStore(s)
    requires HasPreferences(s, u)
    ensures Save(Delete(s, u), u, payload).1.id != Get(s, u).value.id
  {
    var d := Delete(s, u);
    assert ValidStore(d) && u !in d.byUser;
    assert s.byUser[u].id.value < d.nextId;
  }
}
