/**
 * A JPA table with an IDENTITY primary key: rows keyed by id, and the next
 * id the database will hand out. Ids are never reused, so every stored id
 * is below `nextId`.
 */
module Tables {
  import opened Wrappers

  datatype Table<T> = Table(rows: map<int, T>, nextId: int)

  /** A persisted entity together with the id the database gave it. */
  datatype Row<T> = Row(id: int, value: T)

  /** Every stored id was handed out before `nextId`. */
  predicate Valid<T>(t: Table<T>) {
    forall id :: id in t.rows ==> id < t.nextId
  }

  function Empty<T>(): (t: Table<T>)
    ensures Valid(t) && t.rows == map[]
  {
    Table(map[], 1)
  }

  /** `findById`. */
  function Find<T>(t: Table<T>, id: int): (r: Option<T>)
    ensures r.Some? <==> id in t.rows
    ensures r.Some? ==> r.value == t.rows[id]
  {
    if id in t.rows then Some(t.rows[id]) else None
  }

  /** `save` of a new entity: it is stored under a fresh id and nothing else changes. */
  function Insert<T>(t: Table<T>, value: T): (r: (Table<T>, int))
    requires Valid(t)
    ensures Valid(r.0)
    ensures r.1 !in t.rows && r.1 in r.0.rows && r.0.rows[r.1] == value
    ensures forall id :: id != r.1 ==> Find(r.0, id) == Find(t, id)
    ensures r.0.nextId > t.nextId
    ensures t.nextId <= r.1
  {
    (Table(t.rows[t.nextId := value], t.nextId + 1), t.nextId)
  }

  /** `save` of an entity already stored under `id`: only that row changes. */
  function Put<T>(t: Table<T>, id: int, value: T): (r: Table<T>)
    requires id in t.rows
    ensures Valid(t) ==> Valid(r)
    ensures Find(r, id) == Some(value)
    ensures forall k :: k != id ==> Find(r, k) == Find(t, k)
    ensures r.nextId == t.nextId
  {
    Table(t.rows[id := value], t.nextId)
  }

  /** `delete`: the row is gone and every other row stays. */
  function Remove<T>(t: Table<T>, id: int): (r: Table<T>)
    ensures Valid(t) ==> Valid(r)
    ensures Find(r, id) == None
    ensures forall k :: k != id ==> Find(r, k) == Find(t, k)
    ensures r.nextId == t.nextId
  {
    Table(t.rows - {id}, t.nextId)
  }

  /** The rows satisfying `keep`: what a derived `findBy…` query returns, in no particular order. */
  function Where<T>(t: Table<T>, keep: T -> bool): (r: map<int, T>)
    ensures forall id :: id in r <==> id in t.rows && keep(t.rows[id])
    ensures forall id :: id in r ==> r[id] == t.rows[id]
  {
    map id | id in t.rows && keep(t.rows[id]) :: t.rows[id]
  }
}
