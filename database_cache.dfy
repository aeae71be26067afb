/**
 * The persistent result cache (DatabaseCache).  Underneath the JDBC calls the
 * SQLite table `cache(key TEXT PRIMARY KEY, value TEXT NOT NULL,
 * timestamp INTEGER NOT NULL)` is a finite map from key to row; every SQL
 * statement the class issues is modelled as a function on that map, and the
 * store object itself as a class holding the map.
 */
module DatabaseCache {
  import opened Wrappers

  /** One row of the cache table; `key` is the primary key, hence the map. */
  datatype Row = Row(value: string, timestamp: int)

  /** The contents of the `cache` table. */
  type Table = map<string, Row>

  /** The value column of every row, forgetting the timestamps. */
  function Values(t: Table): (r: map<string, string>)
    ensures r.Keys == t.Keys
    ensures forall k :: k in r ==> r[k] == t[k].value
  {
    map k | k in t :: t[k].value
  }

  /** `SELECT value FROM cache WHERE key = ?`: the stored value, or absent. */
  function Lookup(t: Table, key: string): (r: Option<string>)
    ensures r.Some? <==> key in t
    ensures r.Some? ==> r.value == t[key].value
  {
    if key in t then Some(t[key].value) else None
  }

  /** `contains`: holds exactly when a lookup finds a value. */
  predicate Contains(t: Table, key: string)
    ensures Contains(t, key) <==> key in t
  {
    Lookup(t, key).Some?
  }

  /**
   * `INSERT OR REPLACE INTO cache (key, value, timestamp)`: the row for `key`
   * is inserted or replaced, stamped with `now`; every other row stays.
   */
  function Upsert(t: Table, key: string, value: string, now: int): (r: Table)
    ensures Lookup(r, key) == Some(value) && r[key].timestamp == now
    ensures r.Keys == t.Keys + {key}
    ensures forall j :: j != key ==> Lookup(r, j) == Lookup(t, j)
    ensures forall j :: j in t && j != key ==> r[j] == t[j]
  {
    t[key := Row(value, now)]
  }

  /** `DELETE FROM cache`: every row goes, the table itself stays. */
  function DeleteAll(t: Table): (r: Table)
    ensures forall k :: Lookup(r, k) == None && !Contains(r, k)
  {
    map[]
  }

  /**
   * `CREATE TABLE IF NOT EXISTS cache (...)`: a new empty table when the
   * database file has none (`disk == None`), the existing rows otherwise.
   */
  function CreateTableIfNotExists(disk: Option<Table>): (r: Table)
    ensures disk.None? ==> r == map[]
    ensures disk.Some? ==> r == disk.value
  {
    match disk
    case None => map[]
    case Some(t) => t
  }

  /** Creating the table a second time changes nothing: the statement is idempotent. */
  lemma CreateTableIdempotent(disk: Option<Table>)
    ensures CreateTableIfNotExists(Some(CreateTableIfNotExists(disk))) == CreateTableIfNotExists(disk)
  {
  }

  /** A key that was never written is absent. */
  lemma GetAbsentOnEmpty(key: string)
    ensures Lookup(CreateTableIfNotExists(None), key) == None
    ensures !Contains(CreateTableIfNotExists(None), key)
  {
  }

  /** `put(k, v)` followed by `get(k)` returns `v`, and `contains(k)` holds. */
  lemma PutThenGet(t: Table, key: string, value: string, now: int)
    ensures Lookup(Upsert(t, key, value, now), key) == Some(value)
    ensures Contains(Upsert(t, key, value, now), key)
  {
  }

  /** Two puts to one key: the second one wins, as if the first never happened. */
  lemma LastWriteWins(t: Table, key: string, v1: string, t1: int, v2: string, t2: int)
    ensures Upsert(Upsert(t, key, v1, t1), key, v2, t2) == Upsert(t, key, v2, t2)
    ensures Lookup(Upsert(Upsert(t, key, v1, t1), key, v2, t2), key) == Some(v2)
  {
  }

  /**
   * Repeating `put(k, v)` leaves the key-to-value map as one put left it;
   * only the timestamp of `k` moves to the later clock reading.
   */
  lemma PutIdempotent(t: Table, key: string, value: string, t1: int, t2: int)
    ensures Values(Upsert(Upsert(t, key, value, t1), key, value, t2)) == Values(Upsert(t, key, value, t1))
    ensures Upsert(Upsert(t, key, value, t1), key, value, t2)[key].timestamp == t2
  {
    var once, twice := Upsert(t, key, value, t1), Upsert(Upsert(t, key, value, t1), key, value, t2);
    assert forall k :: k in Values(twice) ==> Values(twice)[k] == Values(once)[k];
  }

  /** After `clear()` no key is found and none is contained. */
  lemma ClearForgetsEverything(t: Table, key: string)
    ensures Lookup(DeleteAll(t), key) == None
    ensures !Contains(DeleteAll(t), key)
  {
  }

  /**
   * The store object (`DatabaseCache`).  Its one field is the table the SQL
   * statements read and write; the JDBC connection per call is left out.
   */
  class Store {
    var rows: Table

    /** The private constructor: ensures the table exists on the database file. */
    constructor (disk: Option<Table>)
      ensures rows == CreateTableIfNotExists(disk)
    {
      rows := CreateTableIfNotExists(disk);
    }

    /** `get`: the stored value, or `None` (Java's `null`) when the key has no row. */
    method Get(key: string) returns (r: Option<string>)
      ensures r.Some? <==> key in rows
      ensures r.Some? ==> r.value == rows[key].value
    {
      if key in rows {
        r := Some(rows[key].value);
      } else {
        r := None;
      }
    }

    /** `put`: upsert `key` with `value`, stamped with the clock reading `now`. */
    method Put(key: string, value: string, now: int)
      modifies this
      ensures rows == Upsert(old(rows), key, value, now)
    {
      rows := rows[key := Row(value, now)];
    }

    /** `contains`: `get(key) != null`. */
    method Contains(key: string) returns (r: bool)
      ensures r <==> key in rows
    {
      var found := Get(key);
      r := found != None;
    }

    /** `clear`: delete every row, keep the table. */
    method Clear()
      modifies this
      ensures rows == DeleteAll(old(rows))
    {
      rows := map[];
    }
  }

  /**
   * The static part of `DatabaseCache`: the `instance` field that
   * `getInstance` fills lazily.  `disk` is what the database file holds when
   * the first instance is created.
   */
  class Registry {
    const disk: Option<Table>
    var instance: Store?

    /** Class loading: no instance yet. */
    constructor (disk: Option<Table>)
      ensures this.disk == disk && instance == null
    {
      this.disk := disk;
      instance := null;
    }

    /**
     * `getInstance`: the first call creates the store (and its table); every
     * later call returns that same store and creates nothing.
     */
    method GetInstance() returns (s: Store)
      modifies this
      ensures instance == s
      ensures old(instance) == null ==> fresh(s) && s.rows == CreateTableIfNotExists(disk)
      ensures old(instance) != null ==> s == old(instance)
    {
      if instance == null {
        instance := new Store(disk);
      }
      s := instance;
    }
  }

  /** Two calls of `getInstance` hand out one and the same store. */
  method GetInstanceTwice(reg: Registry) returns (a: Store, b: Store)
    modifies reg
    ensures a == b && reg.instance == a
    ensures old(reg.instance) != null ==> a == old(reg.instance)
  {
    a := reg.GetInstance();
    b := reg.GetInstance();
  }
}
