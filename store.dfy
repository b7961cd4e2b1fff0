/**
 * The trip store: the content of `viajes_data.json`, one entry per user, each entry that
 * user's trips. `load_data(u)` reads one entry, `save_data(u, d)` reads the whole store,
 * replaces that entry and writes the whole store back.
 */
module TripStore {
  import opened Trips

  type UserId = int

  /** The whole JSON document, keyed by user. A user without an entry has no trips. */
  type Db = map<UserId, TripMap>

  /** `load_data(u)`: the user's entry, or the empty dict. */
  function LoadFrom(db: Db, u: UserId): (r: TripMap)
    ensures u in db ==> r == db[u]
    ensures u !in db ==> r == []
  {
    if u in db then db[u] else []
  }

  /** The store after `save_data(u, d)`. */
  function SaveTo(db: Db, u: UserId, d: TripMap): (r: Db)
    ensures u in r && r.Keys == db.Keys + {u}
    ensures r[u] == d && forall v :: v in db && v != u ==> r[v] == db[v]
  {
    db[u := d]
  }

  /** Saving is read back by loading, and no other user's entry moves. */
  lemma LoadAfterSave(db: Db, u: UserId, d: TripMap, v: UserId)
    ensures LoadFrom(SaveTo(db, u, d), u) == d
    ensures v != u ==> LoadFrom(SaveTo(db, u, d), v) == LoadFrom(db, v)
  {
  }

  /** A user the store has never seen loads as the empty dict. */
  lemma LoadUnknown(db: Db, u: UserId)
    requires u !in db
    ensures LoadFrom(db, u) == []
  {
  }

  /** The store as a mutable object; the JSON file itself is not modelled. */
  class Store {
    var db: Db

    constructor (initial: Db)
      ensures db == initial
    {
      db := initial;
    }

    /** `load_data(u)` on the current content of the store. */
    function Load(u: UserId): (r: TripMap)
      reads this
      ensures u in db ==> r == db[u]
      ensures u !in db ==> r == []
    {
      LoadFrom(db, u)
    }

    /** `save_data(u, d)`: read everything, replace one entry, write everything. */
    method Save(u: UserId, d: TripMap)
      modifies this
      ensures db == SaveTo(old(db), u, d)
      ensures Load(u) == d
      ensures forall v :: v != u ==> Load(v) == old(Load(v))
    {
      var all := db;
      all := all[u := d];
      db := all;
    }
  }
}
