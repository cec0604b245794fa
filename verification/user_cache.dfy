/**
 * The owner lookup: the `users` table as a partial map from id to user,
 * and the process-wide memo in front of it, with a count of the queries
 * that reach the table.
 */
module UserCache {
  import opened Wrappers

  type UserId = string

  datatype User = User(id: UserId, name: string)

  /** The `users` table, keyed by id. */
  type Table = map<UserId, User>

  /** The memo: users already fetched in this run. */
  type Cache = map<UserId, User>

  /** The memo holds nothing the table does not say. */
  predicate CacheAgrees(cache: Cache, db: Table)
  {
    forall id :: id in cache ==> id in db && cache[id] == db[id]
  }

  /** The user found (None where the query returned no row), the memo and the query count afterwards. */
  datatype Lookup = Lookup(user: Option<User>, cache: Cache, queries: nat)

  /**
   * `get_user(id)`: a memo hit answers without a query; a miss queries
   * the table once and memoises the row when there is one. No row means
   * `res[0]` fails, and nothing is memoised.
   */
  function GetUser(db: Table, cache: Cache, queries: nat, id: UserId): (r: Lookup)
    ensures r.queries == (if id in cache then queries else queries + 1)
    ensures r.user.Some? <==> id in cache || id in db
    ensures r.user.Some? ==> id in r.cache && r.cache[id] == r.user.value
    ensures r.cache.Keys == (if r.user.Some? then cache.Keys + {id} else cache.Keys)
    ensures forall k :: k in cache ==> k in r.cache && r.cache[k] == cache[k]
    ensures id in cache ==> r.user == Some(cache[id])
    ensures id !in cache ==> r.user == (if id in db then Some(db[id]) else None)
    ensures CacheAgrees(cache, db) ==>
              CacheAgrees(r.cache, db) && r.user == (if id in db then Some(db[id]) else None)
  {
    if id in cache then Lookup(Some(cache[id]), cache, queries)
    else if id in db then Lookup(Some(db[id]), cache[id := db[id]], queries + 1)
    else Lookup(None, cache, queries + 1)
  }

  /** A second lookup of the same id returns the same user, leaves the memo alone, and queries nothing. */
  lemma GetUserMemoises(db: Table, cache: Cache, queries: nat, id: UserId)
    requires GetUser(db, cache, queries, id).user.Some?
    ensures var r := GetUser(db, cache, queries, id);
            GetUser(db, r.cache, r.queries, id) == r
  {
  }
}
