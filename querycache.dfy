/**
 * The part of the query client that the user hooks change: one cache entry
 * per query key, holding the cached profile (None is `null`) and whether the
 * entry was invalidated. Only the effect of the three calls the hooks make is
 * modelled; fetching and refetch scheduling are not.
 */
module QueryCache {
  import opened Js

  type QueryKey = seq<string>

  datatype Entry = Entry(data: Option<User>, isInvalidated: bool)

  /** A filter key matches a query key when it is a prefix of it (partial key matching). */
  predicate Matches(filter: QueryKey, key: QueryKey)
  {
    |filter| <= |key| && key[..|filter|] == filter
  }

  /** The cache after invalidating every entry that `filter` matches: same keys and data, matching entries marked. */
  function Invalidated(c: map<QueryKey, Entry>, filter: QueryKey): (r: map<QueryKey, Entry>)
    ensures r.Keys == c.Keys
    ensures forall k :: k in r && Matches(filter, k) ==> r[k] == c[k].(isInvalidated := true)
    ensures forall k :: k in r && !Matches(filter, k) ==> r[k] == c[k]
  {
    map k | k in c :: if Matches(filter, k) then c[k].(isInvalidated := true) else c[k]
  }

  /** The cache after removing every entry that `filter` matches: exactly the other entries remain, unchanged. */
  function Removed(c: map<QueryKey, Entry>, filter: QueryKey): (r: map<QueryKey, Entry>)
    ensures forall k :: k in r <==> k in c && !Matches(filter, k)
    ensures forall k :: k in r ==> r[k] == c[k]
  {
    map k | k in c && !Matches(filter, k) :: c[k]
  }

  class QueryClient {
    var cache: map<QueryKey, Entry>

    constructor ()
      ensures cache == map[]
    {
      cache := map[];
    }

    /** getQueryData(key): the cached data, None when it is null or the entry is absent. */
    function Data(key: QueryKey): Option<User>
      reads this
    {
      if key in cache then cache[key].data else None
    }

    /** setQueryData(key, data): the entry holds `data` and is no longer invalidated. */
    method SetQueryData(key: QueryKey, data: Option<User>)
      modifies this
      ensures cache == old(cache)[key := Entry(data, false)]
    {
      cache := cache[key := Entry(data, false)];
    }

    /** invalidateQueries({queryKey: filter}) */
    method InvalidateQueries(filter: QueryKey)
      modifies this
      ensures cache == Invalidated(old(cache), filter)
    {
      cache := Invalidated(cache, filter);
    }

    /** removeQueries({queryKey: filter}) */
    method RemoveQueries(filter: QueryKey)
      modifies this
      ensures cache == Removed(old(cache), filter)
    {
      cache := Removed(cache, filter);
    }
  }
}
