/** A stand-in for react-query's query client, reduced to the operations the
    hooks call: `getQueryData`, `setQueryData` (with a value or with an
    updater), `invalidateQueries` and `cancelQueries`. */
module QueryCache {
  import opened JsValue

  /** A query key in its array form; the string key `"super-heroes"` is the
      one-element key `["super-heroes"]`. */
  type QueryKey = seq<string>

  class QueryClient {
    /** The data cached under each key. */
    var entries: map<QueryKey, Json>
    /** The keys whose data has been marked stale by `invalidateQueries`. */
    var stale: set<QueryKey>
    /** The keys with a fetch in progress, which `cancelQueries` stops.
        Fetches are started by the library, which is not modelled, so no
        operation here adds to this set; it stands for the library's state. */
    var fetching: set<QueryKey>

    constructor ()
      ensures entries == map[] && stale == {} && fetching == {}
    {
      entries := map[];
      stale := {};
      fetching := {};
    }

    /** `getQueryData(key)`: the cached data, `undefined` when there is none. */
    function GetQueryData(key: QueryKey): (r: Option<Json>)
      reads this
      ensures r.Some? <==> key in entries
      ensures r.Some? ==> entries[key] == r.value
    {
      if key in entries then Some(entries[key]) else None
    }

    /** `setQueryData(key, data)`: stores `data` as fresh data for `key`;
        storing `undefined` leaves `getQueryData(key)` undefined. */
    method SetQueryData(key: QueryKey, data: Option<Json>)
      modifies this
      ensures GetQueryData(key) == data
      ensures entries == if data.Some? then old(entries)[key := data.value] else old(entries) - {key}
      ensures stale == old(stale) - {key}
      ensures fetching == old(fetching)
    {
      entries := if data.Some? then entries[key := data.value] else entries - {key};
      stale := stale - {key};
    }

    /** `setQueryData(key, updater)`: applies `updater` to the current data
        and stores what it returns. When the updater throws, the exception
        propagates to the caller and nothing is stored. */
    method UpdateQueryData(key: QueryKey, updater: Option<Json> -> Result<Json>) returns (r: Result<Json>)
      modifies this
      ensures r == updater(old(GetQueryData(key)))
      ensures r.Ok? ==> entries == old(entries)[key := r.value] && stale == old(stale) - {key}
      ensures r.TypeError? ==> entries == old(entries) && stale == old(stale)
      ensures fetching == old(fetching)
    {
      r := updater(GetQueryData(key));
      if r.Ok? {
        SetQueryData(key, Some(r.value));
      }
    }

    /** `invalidateQueries(key)`: marks the data for `key` stale, which is
        what makes the library refetch it; the cached data stays. */
    method InvalidateQueries(key: QueryKey)
      modifies this
      ensures stale == old(stale) + {key}
      ensures entries == old(entries) && fetching == old(fetching)
    {
      stale := stale + {key};
    }

    /** `cancelQueries(key)`: stops any fetch in progress for `key`, so that
        its result can no longer overwrite the cache; the cached data stays. */
    method CancelQueries(key: QueryKey)
      modifies this
      ensures fetching == old(fetching) - {key}
      ensures entries == old(entries) && stale == old(stale)
    {
      fetching := fetching - {key};
    }
  }
}
