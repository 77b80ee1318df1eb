/** Cache-backed loading of a named collection (`useCachedData`) and lookup of
    one cached record by id (`getCachedItemById`). */
module CacheService {
  import opened Wrappers
  import opened JsValues
  import opened Storage

  /** What NetInfo reports; `isConnected` may be `null` when unknown. */
  datatype NetState = NetState(isConnected: Option<bool>)

  /** `if (net.isConnected)`: only a reported `true` counts as online. */
  predicate Online(net: NetState)
  {
    net.isConnected == Some(true)
  }

  /** The state one `useCachedData` hook holds for a cache key, with the
      store it reads and writes. */
  class CachedData {
    const cacheKey: string
    const store: Store<Cached>
    var data: seq<JsObject>
    var loading: bool
    var offline: bool
    var error: Option<JsError>

    constructor (cacheKey: string, store: Store<Cached>)
      ensures this.cacheKey == cacheKey && this.store == store
      ensures data == [] && loading && !offline && error == None
    {
      this.cacheKey := cacheKey;
      this.store := store;
      data, loading, offline, error := [], true, false, None;
    }

    /** The connectivity listener: `offline` is the negation of what was
        last reported. */
    method OnConnectivityChange(state: NetState)
      modifies this`offline
      ensures offline == !Online(state)
    {
      offline := !Online(state);
    }

    /** One run of `load`. `net` is what NetInfo reports, `fetched` what the
        fetcher resolves or rejects with, `writeError` a failure of the cache
        write, and `active` whether the hook is still mounted. The result
        says whether the fetcher was invoked. */
    method Load(net: NetState, fetched: Result<seq<JsObject>, JsError>,
                writeError: Option<JsError>, active: bool)
      returns (fetcherCalled: bool)
      modifies this`data, this`loading, this`error, store
      ensures fetcherCalled == Online(net)
      ensures loading == !active
      // online, fetched, mounted, written: fresh data, and the cache holds exactly it
      ensures Online(net) && fetched.Ok? && active && writeError.None? ==>
                && data == fetched.value && error == old(error)
                && store.entries == old(store.entries)[cacheKey := Json(fetched.value)]
      // no other path writes the cache
      ensures !(Online(net) && fetched.Ok? && active && writeError.None?) ==>
                store.entries == old(store.entries)
      // fetched but unmounted: nothing is touched
      ensures Online(net) && fetched.Ok? && !active ==> data == old(data) && error == old(error)
      // fetched but the write threw: the error is kept and the old cache, if any, wins
      ensures Online(net) && fetched.Ok? && active && writeError.Some? ==>
                && error == writeError
                && data == OrCached(CachedList(old(store.entries), cacheKey), fetched.value)
      // the fetch threw: the error is kept and the cache, if any, is shown
      ensures Online(net) && fetched.Err? ==>
                && error == Some(fetched.error)
                && data == OrCached(CachedList(old(store.entries), cacheKey), old(data))
      // offline: the cache, if any, is shown
      ensures !Online(net) ==>
                && error == old(error)
                && data == OrCached(CachedList(old(store.entries), cacheKey), old(data))
    {
      loading := true;
      fetcherCalled := false;
      var failure: Option<JsError> := None;
      if Online(net) {
        fetcherCalled := true;
        if fetched.Err? {
          failure := Some(fetched.error);
        } else {
          if !active {
            return;
          }
          data := fetched.value;
          if writeError.None? {
            store.SetItem(cacheKey, Json(fetched.value));
          } else {
            failure := writeError;
          }
        }
      } else {
        var cached := store.GetItem(cacheKey);
        if cached.Some? && cached.value.Json? {
          data := cached.value.items;
        }
      }
      if failure.Some? {
        error := failure;
        var cached := store.GetItem(cacheKey);
        if cached.Some? && cached.value.Json? {
          data := cached.value.items;
        }
      }
      if active {
        loading := false;
      }
    }
  }

  /** `String(item[idField]) === String(id)`. */
  predicate IdMatches(item: JsObject, idField: string, id: JsValue)
  {
    ToJsString(Field(item, idField)) == ToJsString(id)
  }

  /** `items.find(...)`, as the index of the first match. */
  function FindFirst(items: seq<JsObject>, idField: string, id: JsValue): (r: Option<nat>)
    ensures r.Some? ==> r.value < |items| && IdMatches(items[r.value], idField, id)
    ensures r.Some? ==> forall j :: 0 <= j < r.value ==> !IdMatches(items[j], idField, id)
    ensures r.None? ==> forall j :: 0 <= j < |items| ==> !IdMatches(items[j], idField, id)
  {
    if items == [] then None
    else if IdMatches(items[0], idField, id) then Some(0)
    else
      match FindFirst(items[1..], idField, id)
      case None => None
      case Some(k) => Some(k + 1)
  }

  /** `getCachedItemById` over the store's current entries: `null` when the
      entry is missing or empty, otherwise the first cached record whose id
      field converts to the same string as `id`, or `null` if none does. */
  function GetCachedItemById(entries: map<string, Cached>, cacheKey: string,
                             id: JsValue, idField: string): (r: Option<JsObject>)
    ensures CachedList(entries, cacheKey).None? ==> r.None?
    ensures r.Some? ==> && CachedList(entries, cacheKey).Some?
                        && r.value in CachedList(entries, cacheKey).value
                        && IdMatches(r.value, idField, id)
    ensures r.Some? ==>
              var items := CachedList(entries, cacheKey).value;
              exists i :: 0 <= i < |items| && items[i] == r.value
                          && forall j :: 0 <= j < i ==> !IdMatches(items[j], idField, id)
    ensures r.None? && CachedList(entries, cacheKey).Some? ==>
              forall item :: item in CachedList(entries, cacheKey).value ==> !IdMatches(item, idField, id)
  {
    match CachedList(entries, cacheKey)
    case None => None
    case Some(items) =>
      match FindFirst(items, idField, id)
      case None => None
      case Some(i) => Some(items[i])
  }

  /** Because both sides go through `String(...)`, a numeric id field is
      found by the id's decimal string as well as by the number. */
  lemma NumericFieldMatchesDecimalString(item: JsObject, idField: string, n: int)
    requires Field(item, idField) == Num(n)
    ensures IdMatches(item, idField, Num(n))
    ensures IdMatches(item, idField, Str(DecimalString(n)))
  {
  }

  /** Numeric ids match by numeric equality. */
  lemma NumericIdsMatchByValue(item: JsObject, idField: string, a: int, b: int)
    requires Field(item, idField) == Num(a)
    ensures IdMatches(item, idField, Num(b)) <==> a == b
  {
    if IdMatches(item, idField, Num(b)) {
      DecimalStringInjective(a, b);
    }
  }
}
