/** The device key/value stores (AsyncStorage, SecureStore) as maps. */
module Storage {
  import opened Wrappers
  import opened JsValues

  /** A value stored under a list-cache key. `Json(items)` is the serialised
      list (serialising and parsing are the identity here); `Blank` is an
      empty string left under the key, which the source reads as falsy. */
  datatype Cached = Blank | Json(items: seq<JsObject>)

  function Lookup<V>(m: map<string, V>, key: string): (r: Option<V>)
    ensures r.Some? <==> key in m
    ensures r.Some? ==> r.value == m[key]
  {
    if key in m then Some(m[key]) else None
  }

  /** The list a truthy cache entry parses to, if there is one. */
  function CachedList(m: map<string, Cached>, key: string): (r: Option<seq<JsObject>>)
    ensures r.Some? <==> key in m && m[key].Json?
    ensures r.Some? ==> m[key] == Json(r.value)
  {
    if key in m && m[key].Json? then Some(m[key].items) else None
  }

  /** `cached ? parsed : current`, the fallback the loaders apply. */
  function OrCached(cached: Option<seq<JsObject>>, current: seq<JsObject>): seq<JsObject>
  {
    if cached.Some? then cached.value else current
  }

  /** A persistent string-keyed store. */
  class Store<V> {
    var entries: map<string, V>

    constructor (initial: map<string, V>)
      ensures entries == initial
    {
      entries := initial;
    }

    method GetItem(key: string) returns (v: Option<V>)
      ensures v == Lookup(entries, key)
    {
      v := if key in entries then Some(entries[key]) else None;
    }

    method SetItem(key: string, value: V)
      modifies this
      ensures entries == old(entries)[key := value]
    {
      entries := entries[key := value];
    }

    method RemoveItem(key: string)
      modifies this
      ensures entries == old(entries) - {key}
    {
      entries := entries - {key};
    }
  }
}
