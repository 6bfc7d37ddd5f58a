/**
 * The browser's key/value stores as the data layer sees them. `localStorage`
 * holds cache envelopes `{data, timestamp}` written by `setCache`, raw strings
 * written by `setItem` (the daily visit guards), or text that does not parse.
 * `sessionStorage` holds plain strings.
 */
module Storage {
  import opened Wrappers
  import opened Entities

  /** What a cache envelope can hold: the values the accessors cache. */
  datatype Payload =
    | ConfigData(config: SchoolConfig)
    | PostList(posts: seq<Post>)
    | StaffList(staff: seq<StaffMember>)
    | MenuList(items: seq<MenuItem>)

  /** One stored string, seen through `JSON.parse`. */
  datatype Entry =
    | Envelope(data: Payload, timestamp: int)   // `{data, timestamp}` written by setCache
    | Raw(text: string)                          // a plain string written by setItem
    | Corrupt                                    // text that `JSON.parse` rejects

  /** `localStorage.getItem(key)` is truthy: present and not the empty string. */
  predicate ItemTruthy(items: map<string, Entry>, key: string) {
    key in items && (items[key].Raw? ==> items[key].text != "")
  }

  /**
   * `getCache`: the envelope's `data`, or nothing when the key is absent or
   * its text does not parse as an envelope (a raw string parses to a value
   * without a `data` field, corrupt text throws and is caught).
   */
  function CacheLookup(items: map<string, Entry>, key: string): Option<Payload> {
    if key in items && items[key].Envelope? then Some(items[key].data) else None
  }

  /** `getCache(k)` after a successful `setCache(k, v)` returns `v`, at any time later. */
  lemma CacheRoundTrip(items: map<string, Entry>, key: string, v: Payload, now: int)
    ensures CacheLookup(items[key := Envelope(v, now)], key) == Some(v)
  {
  }

  /** An absent, raw or corrupt entry reads as no cached value. */
  lemma CacheMissFailsSoft(items: map<string, Entry>, key: string)
    requires key !in items || items[key].Raw? || items[key].Corrupt?
    ensures CacheLookup(items, key).None?
  {
  }

  /** Writing or removing one key does not change what any other key reads as. */
  lemma CacheKeysIndependent(items: map<string, Entry>, key: string, other: string, e: Entry)
    requires key != other
    ensures CacheLookup(items[key := e], other) == CacheLookup(items, other)
    ensures CacheLookup(items - {key}, other) == CacheLookup(items, other)
    ensures ItemTruthy(items[key := e], other) == ItemTruthy(items, other)
  {
  }

  class LocalStorage {
    var items: map<string, Entry>

    constructor (init: map<string, Entry>)
      ensures items == init
    {
      items := init;
    }

    /**
     * `setCache(key, data)` at time `now`. `accepted` is the store's verdict
     * on the write: a refused write (quota, disabled storage) is swallowed
     * and leaves the store as it was.
     */
    method SetCache(key: string, data: Payload, now: int, accepted: bool)
      modifies this
      ensures items == if accepted then old(items)[key := Envelope(data, now)] else old(items)
    {
      if accepted {
        items := items[key := Envelope(data, now)];
      }
    }

    /** `getCache(key)`: never throws; absent and unparsable entries read as nothing. */
    method GetCache(key: string) returns (r: Option<Payload>)
      ensures r == CacheLookup(items, key)
      ensures r.Some? <==> key in items && items[key].Envelope?
    {
      if key in items {
        match items[key]
        case Envelope(d, _) => r := Some(d);
        case Raw(_) => r := None;
        case Corrupt => r := None;
      } else {
        r := None;
      }
    }

    /** `!!localStorage.getItem(key)`. */
    method GetItem(key: string) returns (present: bool)
      ensures present == ItemTruthy(items, key)
    {
      present := key in items && (items[key].Raw? ==> items[key].text != "");
    }

    /** `localStorage.setItem(key, text)`; a refused write changes nothing. */
    method SetItem(key: string, text: string, accepted: bool)
      modifies this
      ensures items == if accepted then old(items)[key := Raw(text)] else old(items)
    {
      if accepted {
        items := items[key := Raw(text)];
      }
    }

    /** `localStorage.removeItem(key)`: idempotent. */
    method RemoveItem(key: string)
      modifies this
      ensures items == old(items) - {key}
      ensures CacheLookup(items, key).None?
    {
      items := items - {key};
    }
  }

  class SessionStorage {
    var items: map<string, string>

    constructor (init: map<string, string>)
      ensures items == init
    {
      items := init;
    }

    /** `sessionStorage.getItem(key)`, with the missing key as `None`. */
    method GetItem(key: string) returns (r: Option<string>)
      ensures r.Some? <==> key in items
      ensures r.Some? ==> r.value == items[key]
    {
      r := if key in items then Some(items[key]) else None;
    }

    /** `sessionStorage.setItem(key, value)`; `accepted` is false when the store throws. */
    method SetItem(key: string, value: string, accepted: bool)
      modifies this
      ensures items == if accepted then old(items)[key := value] else old(items)
    {
      if accepted {
        items := items[key := value];
      }
    }
  }
}
