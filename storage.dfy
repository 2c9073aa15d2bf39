/** The browser's local storage, a process-wide key-value store of strings,
    and the two key names under which the session tokens live. */
module Storage {
  import opened Common

  type Store = map<string, string>

  /** The key names `ACCESS_KEY_TOKEN` and `REFRESH_KEY_TOKEN`. Their values are
      defined outside this model, so they are a parameter everywhere. */
  datatype Keys = Keys(access: string, refresh: string)

  /** The two names are different keys (as two distinct constants are). */
  predicate Distinct(keys: Keys)
  {
    keys.access != keys.refresh
  }

  /** `localStorage.getItem(key)`: null (None) for a missing key. */
  function GetItem(store: Store, key: string): (r: Option<string>)
    ensures r.Some? <==> key in store
    ensures r.Some? ==> r.value == store[key]
  {
    if key in store then Some(store[key]) else None
  }

  class LocalStorage {
    var items: Store

    constructor (initial: Store)
      ensures items == initial
    {
      items := initial;
    }

    function Get(key: string): Option<string>
      reads this
    {
      GetItem(items, key)
    }

    method SetItem(key: string, value: string)
      modifies this
      ensures items == old(items)[key := value]
    {
      items := items[key := value];
    }

    method Clear()
      modifies this
      ensures items == map[]
    {
      items := map[];
    }
  }
}
