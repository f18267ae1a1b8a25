/** The browser's `localStorage`, shared by the session provider (which writes
    the ID token) and the enrichment form (which reads it). */
module Browser {
  import opened Wrappers

  /** The storage key under which the session's ID token is kept. */
  const IdTokenKey: string := "idToken"

  class LocalStorage {
    var items: map<string, string>

    constructor ()
      ensures items == map[]
    {
      items := map[];
    }

    /** `getItem(key)`: the stored value, or null (None) when the key is absent. */
    function GetItem(key: string): (r: Option<string>)
      reads this
      ensures r.Some? <==> key in items
      ensures r.Some? ==> r.value == items[key]
    {
      if key in items then Some(items[key]) else None
    }

    /** `setItem(key, value)`: stores `value` under `key`, replacing any old value. */
    method SetItem(key: string, value: string)
      modifies this
      ensures items == old(items)[key := value]
    {
      items := items[key := value];
    }

    /** `removeItem(key)`: forgets `key`; an absent key is no error. */
    method RemoveItem(key: string)
      modifies this
      ensures items == old(items) - {key}
    {
      items := items - {key};
    }
  }
}
