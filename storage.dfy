/** The browser's `localStorage`: one shared string-to-string store that
    `setItem` writes, `getItem` reads and `removeItem` deletes from. */
module Storage {
  import opened Wrappers

  /** `getItem` on a plain map: the stored string, or `null`. */
  function Lookup(m: map<string, string>, key: string): Option<string> {
    if key in m then Some(m[key]) else None
  }

  class LocalStorage {
    var items: map<string, string>

    /** The store as the page finds it: whatever an earlier visit left. */
    constructor (persisted: map<string, string>)
      ensures items == persisted
    {
      items := persisted;
    }

    method GetItem(key: string) returns (v: Option<string>)
      ensures key in items ==> v == Some(items[key])
      ensures key !in items ==> v == None
    {
      v := Lookup(items, key);
    }

    method SetItem(key: string, value: string)
      modifies this
      ensures items == old(items)[key := value]
    {
      items := items[key := value];
    }

    method RemoveItem(key: string)
      modifies this
      ensures items == old(items) - {key}
    {
      items := items - {key};
    }
  }
}
