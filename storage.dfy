/** The browser's `localStorage`: one mutable map from keys to strings. */
module Storage {
  import opened Wrappers

  class LocalStorage {
    var items: map<string, string>

    /** A fresh browser profile holds nothing. */
    constructor ()
      ensures items == map[]
    {
      items := map[];
    }

    /** `getItem` yields `null` for a key that was never set. */
    method GetItem(key: string) returns (v: Option<string>)
      ensures key in items ==> v == Some(items[key])
      ensures key !in items ==> v == None
    {
      v := if key in items then Some(items[key]) else None;
    }

    method SetItem(key: string, value: string)
      modifies this
      ensures items == old(items)[key := value]
    {
      items := items[key := value];
    }

    method RemoveItem(key: string)
      modifies this
      ensures items == old(items) - {key}
    {
      items := items - {key};
    }
  }
}
