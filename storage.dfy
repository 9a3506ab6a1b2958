/** The browser's `localStorage`: a string-keyed store of strings that the auth screens
    read, write and clear in sequence. */
module Storage {
  import opened Common

  /** `getItem(key)` on a store holding `items`: `null` (here `None`) when the key is
      absent. */
  function ItemOf(items: map<string, string>, key: string): (r: Option<string>)
    ensures r.Some? <==> key in items
    ensures r.Some? ==> r.value == items[key]
  {
    if key in items then Some(items[key]) else None
  }

  class LocalStorage {
    var items: map<string, string>

    constructor (initial: map<string, string>)
      ensures items == initial
    {
      items := initial;
    }

    /** `getItem(key)` on the current contents. */
    function Item(key: string): (r: Option<string>)
      reads this
      ensures r.Some? <==> key in items
      ensures r.Some? ==> r.value == items[key]
    {
      ItemOf(items, key)
    }

    method GetItem(key: string) returns (r: Option<string>)
      ensures r == Item(key)
    {
      r := Item(key);
    }

    method SetItem(key: string, value: string)
      modifies this
      ensures items == old(items)[key := value]
    {
      items := items[key := value];
    }

    method RemoveItem(key: string)
      modifies this
      ensures items == old(items) - {key}
    {
      items := items - {key};
    }
  }
}
