/** The browser's window.localStorage: a string-to-string map updated in place. */
module Browser {
  import opened Wrappers

  class LocalStorage {
    var items: map<string, string>

    constructor(initial: map<string, string>)
      ensures items == initial
    {
      items := initial;
    }

    /** localStorage.getItem(key): null when the key is absent. */
    function GetItem(key: string): (r: Option<string>)
      reads this
      ensures r.Some? <==> key in items
      ensures r.Some? ==> r.value == items[key]
    {
      if key in items then Some(items[key]) else None
    }

    method SetItem(key: string, value: string)
      modifies this
      ensures items == old(items)[key := value]
    {
      items := items[key := value];
    }

    method RemoveItem(key: string)
      modifies this
      ensures items == old(items) - {key}
    {
      items := items - {key};
    }
  }
}
