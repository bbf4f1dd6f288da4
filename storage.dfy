/** The browser state the storefront touches directly: `localStorage`, a
    map from keys to strings, and the address in `window.location.href`. */
module Storage {
  import opened Wrappers

  class Browser {
    var storage: map<string, string>
    var href: string

    constructor (storage: map<string, string>, href: string)
      ensures this.storage == storage && this.href == href
    {
      this.storage := storage;
      this.href := href;
    }

    /** `localStorage.getItem(key)`, with `null` as `None`. */
    function GetItem(key: string): (v: Option<string>)
      reads this
      ensures v.Some? <==> key in storage
      ensures v.Some? ==> v.value == storage[key]
    {
      if key in storage then Some(storage[key]) else None
    }

    /** `localStorage.setItem(key, value)` */
    method SetItem(key: string, value: string)
      modifies this
      ensures storage == old(storage)[key := value] && href == old(href)
    {
      storage := storage[key := value];
    }

    /** `localStorage.removeItem(key)`; removing an absent key changes nothing. */
    method RemoveItem(key: string)
      modifies this
      ensures storage == old(storage) - {key} && href == old(href)
    {
      storage := storage - {key};
    }
  }
}
