/** `AsyncStorage` as the screens use it: a map from keys to strings. A call
    that throws is a parameter of the handler that makes it. */
module Storage {
  import opened Seqs

  class Store {
    var items: map<string, string>

    constructor(initial: map<string, string>)
      ensures items == initial
    {
      items := initial;
    }

    /** What `getItem(key)` resolves to: the stored string, or `null`. */
    function Get(key: string): (r: Option<string>)
      reads this
      ensures r.Some? <==> key in items
      ensures r.Some? ==> r.value == items[key]
    {
      if key in items then Some(items[key]) else None
    }

    /** `setItem(key, value)`: that key now holds that value and no other key changes. */
    method SetItem(key: string, value: string)
      modifies this
      ensures items == old(items)[key := value]
      ensures Get(key) == Some(value)
      ensures forall k :: k != key ==> Get(k) == old(Get(k))
    {
      items := items[key := value];
    }
  }
}
