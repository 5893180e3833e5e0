/** The browser's key-value stores (`localStorage`, `sessionStorage`) seen
    through `JSON.stringify`/`JSON.parse`: a key holds a serialised list of
    records, the empty string, or other text that does not parse back into a
    list. Every reader tests the value with `if (value)` before parsing it, so
    the empty string is read exactly like a missing key. */
module BrowserStorage {

  datatype Stored<T> = Serialized(items: seq<T>) | Blank | Unparseable

  class KeyValueStore<T(==)> {
    var entries: map<string, Stored<T>>

    constructor (initial: map<string, Stored<T>>)
      ensures entries == initial
    {
      entries := initial;
    }

    /** `getItem(key)`: the stored value, or nothing when the key is absent. */
    method GetItem(key: string) returns (v: Stored<T>, present: bool)
      ensures present <==> key in entries
      ensures present ==> v == entries[key]
    {
      present := key in entries;
      if present {
        v := entries[key];
      } else {
        v := Unparseable;
      }
    }

    /** `setItem(key, JSON.stringify(items))`. */
    method SetItem(key: string, items: seq<T>)
      modifies this
      ensures entries == old(entries)[key := Serialized(items)]
    {
      entries := entries[key := Serialized(items)];
    }

    /** `removeItem(key)`. */
    method RemoveItem(key: string)
      modifies this
      ensures entries == old(entries) - {key}
    {
      entries := entries - {key};
    }
  }
}
