/** The browser's local storage as the route pages use it: a string-keyed
    store whose `routeItems` entry holds the draft route. `JSON.stringify` and
    `JSON.parse` are abstract: a stored value is either the serialisation of
    a list of artworks or a text that does not parse. */
module DraftStore {
  import opened Lists
  import opened Artworks

  const RouteItemsKey: string := "routeItems"

  /** A stored string: the JSON of an artwork list, or some other text that
      `JSON.parse` rejects. `Unparsable("")` is the empty string, the one
      stored value JavaScript treats as false. */
  datatype Stored = Serialized(items: seq<Artwork>) | Unparsable(text: string)

  /** How a storage call ended: it returned a value, or it threw (storage
      disabled, quota exceeded). */
  datatype Access<T> = Returned(value: T) | Threw

  /** How an event handler or effect ended: normally, or with an uncaught
      exception that reaches React. */
  datatype Completion = Normal | Thrown

  /** What `getItem(key)` returns when it does not throw: the stored value,
      or `null`. */
  function Lookup(entries: map<string, Stored>, key: string): (v: Option<Stored>)
    ensures v.Some? <==> key in entries
    ensures v.Some? ==> entries[key] == v.value
  {
    if key in entries then Some(entries[key]) else None
  }

  class LocalStore {
    var entries: map<string, Stored>
    /** False when the browser denies access to storage: then every call throws. */
    const accessible: bool

    constructor (entries: map<string, Stored>, accessible: bool)
      ensures this.entries == entries && this.accessible == accessible
    {
      this.entries := entries;
      this.accessible := accessible;
    }

    /** `localStorage.getItem(key)`. */
    method GetItem(key: string) returns (r: Access<Option<Stored>>)
      ensures r == if accessible then Returned(Lookup(entries, key)) else Threw
    {
      if !accessible {
        return Threw;
      }
      r := Returned(Lookup(entries, key));
    }

    /** `localStorage.setItem(key, value)`; `fits` says whether the value
        fits in the quota. A call that throws stores nothing. */
    method SetItem(key: string, value: Stored, fits: bool) returns (r: Access<()>)
      modifies this
      ensures r == if accessible && fits then Returned(()) else Threw
      ensures entries == if r.Returned? then old(entries)[key := value] else old(entries)
    {
      if !accessible || !fits {
        return Threw;
      }
      entries := entries[key := value];
      r := Returned(());
    }
  }
}
