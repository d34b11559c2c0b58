/** The home page's draft route: the `routeItems` state, loaded fail-soft
    from local storage when the page is created, written back to storage on
    every change, and shrunk by the route pop-up's delete buttons after a
    confirmation. The confirmation dialog's answer and the storage's
    failures are inputs. */
module HomePage {
  import opened Lists
  import opened Artworks
  import opened DraftStore

  /** The `useState` initialiser of `routeItems`, as a function of whether
      there is a `window` and of what `getItem('routeItems')` did. Without a
      window, when the read throws, when the key is absent and when the
      stored text is empty or does not parse, the list is empty. Otherwise
      it is the stored list. */
  function InitialRouteItems(hasWindow: bool, read: Access<Option<Stored>>): (items: seq<Artwork>)
    ensures items != [] ==> hasWindow && read == Returned(Some(Serialized(items)))
    ensures hasWindow && read.Returned? && read.value.Some? && read.value.value.Serialized? ==>
              items == read.value.value.items
  {
    if !hasWindow then []
    else
      match read
      case Threw => []
      case Returned(None) => []
      case Returned(Some(Unparsable(_))) => []
      case Returned(Some(Serialized(items))) => items
  }

  /** What the route pop-up's delete button did. */
  datatype RemoveResult =
    | Removed         // the id was there and the user confirmed
    | Declined        // the id was there and the user cancelled
    | AlreadyRemoved  // the id was not there: only an alert is shown

  class Home {
    var routeItems: seq<Artwork>
    const store: LocalStore
    const hasWindow: bool

    /** The store's `routeItems` entry holds the current list. */
    ghost predicate Persisted()
      reads this, store
    {
      RouteItemsKey in store.entries && store.entries[RouteItemsKey] == Serialized(routeItems)
    }

    /** The first render reads the draft; the write-through effect then runs
        once on mount and stores the list it read (so a corrupt entry is
        replaced by the empty list). `fits` says whether that write fits. */
    constructor (store: LocalStore, hasWindow: bool, fits: bool)
      modifies store
      ensures this.store == store && this.hasWindow == hasWindow
      ensures routeItems ==
        InitialRouteItems(hasWindow, if store.accessible then Returned(Lookup(old(store.entries), RouteItemsKey)) else Threw)
      ensures store.entries ==
        if hasWindow && store.accessible && fits then old(store.entries)[RouteItemsKey := Serialized(routeItems)]
        else old(store.entries)
    {
      var read: Access<Option<Stored>> := Threw;
      if hasWindow {
        read := store.GetItem(RouteItemsKey);
      }
      this.store := store;
      this.hasWindow := hasWindow;
      routeItems := InitialRouteItems(hasWindow, read);
      new;
      WriteThrough(fits);
    }

    /** The effect on `[routeItems]`: store the list under `'routeItems'`. A
        write that throws is logged and swallowed: the store keeps what it
        had, and the list in memory is untouched either way. */
    method WriteThrough(fits: bool)
      modifies store
      ensures store.entries ==
        if hasWindow && store.accessible && fits then old(store.entries)[RouteItemsKey := Serialized(routeItems)]
        else old(store.entries)
      ensures hasWindow && store.accessible && fits ==> Persisted()
    {
      if !hasWindow {
        return;
      }
      var _ := store.SetItem(RouteItemsKey, Serialized(routeItems), fits);
    }

    /** `setRouteItems` followed by the write-through effect: the new list
        replaces the old one and is written through to storage. Within this
        page the only caller is the pop-up's delete button. */
    method SetRouteItems(items: seq<Artwork>, fits: bool)
      modifies this, store
      ensures routeItems == items
      ensures store.entries ==
        if hasWindow && store.accessible && fits then old(store.entries)[RouteItemsKey := Serialized(items)]
        else old(store.entries)
      ensures hasWindow && store.accessible && fits ==> Persisted()
    {
      routeItems := items;
      WriteThrough(fits);
    }

    /** The pop-up's delete button for the entry with id `id`. When the id
        is in the list the user is asked; a confirmation removes every entry
        with that id (keeping the rest in order) and writes through, a
        refusal changes nothing. When the id is not in the list nothing
        changes and an alert is shown. */
    method RemoveWithConfirm(id: ArtworkId, confirmed: bool, fits: bool) returns (result: RemoveResult)
      modifies this, store
      ensures result == if id !in IdsOf(old(routeItems)) then AlreadyRemoved else if confirmed then Removed else Declined
      ensures result == Removed ==> routeItems == RemoveId(old(routeItems), id)
      ensures result == Removed ==>
                (store.entries == if hasWindow && store.accessible && fits
                                  then old(store.entries)[RouteItemsKey := Serialized(routeItems)]
                                  else old(store.entries))
      ensures result != Removed ==> routeItems == old(routeItems) && store.entries == old(store.entries)
    {
      if id in IdsOf(routeItems) {
        if confirmed {
          SetRouteItems(RemoveId(routeItems, id), fits);
          result := Removed;
        } else {
          result := Declined;
        }
      } else {
        result := AlreadyRemoved;
      }
    }
  }
}
