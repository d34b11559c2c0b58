/** The route preview page: it loads the draft from local storage once, with
    no guard against bad data, and lets the user delete entries by id and
    reorder them by drag and drop. Its changes are not written back to
    storage. dnd-kit's `arrayMove(list, from, to)` is taken to be the
    remove-then-insert `Move`. */
module AddPathPage {
  import opened Lists
  import opened Artworks
  import opened DraftStore
  import HomePage

  /** What the load effect does with the result of `getItem('routeItems')`. */
  datatype LoadEffect =
    | KeepList                     // nothing stored, or the empty string
    | ReplaceList(items: seq<Artwork>)
    | Throws                       // the read threw, or `JSON.parse` did

  /** `const saved = getItem(...); if (saved) setRouteItems(JSON.parse(saved))`,
      with neither call guarded. A stored list replaces the current one; an
      absent entry or an empty string keeps it; a failing read and a text
      that does not parse throw. */
  function PreviewLoad(read: Access<Option<Stored>>): (e: LoadEffect)
    ensures e.ReplaceList? <==> read.Returned? && read.value.Some? && read.value.value.Serialized?
    ensures e.ReplaceList? ==> read.value.value.items == e.items
    ensures e == Throws <==> read == Threw || (read.value.Some? && read.value.value.Unparsable? && read.value.value.text != "")
  {
    match read
    case Threw => Throws
    case Returned(None) => KeepList
    case Returned(Some(Serialized(items))) => ReplaceList(items)
    case Returned(Some(Unparsable(text))) => if text == "" then KeepList else Throws
  }

  /** What the home page writes through, the preview loads back, and a reload
      of the home page reads back too. */
  lemma DraftRoundTrip(entries: map<string, Stored>, items: seq<Artwork>)
    ensures PreviewLoad(Returned(Lookup(entries[RouteItemsKey := Serialized(items)], RouteItemsKey))) == ReplaceList(items)
    ensures HomePage.InitialRouteItems(true, Returned(Lookup(entries[RouteItemsKey := Serialized(items)], RouteItemsKey))) == items
  {
  }

  /** Where the preview and the home page part ways: the same corrupt entry
      is an empty draft on the home page and an exception here. */
  lemma CorruptEntryDiffers(entries: map<string, Stored>, text: string)
    requires text != ""
    ensures HomePage.InitialRouteItems(true, Returned(Lookup(entries[RouteItemsKey := Unparsable(text)], RouteItemsKey))) == []
    ensures PreviewLoad(Returned(Lookup(entries[RouteItemsKey := Unparsable(text)], RouteItemsKey))) == Throws
  {
  }

  class RoutePreview {
    var routeItems: seq<Artwork>
    const store: LocalStore

    constructor (store: LocalStore)
      ensures routeItems == [] && this.store == store
    {
      routeItems := [];
      this.store := store;
    }

    /** The mount effect. */
    method Load() returns (c: Completion)
      modifies this
      ensures var e := PreviewLoad(if store.accessible then Returned(Lookup(store.entries, RouteItemsKey)) else Threw);
              && (c == Thrown <==> e == Throws)
              && routeItems == (if e.ReplaceList? then e.items else old(routeItems))
    {
      var saved := store.GetItem(RouteItemsKey);
      match PreviewLoad(saved)
      case KeepList =>
        c := Normal;
      case ReplaceList(items) =>
        routeItems := items;
        c := Normal;
      case Throws =>
        c := Thrown;
    }

    /** `handleRemove`: keep exactly the entries whose id differs. */
    method HandleRemove(id: ArtworkId)
      modifies this
      ensures routeItems == RemoveId(old(routeItems), id)
    {
      routeItems := RemoveId(routeItems, id);
    }

    /** `handleDragEnd`. `activeId` is the dragged entry's id and `overId` the
        id of the entry it was dropped on, `None` when it was dropped on none;
        both come from the sortable list, so an id that is given is in it.
        Equal ids change nothing. A missing `over` passes the guard and then
        throws on `over.id`, leaving the list as it was. Otherwise the entry
        at the first index of `activeId` moves to the first index of
        `overId`. */
    method HandleDragEnd(activeId: ArtworkId, overId: Option<ArtworkId>) returns (c: Completion)
      requires activeId in IdsOf(routeItems)
      requires overId.Some? ==> overId.value in IdsOf(routeItems)
      modifies this
      ensures c == Thrown <==> overId == None
      ensures overId == None || overId == Some(activeId) ==> routeItems == old(routeItems)
      ensures overId.Some? && overId.value != activeId ==>
                routeItems == Move(old(routeItems), IndexOfId(old(routeItems), activeId), IndexOfId(old(routeItems), overId.value))
    {
      if overId != Some(activeId) {
        var oldIndex := IndexOfId(routeItems, activeId);
        if overId == None {
          return Thrown;
        }
        var newIndex := IndexOfId(routeItems, overId.value);
        routeItems := Move(routeItems, oldIndex, newIndex);
      }
      c := Normal;
    }
  }

  /** What a drag and drop does to the preview's list, as a function: the
      entry with `activeId` lands where the first entry with `overId` was,
      nothing is gained or lost, and the other entries keep their order. */
  lemma DragEndMoves(items: seq<Artwork>, activeId: ArtworkId, overId: ArtworkId)
    requires activeId in IdsOf(items) && overId in IdsOf(items)
    ensures var from, to := IndexOfId(items, activeId), IndexOfId(items, overId);
            var r := Move(items, from, to);
            && r[to].id == activeId
            && multiset(r) == multiset(items)
            && RemoveAt(r, to) == RemoveAt(items, from)
  {
    MoveKeepsOthersInOrder(items, IndexOfId(items, activeId), IndexOfId(items, overId));
  }
}
