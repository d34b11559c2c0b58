/** The catalog bottom sheet: a panel the user drags up and down by touch,
    whose height stays between a fixed minimum and 60% of the viewport, and
    a list of items filtered by a category button and by the search query
    the page passes in. Heights and touch coordinates are `real`. */
module BottomSheetComponent {
  import opened Lists
  import opened Artworks
  import opened Text

  const MinHeight: real := 150.0

  /** The category button that shows every category. */
  const AllCategories: string := "전체"

  /** The category buttons, in the order they are shown. */
  const Categories: seq<string> := [AllCategories, "회화", "조각", "사진", "설치"]

  /** `Math.max(MIN_HEIGHT, Math.min(maxHeight, h))`. The result is never
      below the minimum, never above `maxHeight` when `maxHeight` is at least
      the minimum (and is the minimum when it is not), and is `h` itself
      whenever `h` lies between the two. A height at or below the minimum
      gives the minimum; one at or above `maxHeight` gives `maxHeight`, or
      the minimum when that is larger. */
  function Clamp(h: real, maxHeight: real): (r: real)
    ensures r >= MinHeight
    ensures h <= MinHeight ==> r == MinHeight
    ensures maxHeight <= h ==> r == (if maxHeight >= MinHeight then maxHeight else MinHeight)
    ensures maxHeight >= MinHeight ==> r <= maxHeight
    ensures maxHeight < MinHeight ==> r == MinHeight
    ensures MinHeight <= h <= maxHeight ==> r == h
    ensures r == h || r == MinHeight || r == maxHeight
  {
    var m := if maxHeight <= h then maxHeight else h;
    if MinHeight >= m then MinHeight else m
  }

  /** Clamping a height that is already in range leaves it alone, so a
      clamped height clamps to itself. */
  lemma ClampIdempotent(h: real, maxHeight: real)
    ensures Clamp(Clamp(h, maxHeight), maxHeight) == Clamp(h, maxHeight)
  {
  }

  /** The predicate of `filteredItems`: the item is in the active category
      (or the active category is the "all" button) and its lower-cased name
      includes the lower-cased query, that is, the query occurs somewhere in
      the name when case is ignored. */
  function Matches(item: Artwork, activeCategory: string, searchQuery: string): (b: bool)
    ensures b <==>
      (activeCategory == AllCategories || item.category == Some(activeCategory)) &&
      Occurs(Lower(searchQuery), Lower(item.name))
  {
    IncludesIff(Lower(item.name), Lower(searchQuery));
    (activeCategory == AllCategories || item.category == Some(activeCategory)) &&
    Includes(Lower(item.name), Lower(searchQuery))
  }

  /** `filteredItems`: exactly the items that match, each as often as it
      occurs in `items`. */
  function FilteredItems(items: seq<Artwork>, activeCategory: string, searchQuery: string): (r: seq<Artwork>)
    ensures forall x :: x in r <==> x in items && Matches(x, activeCategory, searchQuery)
    ensures forall x :: Matches(x, activeCategory, searchQuery) ==> multiset(r)[x] == multiset(items)[x]
  {
    Filter(items, (x: Artwork) => Matches(x, activeCategory, searchQuery))
  }

  /** The filtered items keep the order they have in `items`. */
  lemma FilteredItemsInOrder(items: seq<Artwork>, activeCategory: string, searchQuery: string)
    ensures SubsequenceOf(FilteredItems(items, activeCategory, searchQuery), items)
  {
    FilterIsSubsequence(items, (x: Artwork) => Matches(x, activeCategory, searchQuery));
  }

  /** The "all" button with an empty query shows every item. */
  lemma ShowAll(items: seq<Artwork>)
    ensures FilteredItems(items, AllCategories, "") == items
  {
    assert forall x | x in items :: Matches(x, AllCategories, "");
    FilterKeepsAll(items, (x: Artwork) => Matches(x, AllCategories, ""));
  }

  class BottomSheet {
    var startY: real
    var currentHeight: real
    var maxHeight: real
    var dragging: bool
    var activeCategory: string

    /** The height is never below the minimum, never above the maximum once
        the maximum is at least the minimum, and is the minimum while the
        maximum is below it; the active category is one of the buttons. */
    ghost predicate Valid()
      reads this
    {
      MinHeight <= currentHeight &&
      (MinHeight <= maxHeight ==> currentHeight <= maxHeight) &&
      (maxHeight < MinHeight ==> currentHeight == MinHeight) &&
      activeCategory in Categories
    }

    /** The initial render: height at the minimum, no maximum measured yet,
        not dragging, every category shown. */
    constructor ()
      ensures Valid()
      ensures startY == 0.0 && currentHeight == MinHeight && maxHeight == 0.0
      ensures !dragging && activeCategory == AllCategories
    {
      startY := 0.0;
      currentHeight := MinHeight;
      maxHeight := 0.0;
      dragging := false;
      activeCategory := AllCategories;
    }

    /** The mount effect: the maximum becomes 60% of the viewport height. It
        runs once, before any maximum was set. */
    method MeasureViewport(innerHeight: real)
      requires Valid() && maxHeight == 0.0
      modifies this
      ensures Valid()
      ensures maxHeight == innerHeight * 0.6
      ensures startY == old(startY) && currentHeight == old(currentHeight)
      ensures dragging == old(dragging) && activeCategory == old(activeCategory)
    {
      maxHeight := innerHeight * 0.6;
    }

    /** `handleTouchStart`: remember where the finger went down and start
        dragging. */
    method TouchStart(clientY: real)
      requires Valid()
      modifies this
      ensures Valid()
      ensures startY == clientY && dragging
      ensures currentHeight == old(currentHeight) && maxHeight == old(maxHeight)
      ensures activeCategory == old(activeCategory)
    {
      startY := clientY;
      dragging := true;
    }

    /** `handleTouchMove`: while dragging, the height moves by the finger's
        distance from where it went down, clamped; when not dragging nothing
        changes. `startY` is not updated, so a move that sees the height the
        previous move set subtracts the whole distance from it again. */
    method TouchMove(clientY: real)
      requires Valid()
      modifies this
      ensures Valid()
      ensures !old(dragging) ==> currentHeight == old(currentHeight)
      ensures old(dragging) ==> currentHeight == Clamp(old(currentHeight) - (clientY - old(startY)), maxHeight)
      ensures startY == old(startY) && dragging == old(dragging) && maxHeight == old(maxHeight)
      ensures activeCategory == old(activeCategory)
    {
      if !dragging {
        return;
      }
      var deltaY := clientY - startY;
      var newHeight := currentHeight - deltaY;
      currentHeight := Clamp(newHeight, maxHeight);
    }

    /** `handleTouchEnd`: stop dragging; the height stays where it is. */
    method TouchEnd()
      requires Valid()
      modifies this
      ensures Valid()
      ensures !dragging
      ensures startY == old(startY) && currentHeight == old(currentHeight)
      ensures maxHeight == old(maxHeight) && activeCategory == old(activeCategory)
    {
      dragging := false;
    }

    /** A category button's click handler. */
    method SelectCategory(category: string)
      requires Valid() && category in Categories
      modifies this
      ensures Valid()
      ensures activeCategory == category
      ensures startY == old(startY) && currentHeight == old(currentHeight)
      ensures maxHeight == old(maxHeight) && dragging == old(dragging)
    {
      activeCategory := category;
    }

    /** The list the sheet shows for the page's current search query. */
    method Shown(items: seq<Artwork>, searchQuery: string) returns (shown: seq<Artwork>)
      ensures forall x :: x in shown <==> x in items && Matches(x, activeCategory, searchQuery)
      ensures forall x :: Matches(x, activeCategory, searchQuery) ==> multiset(shown)[x] == multiset(items)[x]
      ensures SubsequenceOf(shown, items)
    {
      shown := FilteredItems(items, activeCategory, searchQuery);
      FilteredItemsInOrder(items, activeCategory, searchQuery);
    }
  }
}
