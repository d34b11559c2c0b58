# Route list editing in the art-walk front end

This project models the client-side route logic of the art-walk web app.
In that app users pick artworks on a map, gather them into an ordered walking
route and save the route as a course. The model covers these parts:

- **Saved-route editor** (`MyPathPage`). It loads a course's artworks one by
  one and skips failed fetches. In edit mode the list can be reordered by
  drag and drop (remove-then-insert `splice`) and shortened by position. Save
  turns the list into the course's `points`, refreshes the snapshot and
  posts the course. Cancel restores the snapshot.
- **Home page draft** (`HomePage`, `DraftStore`). The draft route is read
  from local storage in a fail-soft way. It is written back on every change.
  The route pop-up removes an entry by id after a confirmation.
- **Route preview** (`AddPathPage`). It reads the same storage entry with
  no guard. It removes entries by id and reorders them with `findIndex` and
  `arrayMove`.
- **Recommended-route page** (`RecommendedPathPage`). Its loader applies
  defaults to the title, memo and share flag. It copies `address` to
  `location` and `type` to `category` on every artwork. It saves the route
  as a new course.
- **Catalog bottom sheet** (`BottomSheetComponent`). It filters items by
  category and by a case-insensitive substring. Its touch-drag height is
  clamped.
- **Search bar** (`SearchBarComponent`). It emits the trimmed query on
  Enter or on a button click.

The shared array and string primitives are in `Lists` and `Text`:
`filter`, filter-by-index, `splice`-based moves, `trim`, `toLowerCase` and
`includes`. The records and the id-based helpers are in `Artworks`.

Each component's state is a class whose fields are its React state. Each
event handler is a method that says exactly which fields it changes and how.
Outside effects are inputs to those methods:

- fetch outcomes, one per point;
- the answer to `window.confirm`;
- whether a storage call throws;
- the decoded URL parameter.

A JavaScript `undefined` field is `None`.

What the code does, as modelled:

- The preview page never writes its edits back to storage. Only the home
  page writes through.
- A corrupt `routeItems` entry is an empty draft on the home page. On the
  preview page the same entry throws (`AddPathPage.CorruptEntryDiffers`).
- The home page's mount effect writes back the list it just read. So a
  corrupt entry is replaced by the empty list.
- `handleDragEnd` with no `over` target passes the `!==` guard. It then
  throws on `over.id` and leaves the list unchanged.
- In the saved-route editor, load copies `canShare` with no default. Cancel
  copies the course's `name` and `description` with no default. So these
  fields can become `undefined`, and the POST body then leaves them out.
  Cancel does not restore the share flag.
- `handleTouchMove` never updates `startY`. A move that sees the height the
  previous move set subtracts the whole distance from the touch start from
  it again. Whether it sees that height depends on React: the listener is
  re-attached with fresh state only after a re-render. The model takes
  that every handler runs on the state its predecessor left.
- The home page passes `setRouteItems` to the map and the bottom sheet.
  Neither component takes that prop, so in these files the only caller is
  the pop-up's delete button. No file here adds an artwork to the route.
- The code does not check for an empty name or an empty list before a
  save, and does not clear the draft after a save. The model follows the
  code in this.
- On the recommended-route page the dialog's save button stays on screen
  after a click, so each further click posts another course. The editor's
  save button exists only in edit mode, and the first click leaves edit
  mode. The editor therefore posts once per round of edits.
- The editor shows its title, memo and share fields, delete buttons, drag
  handles, save and cancel only in edit mode, and its edit button only
  outside it. Those methods require the matching mode.
- The drag handlers are attached to the editor's entries in both modes.
  Only the entry itself is draggable just in edit mode; its image and
  selected text can be dragged in view mode too. Such a drag dropped on
  another entry reorders the list shown, with no edit mode and no save,
  while the snapshot stays as it was. So outside edit mode the list holds
  the snapshot's entries, possibly reordered (`MyPathPage.MyPath.Valid`),
  and every method keeps that.

## Model

| member | source | states |
|---|---|---|
| Lists.Filter | src/app/home/page.js:110 | the result holds exactly the elements of the input that pass, each as often as in the input, and nothing that fails |
| Lists.FilterIsSubsequence | src/components/BottomSheet.js:58-64 | a filter's result is a subsequence of its input: order is kept |
| Lists.FilterIdempotent | src/app/addpath/page.js:60-62 | filtering twice with the same predicate equals filtering once |
| Lists.FilterKeepsAll | src/app/addpath/page.js:60-62 | when every element passes, the filter returns its input unchanged |
| Lists.RemoveAt | src/app/mypath/path/page.js:192 | for an index in range, length drops by one, the multiset loses exactly that element, and every other element keeps its order (earlier ones in place, later ones shifted down by one); any other index leaves the list unchanged |
| Lists.Option.GetOr | src/app/recommend/recpaths/path/page.js:58-60 | the or-default idiom on a value that is absent or truthy: the value when present, the default when absent |
| Lists.Insert | src/app/mypath/path/page.js:73 | `splice(idx, 0, x)` puts `x` at `idx`, keeps the elements before it in place, shifts the ones after it up by one, and adds exactly `x` to the multiset |
| Lists.RemoveInserted | src/app/mypath/path/page.js:72-73 | deleting the element just inserted at `idx` gives the original list back |
| Lists.InsertRemoved | src/app/mypath/path/page.js:72-73 | putting a removed element back at its own index gives the original list back |
| Lists.Move | src/app/mypath/path/page.js:71-73 | remove-then-insert keeps the length, puts the dragged element at the drop index and is a permutation (same multiset) |
| Lists.MoveAt | src/app/mypath/path/page.js:71-73 | where every element of the moved list comes from: the drop index holds the dragged element, elements between the two indices shift one place towards the drag index, all others stay put |
| Lists.MoveKeepsOthersInOrder | src/app/mypath/path/page.js:71-73 | every element other than the dragged one keeps its relative order: deleting the drop index of the result equals deleting the drag index of the input |
| Lists.MoveSamePlace | src/app/mypath/path/page.js:70 | moving an element to its own index is the identity, so the early return changes nothing observable |
| Lists.MoveBack | src/app/mypath/path/page.js:71-73 | dragging the element back from the drop index to the drag index restores the list |
| Artworks.IdsOf | src/app/mypath/path/page.js:85 | the payload's id list has one id per entry, in list order |
| Artworks.IdsOfInsert | src/app/mypath/path/page.js:73 | inserting an entry inserts its id at the same position of the id list |
| Artworks.IdsOfMove | src/app/mypath/path/page.js:222 | after a reorder, the ids saved as `points` follow the new order |
| Artworks.IdsOfRemoveAt | src/app/mypath/path/page.js:222 | after a delete by position, the saved `points` lose the same position |
| Artworks.IndexOfId | src/app/addpath/page.js:68-69 | `findIndex` by id returns -1 exactly when the id is absent, and otherwise the first index holding it |
| Artworks.RemoveId | src/app/addpath/page.js:60-62 | no entry with the id remains, nothing new appears, and every entry with another id keeps its multiplicity |
| Artworks.RemoveIdKeepsOrder | src/app/home/page.js:110 | removing by id keeps the other entries in their original order |
| Artworks.RemoveAbsentId | src/app/addpath/page.js:60-62 | removing an id that is not present returns the list unchanged |
| Artworks.RemoveIdIdempotent | src/app/addpath/page.js:60-62 | removing the same id twice equals removing it once |
| Artworks.Successes | src/app/mypath/path/page.js:44-56 | the collected artworks are exactly the successful fetches, never more than were fetched |
| Artworks.SuccessesAppend | src/app/mypath/path/page.js:45-54 | collecting is order-preserving: two batches fetched in turn give their successes in that order |
| Artworks.SuccessesAllFailed | src/app/mypath/path/page.js:51-53 | when every fetch fails the loader collects nothing |
| MyPathPage.FetchAll | src/app/mypath/path/page.js:43-56 | the loader's loop returns exactly the successful fetches in point order, skipping failures |
| MyPathPage.MyPath.constructor | src/app/mypath/path/page.js:15-21 | the initial state: placeholder course, not editing, empty title and memo, share off, empty list and snapshot, so the list holds the snapshot's entries |
| MyPathPage.MyPath.Load | src/app/mypath/path/page.js:32-62 | a decoded course becomes `path`, and its name and description (or `''`) become the title and memo. Without a course, or without `points`, nothing else changes. Otherwise the successful fetches in point order become both the list and the snapshot, and `canShare` becomes the share flag as is. Outside edit mode the list still holds the snapshot's entries afterwards |
| MyPathPage.MyPath.Edit | src/app/mypath/path/page.js:252-265 | the edit button, shown only outside edit mode, enters edit mode and changes nothing else |
| MyPathPage.MyPath.SetName | src/app/mypath/path/page.js:118-125 | the title field, shown only in edit mode, changes only the title |
| MyPathPage.MyPath.SetMemo | src/app/mypath/path/page.js:204-211 | the memo field, shown only in edit mode, changes only the memo |
| MyPathPage.MyPath.SetShare | src/app/mypath/path/page.js:118-139 | the share toggle, shown only in edit mode, changes only the share flag |
| MyPathPage.MyPath.Drop | src/app/mypath/path/page.js:68-75 | `handleDrop`, reachable in both modes, replaces the list by the remove-then-insert move from the drag index to the drop index; the snapshot and all other fields are unchanged, and the list keeps the snapshot's entries outside edit mode |
| MyPathPage.ViewDropEditCancel | src/app/mypath/path/page.js:160-165 | after a drop in view mode, entering edit mode and cancelling brings the list back to the snapshot |
| MyPathPage.MyPath.RemoveAtIndex | src/app/mypath/path/page.js:191-193 | the delete button, shown only in edit mode, deletes exactly that position and changes nothing else |
| MyPathPage.MyPath.HandleSave | src/app/mypath/path/page.js:81-108 | the POST body has exactly the title, memo, ids in list order and share flag, as many ids as entries; the outcome only reaches the console, so no state changes |
| MyPathPage.MyPath.SaveEdits | src/app/mypath/path/page.js:216-233 | save sets the course's name, description, `points` (ids in list order) and `canShare` and keeps its other fields. The list becomes the snapshot and edit mode ends, so the button that called it is gone. The posted body agrees with the new course's `points` |
| MyPathPage.MyPath.Cancel | src/app/mypath/path/page.js:240-245 | cancel, shown only in edit mode, restores the list from the snapshot and the title and memo from the course, ends edit mode, and leaves the share flag as edited |
| MyPathPage.LoadEditCancel | src/app/mypath/path/page.js:226-245 | after load, edit, a move, a delete and cancel, the list is again the loaded list, and the title and memo are the course's again |
| DraftStore.Lookup | src/app/home/page.js:23 | `getItem` returns the stored value exactly when the key is present, and null otherwise |
| DraftStore.LocalStore.GetItem | src/app/home/page.js:23 | a read returns the stored value or null, or throws when storage is not accessible |
| DraftStore.LocalStore.SetItem | src/app/home/page.js:36 | a write that fits stores the value under the key; a write that throws leaves the store as it was |
| HomePage.InitialRouteItems | src/app/home/page.js:20-31 | the initial draft is `[]` without a window, when the read throws, when the key is absent, and when the text is empty or does not parse; a stored list is returned unchanged |
| HomePage.Home.constructor | src/app/home/page.js:20-40 | the first render loads the draft fail-soft; the mount effect writes it back under `'routeItems'`, so a write that fits leaves the store holding the loaded list |
| HomePage.Home.WriteThrough | src/app/home/page.js:33-40 | the effect stores the current list under `'routeItems'`, and afterwards the store holds the in-memory list. A failed write is swallowed: the store is unchanged and the list is untouched |
| HomePage.Home.SetRouteItems | src/app/home/page.js:33-40 | every change to the list is written through. The in-memory list is the new one whether or not the write succeeds |
| HomePage.Home.RemoveWithConfirm | src/app/home/page.js:106-115 | a present id with a confirmation removes every entry with that id and writes through. A declined confirmation changes nothing. An absent id changes nothing and only alerts |
| AddPathPage.PreviewLoad | src/app/addpath/page.js:55-58 | a stored list replaces the list, and an absent entry or empty string keeps it. A failing read or a text that does not parse throws, because nothing guards the read or the parse |
| AddPathPage.DraftRoundTrip | src/app/home/page.js:23-36 | what the home page writes under `'routeItems'` is read back unchanged by the preview's load and by the home page's initialiser |
| AddPathPage.CorruptEntryDiffers | src/app/addpath/page.js:57 | the same corrupt entry is an empty draft on the home page and an exception on the preview page |
| AddPathPage.RoutePreview.constructor | src/app/addpath/page.js:50 | the preview starts with an empty list |
| AddPathPage.RoutePreview.Load | src/app/addpath/page.js:55-58 | the mount effect applies the stored value as `PreviewLoad` says, and completes abnormally exactly when that throws |
| AddPathPage.RoutePreview.HandleRemove | src/app/addpath/page.js:60-62 | the list keeps exactly the entries whose id differs |
| AddPathPage.RoutePreview.HandleDragEnd | src/app/addpath/page.js:64-74 | equal ids change nothing. A missing `over` throws and changes nothing. Otherwise the entry at the first index of the active id moves to the first index of the over id |
| AddPathPage.DragEndMoves | src/app/addpath/page.js:68-72 | after a drag end, the active entry sits at the over entry's index, the list is a permutation of the old one, and the other entries keep their order |
| RecommendedPathPage.Normalise | src/app/recommend/recpaths/path/page.js:69-70 | a loaded artwork's location is its address and its category its type; nothing else changes |
| RecommendedPathPage.NormaliseAll | src/app/recommend/recpaths/path/page.js:63-76 | every entry normalised, same length, same order |
| RecommendedPathPage.NormaliseAllKeepsIds | src/app/recommend/recpaths/path/page.js:27 | normalising keeps the ids, so the saved points are the fetched artworks' ids |
| RecommendedPathPage.FetchAllNormalised | src/app/recommend/recpaths/path/page.js:62-77 | the loader's loop returns the successful fetches in point order, each normalised, skipping failures |
| RecommendedPathPage.RecommendedPath.constructor | src/app/recommend/recpaths/path/page.js:14-19 | the initial state: no course, empty title and memo, share off, empty list |
| RecommendedPathPage.RecommendedPath.Load | src/app/recommend/recpaths/path/page.js:52-80 | without a course or its `points` no state is set. Otherwise the title, memo and share flag are the name, description and `canShare`, defaulting to `''`, `''` and `false`. The list is the normalised successful fetches in point order |
| RecommendedPathPage.RecommendedPath.SetTitle | src/app/recommend/recpaths/path/page.js:130 | typing a title changes only the title |
| RecommendedPathPage.RecommendedPath.SetMemo | src/app/recommend/recpaths/path/page.js:131 | typing a memo changes only the memo |
| RecommendedPathPage.RecommendedPath.SetShare | src/app/recommend/recpaths/path/page.js:133 | the checkbox changes only the share flag |
| RecommendedPathPage.RecommendedPath.HandleSave | src/app/recommend/recpaths/path/page.js:23-50 | the POST body is the title, memo, ids in list order and share flag, all defined; the outcome is only logged, so no state changes |
| Text.LeadingSpace | src/components/SearchBar.js:9 | the count of leading whitespace: every counted character is whitespace and the next is not |
| Text.TrailingSpace | src/components/SearchBar.js:9 | the count of trailing whitespace: every counted character is whitespace and the one before is not |
| Text.IsWhitespace | src/components/SearchBar.js:9 | the characters `trim` strips, ECMAScript's whitespace and line terminators; among ASCII characters exactly the space and tab to carriage return |
| Text.Trim | src/components/SearchBar.js:9 | `trim` returns the piece of the input that starts after the leading whitespace; everything after it is whitespace; it neither starts nor ends with whitespace |
| Text.TrimIdempotent | src/components/SearchBar.js:9 | trimming a trimmed query changes nothing |
| Text.TrimUntouched | src/components/SearchBar.js:9 | a query with no whitespace at either end is emitted as typed |
| Text.TrimAllSpace | src/components/SearchBar.js:9 | a query of whitespace only is emitted as the empty string |
| Text.LowerChar | src/components/BottomSheet.js:61-62 | capitals A to Z map to their small letters; every other character is unchanged |
| Text.Lower | src/components/BottomSheet.js:61-62 | lower-casing keeps the length and lower-cases each character |
| Text.Includes | src/components/BottomSheet.js:62 | `includes` holds for the empty query and for a query that is a prefix, and never for a query longer than the name |
| Text.IncludesIff | src/components/BottomSheet.js:62 | `includes` holds exactly when the query occurs at some position of the name |
| SearchBarComponent.SearchBar.constructor | src/components/SearchBar.js:6 | the query starts empty |
| SearchBarComponent.SearchBar.Type | src/components/SearchBar.js:26 | typing replaces the query and emits nothing |
| SearchBarComponent.SearchBar.HandleSearch | src/components/SearchBar.js:8-10 | the button emits exactly the trimmed query, which has no whitespace at either end and is no longer than the query |
| SearchBarComponent.SearchBar.HandleKeyDown | src/components/SearchBar.js:12-16 | Enter emits the same value the button emits; any other key emits nothing |
| BottomSheetComponent.Clamp | src/components/BottomSheet.js:29 | the clamped height is at least `MIN_HEIGHT`. It is at most `maxHeight` when `maxHeight >= MIN_HEIGHT`, and exactly `MIN_HEIGHT` otherwise. A height at or below the minimum gives the minimum, one at or above `maxHeight` gives `maxHeight` (or the minimum when that is larger), and a height in range is kept |
| BottomSheetComponent.ClampIdempotent | src/components/BottomSheet.js:29 | clamping a clamped height changes nothing |
| BottomSheetComponent.Matches | src/components/BottomSheet.js:59-63 | an item matches exactly when the active category is "전체" or is its category, and the lower-cased query occurs at some position of the lower-cased name |
| BottomSheetComponent.FilteredItems | src/components/BottomSheet.js:58-64 | an item is kept iff the active category is "전체" or is the item's category, and its lower-cased name includes the lower-cased query; kept items keep their multiplicity |
| BottomSheetComponent.FilteredItemsInOrder | src/components/BottomSheet.js:58 | the filtered list is a subsequence of the items, in their original order |
| BottomSheetComponent.ShowAll | src/components/BottomSheet.js:59-62 | category "전체" with an empty query keeps every item |
| BottomSheetComponent.BottomSheet.constructor | src/components/BottomSheet.js:7-13 | the sheet starts at `MIN_HEIGHT`, with no maximum yet, not dragging, category "전체" |
| BottomSheetComponent.BottomSheet.MeasureViewport | src/components/BottomSheet.js:16-18 | the mount effect sets the maximum to 60% of the viewport height and keeps the height invariant |
| BottomSheetComponent.BottomSheet.TouchStart | src/components/BottomSheet.js:20-23 | touchstart records `startY` and sets `dragging`; the height is unchanged |
| BottomSheetComponent.BottomSheet.TouchMove | src/components/BottomSheet.js:25-31 | without `dragging` nothing changes. With it, the height becomes the clamped height minus the finger's distance from `startY`. The height invariant is kept |
| BottomSheetComponent.BottomSheet.TouchEnd | src/components/BottomSheet.js:33-35 | touchend clears `dragging` and leaves the height alone |
| BottomSheetComponent.BottomSheet.SelectCategory | src/components/BottomSheet.js:80 | a category button makes its category active and changes nothing else |
| BottomSheetComponent.BottomSheet.Shown | src/components/BottomSheet.js:94 | the rendered list holds exactly the items matching the active category and the query, each as often as in the items, in their original order |

## Left out

- Network traffic is left out. Every `fetch` (artworks, courses, auth) is an
  input instead: one `FetchOutcome` per point, or nothing at all for a POST
  whose outcome is only logged.
- Loaders are atomic. The loaders are `async`: in the browser the list is
  set only after all fetches finish, and other events may come in between.
  The model runs each loader as one step.
- Event handlers run one at a time, and each sees the state the previous
  one left, as if React re-rendered between any two events. In the bottom
  sheet the native `touchmove` listener is re-attached with fresh state only
  after a re-render. Moves that arrive before that compute from an older
  height, and the model does not capture them.
- The URL and JSON codecs are abstract. Decoding of the `path` query
  parameter and `JSON.parse` / `JSON.stringify` are not modelled. A decoded
  course is an `Option<Course>` input. A stored value is `Serialized(list)`
  or `Unparsable(text)`. A malformed `path` parameter makes both pages throw
  before anything is set; that case is not modelled.
- Stored JSON of another shape (a number, `null`, an object) is not
  modelled. Such a value would replace the draft with a value that is not a
  list.
- Browser dialogs and map code are left out. `window.confirm` is a boolean
  input and `alert` is a result value. The map components, geocoding and
  the map-centre arithmetic are not part of this model. They are rendering
  through a third-party SDK.
- Display-only state is left out: dialogs opening and closing, images,
  category labels, QR codes, and the preview's save button, which only logs
  and alerts.
- The bottom sheet's ten hard-coded placeholder items are left out. The
  filter is stated for any item list.
- Heights are exact reals. JavaScript numbers are floating point, so
  `innerHeight * 0.6` is exact here.
- MyPathPage.MyPath.Drop: requires both indices to be positions of the
  list, which is what the list's own drag and drop hands it. A drop whose
  drag payload came from outside the list is not modelled. For such a
  payload, `Number('')` is 0 and an out-of-range index makes `splice`
  insert `undefined`.
- AddPathPage.RoutePreview.HandleDragEnd: requires the active and over ids
  to be in the list, because they come from the sortable list itself.
  dnd-kit's `arrayMove` is taken to be the same remove-then-insert as
  `handleDrop`. The behaviour of `findIndex` returning -1 inside `arrayMove`
  is not modelled.
- Text.LowerChar: lower-cases only the ASCII capitals. JavaScript's
  `toLowerCase` applies the full Unicode case mapping, which can also change
  a string's length.
