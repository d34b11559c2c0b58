/** The saved-route editor: it shows a course passed in the page URL, loads
    its artworks one by one, and offers an edit mode in which the list can
    be reordered by drag and drop and shortened by position, the title, memo
    and share flag edited, and the edits either saved (and posted as a new
    course) or cancelled back to the last saved or loaded state. Fetch
    results are an input, one per point. */
module MyPathPage {
  import opened Lists
  import opened Artworks

  /** The `path` state before anything is loaded: `{ name: '', description: '' }`. */
  const InitialPath: Course := Course(Some(""), Some(""), None, None, map[])

  /** The loader's loop: one fetch per point, in the order of the points; a
      fetch that fails is logged and skipped, a successful one is appended
      to `results`. `responses[i]` is how fetching `points[i]` ended. */
  method FetchAll(points: seq<ArtworkId>, responses: seq<FetchOutcome>) returns (results: seq<Artwork>)
    requires |responses| == |points|
    ensures results == Successes(responses)
    ensures |results| <= |points|
  {
    results := [];
    for i := 0 to |points|
      invariant results == Successes(responses[..i])
    {
      assert responses[..i + 1][..i] == responses[..i];
      match responses[i]
      case Fetched(result) =>
        results := results + [result];
      case FetchFailed =>
    }
    assert responses[..|points|] == responses;
  }

  class MyPath {
    var path: Course
    var isEdit: bool
    var memo: Option<string>
    var name: Option<string>
    var share: Option<bool>
    var routeItems: seq<Artwork>
    var originalItems: seq<Artwork>

    /** Outside edit mode the list shown holds the snapshot's entries,
        possibly reordered: every way out of edit mode (save, cancel) makes
        them equal and load sets both, but a drop still reorders the list in
        view mode. */
    ghost predicate Valid()
      reads this
    {
      !isEdit ==> multiset(routeItems) == multiset(originalItems)
    }

    constructor ()
      ensures Valid()
      ensures path == InitialPath && !isEdit
      ensures memo == Some("") && name == Some("") && share == Some(false)
      ensures routeItems == [] && originalItems == []
    {
      path := InitialPath;
      isEdit := false;
      memo := Some("");
      name := Some("");
      share := Some(false);
      routeItems := [];
      originalItems := [];
    }

    /** The mount effect, given the decoded `path` parameter (`None` when
        there is none). A course becomes `path`, and its name and description
        (or `''`) the title and memo. Without a course, or without `points`,
        nothing more happens. Otherwise the successful fetches, in point
        order, become both the list and the saved snapshot, and the course's
        `canShare` (possibly undefined) becomes the share flag. */
    method Load(parsed: Option<Course>, responses: seq<FetchOutcome>)
      requires Valid()
      requires parsed.Some? && parsed.value.points.Some? ==> |responses| == |parsed.value.points.value|
      modifies this
      ensures Valid()
      ensures isEdit == old(isEdit)
      ensures parsed == None ==>
                path == old(path) && memo == old(memo) && name == old(name)
      ensures parsed.Some? ==>
                path == parsed.value && memo == Some(parsed.value.description.GetOr("")) &&
                name == Some(parsed.value.name.GetOr(""))
      ensures parsed == None || parsed.value.points == None ==>
                routeItems == old(routeItems) && originalItems == old(originalItems) && share == old(share)
      ensures parsed.Some? && parsed.value.points.Some? ==>
                routeItems == Successes(responses) && originalItems == routeItems && share == parsed.value.canShare
    {
      if parsed.Some? {
        path := parsed.value;
        memo := Some(parsed.value.description.GetOr(""));
        name := Some(parsed.value.name.GetOr(""));
      }
      if parsed.None? || parsed.value.points.None? {
        return;
      }
      var results := FetchAll(parsed.value.points.value, responses);
      routeItems := results;
      originalItems := results;
      share := parsed.value.canShare;
    }

    /** The edit button, shown only outside edit mode. */
    method Edit()
      requires Valid() && !isEdit
      modifies this
      ensures Valid() && isEdit
      ensures path == old(path) && memo == old(memo) && name == old(name) && share == old(share)
      ensures routeItems == old(routeItems) && originalItems == old(originalItems)
    {
      isEdit := true;
    }

    /** The title field, the memo field and the share toggle, shown only in
        edit mode. */
    method SetName(value: string)
      requires Valid() && isEdit
      modifies this
      ensures Valid()
      ensures name == Some(value)
      ensures path == old(path) && isEdit == old(isEdit) && memo == old(memo) && share == old(share)
      ensures routeItems == old(routeItems) && originalItems == old(originalItems)
    {
      name := Some(value);
    }

    method SetMemo(value: string)
      requires Valid() && isEdit
      modifies this
      ensures Valid()
      ensures memo == Some(value)
      ensures path == old(path) && isEdit == old(isEdit) && name == old(name) && share == old(share)
      ensures routeItems == old(routeItems) && originalItems == old(originalItems)
    {
      memo := Some(value);
    }

    method SetShare(checked: bool)
      requires Valid() && isEdit
      modifies this
      ensures Valid()
      ensures share == Some(checked)
      ensures path == old(path) && isEdit == old(isEdit) && name == old(name) && memo == old(memo)
      ensures routeItems == old(routeItems) && originalItems == old(originalItems)
    {
      share := Some(checked);
    }

    /** `handleDrop`: the entry the drag started on (`dragIndex`, recorded by
        `handleDragStart`) is taken out and put back at the entry it was
        dropped on. Equal indices return at once, which is the same list.
        The handlers are attached in both modes: only the entry itself is
        draggable just in edit mode, while its image and selected text are
        draggable in view mode too. Nothing but the list changes. */
    method Drop(dragIndex: int, dropIndex: int)
      requires Valid()
      requires 0 <= dragIndex < |routeItems| && 0 <= dropIndex < |routeItems|
      modifies this
      ensures Valid()
      ensures routeItems == Move(old(routeItems), dragIndex, dropIndex)
      ensures path == old(path) && isEdit == old(isEdit) && memo == old(memo) && name == old(name)
      ensures share == old(share) && originalItems == old(originalItems)
    {
      if dragIndex == dropIndex {
        MoveSamePlace(routeItems, dragIndex);
        return;
      }
      var updated := routeItems;
      var dragged := updated[dragIndex];
      updated := updated[..dragIndex] + updated[dragIndex + 1..];
      updated := updated[..dropIndex] + [dragged] + updated[dropIndex..];
      routeItems := updated;
      assert routeItems == Move(old(routeItems), dragIndex, dropIndex);
    }

    /** An entry's delete button in edit mode: the entry at `idx` goes, the
        others keep their order. Nothing but the list changes. */
    method RemoveAtIndex(idx: int)
      requires Valid() && isEdit
      modifies this
      ensures Valid()
      ensures routeItems == RemoveAt(old(routeItems), idx)
      ensures path == old(path) && isEdit == old(isEdit) && memo == old(memo) && name == old(name)
      ensures share == old(share) && originalItems == old(originalItems)
    {
      routeItems := RemoveAt(routeItems, idx);
    }

    /** `handleSave`: the body it posts to `/course`. Whether the request
        succeeds is only logged, so it changes no state. */
    method HandleSave() returns (request: CourseRequest)
      ensures request == CourseRequest(name, memo, IdsOf(routeItems), share)
      ensures |request.points| == |routeItems|
    {
      request := CourseRequest(name, memo, IdsOf(routeItems), share);
    }

    /** The save button: the course takes the edited title, memo, ids (in
        list order) and share flag and keeps its other fields; the list
        becomes the saved snapshot; edit mode ends; and the same fields are
        posted. The button is shown only in edit mode, and leaving edit mode
        removes it, so one round of edits posts once. */
    method SaveEdits() returns (request: CourseRequest)
      requires Valid() && isEdit
      modifies this
      ensures Valid()
      ensures path == old(path).(name := old(name), description := old(memo),
                                 points := Some(IdsOf(old(routeItems))), canShare := old(share))
      ensures originalItems == old(routeItems) && routeItems == old(routeItems) && !isEdit
      ensures name == old(name) && memo == old(memo) && share == old(share)
      ensures request == CourseRequest(old(name), old(memo), IdsOf(old(routeItems)), old(share))
      ensures path.points == Some(request.points)
    {
      request := HandleSave();
      path := path.(name := name, description := memo, points := Some(IdsOf(routeItems)), canShare := share);
      originalItems := routeItems;
      isEdit := false;
    }

    /** The cancel button: the list goes back to the snapshot, the title and
        memo back to the course's (possibly undefined) name and description,
        and edit mode ends. The share flag keeps its edited value. The button
        is shown only in edit mode. */
    method Cancel()
      requires Valid() && isEdit
      modifies this
      ensures Valid()
      ensures routeItems == old(originalItems) && !isEdit
      ensures name == old(path).name && memo == old(path).description
      ensures path == old(path) && originalItems == old(originalItems) && share == old(share)
    {
      routeItems := originalItems;
      name := path.name;
      memo := path.description;
      isEdit := false;
    }
  }

  /** A round of edits on the list that is cancelled restores the list as of
      the last save or load: cancel needs only the snapshot, which no edit
      touches. Here: load, edit, move, delete, cancel. */
  method LoadEditCancel(page: MyPath, course: Course, responses: seq<FetchOutcome>, from: nat, to: nat)
    requires page.Valid() && !page.isEdit
    requires course.points.Some? && |responses| == |course.points.value|
    requires from < |Successes(responses)| && to < |Successes(responses)|
    modifies page
    ensures page.Valid()
    ensures page.routeItems == Successes(responses) && !page.isEdit
    ensures page.name == course.name && page.memo == course.description
  {
    page.Load(Some(course), responses);
    page.Edit();
    page.Drop(from, to);
    page.RemoveAtIndex(to);
    page.Cancel();
  }

  /** A drop in view mode (an entry's image dragged onto another entry)
      reorders the list shown away from the snapshot; entering edit mode and
      cancelling brings the snapshot back. */
  method ViewDropEditCancel(page: MyPath, from: nat, to: nat)
    requires page.Valid() && !page.isEdit
    requires from < |page.routeItems| && to < |page.routeItems|
    modifies page
    ensures page.Valid() && !page.isEdit
    ensures page.routeItems == old(page.originalItems)
  {
    page.Drop(from, to);
    page.Edit();
    page.Cancel();
  }
}
