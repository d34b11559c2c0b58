/** The recommended-route page: it shows a course passed in the page URL,
    loads its artworks one by one (copying `address` to `location` and
    `type` to `category` on each), and lets the user save it as a course of
    their own under an edited title, memo and share flag. Fetch results are
    an input, one per point. */
module RecommendedPathPage {
  import opened Lists
  import opened Artworks

  /** `result.location = result.address; result.category = result.type`. */
  function Normalise(a: Artwork): (r: Artwork)
    ensures r.location == a.address && r.category == a.kind
    ensures r.id == a.id && r.name == a.name && r.address == a.address && r.kind == a.kind
  {
    a.(location := a.address, category := a.kind)
  }

  /** `items` with every entry normalised, in the same order. */
  function NormaliseAll(items: seq<Artwork>): (r: seq<Artwork>)
    ensures |r| == |items|
    ensures forall k :: 0 <= k < |items| ==> r[k] == Normalise(items[k])
  {
    if items == [] then [] else NormaliseAll(items[..|items| - 1]) + [Normalise(items[|items| - 1])]
  }

  /** Normalising keeps the ids, so the saved course lists the same points
      as the fetched artworks. */
  lemma NormaliseAllKeepsIds(items: seq<Artwork>)
    ensures IdsOf(NormaliseAll(items)) == IdsOf(items)
  {
    var l, r := IdsOf(NormaliseAll(items)), IdsOf(items);
    assert |l| == |r|;
    forall k | 0 <= k < |l|
      ensures l[k] == r[k]
    {
    }
  }

  /** The loader's loop: one fetch per point, in the order of the points; a
      failed fetch is logged and skipped, a successful one is normalised and
      appended. `responses[i]` is how fetching `points[i]` ended. Every
      loaded entry shows its address as location and its type as category. */
  method FetchAllNormalised(points: seq<ArtworkId>, responses: seq<FetchOutcome>) returns (results: seq<Artwork>)
    requires |responses| == |points|
    ensures results == NormaliseAll(Successes(responses))
    ensures forall k :: 0 <= k < |results| ==>
              results[k].location == results[k].address && results[k].category == results[k].kind
  {
    results := [];
    for i := 0 to |points|
      invariant results == NormaliseAll(Successes(responses[..i]))
    {
      assert responses[..i + 1][..i] == responses[..i];
      match responses[i]
      case Fetched(result) =>
        results := results + [Normalise(result)];
      case FetchFailed =>
    }
    assert responses[..|points|] == responses;
  }

  class RecommendedPath {
    /** The course shown; `None` is the initial `[]` placeholder. */
    var path: Option<Course>
    var title: string
    var memo: string
    var share: bool
    var routeItems: seq<Artwork>

    constructor ()
      ensures path == None && title == "" && memo == "" && !share && routeItems == []
    {
      path := None;
      title := "";
      memo := "";
      share := false;
      routeItems := [];
    }

    /** The mount effect, given the decoded `path` parameter (`None` when
        there is none). Without a course, or without `points`, it sets
        nothing. Otherwise the course is shown, the title, memo and share
        flag take its name, description and `canShare` or `''`, `''` and
        `false`, and the normalised successful fetches, in point order,
        become the list. */
    method Load(parsed: Option<Course>, responses: seq<FetchOutcome>)
      requires parsed.Some? && parsed.value.points.Some? ==> |responses| == |parsed.value.points.value|
      modifies this
      ensures parsed == None || parsed.value.points == None ==>
                path == old(path) && title == old(title) && memo == old(memo) &&
                share == old(share) && routeItems == old(routeItems)
      ensures parsed.Some? && parsed.value.points.Some? ==>
                && path == parsed
                && title == parsed.value.name.GetOr("")
                && memo == parsed.value.description.GetOr("")
                && share == parsed.value.canShare.GetOr(false)
                && routeItems == NormaliseAll(Successes(responses))
    {
      if parsed.None? || parsed.value.points.None? {
        return;
      }
      var course := parsed.value;
      path := parsed;
      title := course.name.GetOr("");
      memo := course.description.GetOr("");
      share := course.canShare.GetOr(false);
      var results := FetchAllNormalised(course.points.value, responses);
      routeItems := results;
    }

    /** The dialog's title field, memo field and share checkbox. */
    method SetTitle(value: string)
      modifies this
      ensures title == value
      ensures path == old(path) && memo == old(memo) && share == old(share) && routeItems == old(routeItems)
    {
      title := value;
    }

    method SetMemo(value: string)
      modifies this
      ensures memo == value
      ensures path == old(path) && title == old(title) && share == old(share) && routeItems == old(routeItems)
    {
      memo := value;
    }

    method SetShare(checked: bool)
      modifies this
      ensures share == checked
      ensures path == old(path) && title == old(title) && memo == old(memo) && routeItems == old(routeItems)
    {
      share := checked;
    }

    /** `handleSave`: the body it posts to `/course` takes the title, memo,
        ids in list order and share flag, all defined. Whether the request
        succeeds is only logged, so it changes no state. */
    method HandleSave() returns (request: CourseRequest)
      ensures request == CourseRequest(Some(title), Some(memo), IdsOf(routeItems), Some(share))
      ensures |request.points| == |routeItems|
    {
      request := CourseRequest(Some(title), Some(memo), IdsOf(routeItems), Some(share));
    }
  }
}
