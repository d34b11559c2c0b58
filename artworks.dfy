/** The records the route pages pass around: an artwork as the backend
    returns it, a course as it travels in the page URL, the body of a course
    POST, and the outcome of fetching one artwork. Plus the id-based list
    operations the pages share: the payload's `map(item => item.id)`,
    `findIndex` by id and `filter` by id. */
module Artworks {
  import opened Lists

  type ArtworkId = int

  /** An artwork. `kind` is the backend's `type` field; `location` and
      `category` are the display fields some pages copy from `address` and
      `type`. A field the JSON lacks is `None` (JavaScript's `undefined`).
      Image, description and the other display-only fields are not kept. */
  datatype Artwork = Artwork(
    id: ArtworkId,
    name: string,
    address: Option<string>,
    kind: Option<string>,
    location: Option<string>,
    category: Option<string>)

  /** The outcome of `fetch(.../artwork/{id})` followed by `res.json()`: a
      rejected request, a status other than 2xx and a body that is not JSON
      all end in the same `catch`. */
  datatype FetchOutcome = Fetched(artwork: Artwork) | FetchFailed

  /** A course as decoded from the `path` query parameter. Fields the JSON
      lacks are `None`; `extra` holds its remaining fields (id, time,
      createdAt, ...), which the editors carry along untouched. */
  datatype Course = Course(
    name: Option<string>,
    description: Option<string>,
    points: Option<seq<ArtworkId>>,
    canShare: Option<bool>,
    extra: map<string, string>)

  /** The body of `POST /course`: exactly these four fields. A `None` field is
      `undefined`, which `JSON.stringify` leaves out of the body. */
  datatype CourseRequest = CourseRequest(
    name: Option<string>,
    description: Option<string>,
    points: seq<ArtworkId>,
    canShare: Option<bool>)

  /** `items.map(item => item.id)`. */
  function IdsOf(items: seq<Artwork>): (ids: seq<ArtworkId>)
    ensures |ids| == |items|
    ensures forall k :: 0 <= k < |items| ==> ids[k] == items[k].id
  {
    if items == [] then [] else [items[0].id] + IdsOf(items[1..])
  }

  /** Inserting an entry inserts its id at the same position. */
  lemma IdsOfInsert(items: seq<Artwork>, idx: nat, x: Artwork)
    requires idx <= |items|
    ensures IdsOf(Insert(items, idx, x)) == Insert(IdsOf(items), idx, x.id)
  {
    var inserted, ids := Insert(items, idx, x), IdsOf(items);
    var l, r := IdsOf(inserted), Insert(ids, idx, x.id);
    assert |l| == |r|;
    forall k | 0 <= k < |l|
      ensures l[k] == r[k]
    {
      if k == idx {
        assert l[k] == inserted[k].id == x.id;
      } else {
        var j := if k < idx then k else k - 1;
        assert l[k] == inserted[k].id == items[j].id;
        assert r[k] == ids[j];
      }
    }
    assert l == r;
  }

  /** Reordering the list reorders the ids the same way. */
  lemma IdsOfMove(items: seq<Artwork>, from: nat, to: nat)
    requires from < |items| && to < |items|
    ensures IdsOf(Move(items, from, to)) == Move(IdsOf(items), from, to)
  {
    var rest := RemoveAt(items, from);
    IdsOfInsert(rest, to, items[from]);
    IdsOfRemoveAt(items, from);
  }

  /** Deleting a position deletes the same position of the ids. */
  lemma IdsOfRemoveAt(items: seq<Artwork>, idx: int)
    ensures IdsOf(RemoveAt(items, idx)) == RemoveAt(IdsOf(items), idx)
  {
    var l, r := IdsOf(RemoveAt(items, idx)), RemoveAt(IdsOf(items), idx);
    assert |l| == |r|;
    forall k | 0 <= k < |l|
      ensures l[k] == r[k]
    {
    }
  }

  /** `items.findIndex(item => item.id === id)`: the first position holding
      `id`, or -1 when there is none. */
  function IndexOfId(items: seq<Artwork>, id: ArtworkId): (i: int)
    ensures -1 <= i < |items|
    ensures i == -1 <==> id !in IdsOf(items)
    ensures 0 <= i ==> items[i].id == id && forall k :: 0 <= k < i ==> items[k].id != id
  {
    if items == [] then -1
    else if items[0].id == id then 0
    else
      var j := IndexOfId(items[1..], id);
      assert IdsOf(items) == [items[0].id] + IdsOf(items[1..]);
      if j == -1 then -1 else j + 1
  }

  /** `items.filter(i => i.id !== id)`. */
  function RemoveId(items: seq<Artwork>, id: ArtworkId): (r: seq<Artwork>)
    ensures id !in IdsOf(r)
    ensures forall a :: a in r ==> a in items
    ensures forall a: Artwork :: a.id != id ==> multiset(r)[a] == multiset(items)[a]
  {
    var r := Filter(items, (a: Artwork) => a.id != id);
    assert forall k :: 0 <= k < |r| ==> r[k] in r;
    r
  }

  /** Removing an id keeps the other entries in their original order. */
  lemma RemoveIdKeepsOrder(items: seq<Artwork>, id: ArtworkId)
    ensures SubsequenceOf(RemoveId(items, id), items)
  {
    FilterIsSubsequence(items, (a: Artwork) => a.id != id);
  }

  /** Removing an id that is not there changes nothing. */
  lemma RemoveAbsentId(items: seq<Artwork>, id: ArtworkId)
    requires id !in IdsOf(items)
    ensures RemoveId(items, id) == items
  {
    forall a | a in items
      ensures a.id != id
    {
      var k :| 0 <= k < |items| && items[k] == a;
    }
    FilterKeepsAll(items, (a: Artwork) => a.id != id);
  }

  /** Removing the same id twice is removing it once. */
  lemma RemoveIdIdempotent(items: seq<Artwork>, id: ArtworkId)
    ensures RemoveId(RemoveId(items, id), id) == RemoveId(items, id)
  {
    FilterIdempotent(items, (a: Artwork) => a.id != id);
  }

  /** The artworks whose fetch succeeded, in the order they were fetched:
      what the loaders' `results.push(result)` collects. */
  function Successes(responses: seq<FetchOutcome>): (items: seq<Artwork>)
    ensures |items| <= |responses|
    ensures forall a :: a in items <==> Fetched(a) in responses
  {
    if responses == [] then []
    else
      var init := responses[..|responses| - 1];
      assert responses == init + [responses[|responses| - 1]];
      match responses[|responses| - 1]
      case Fetched(a) => Successes(init) + [a]
      case FetchFailed => Successes(init)
  }

  /** Fetching two batches one after the other collects the two batches'
      successes in that order. */
  lemma {:induction false} SuccessesAppend(xs: seq<FetchOutcome>, ys: seq<FetchOutcome>)
    ensures Successes(xs + ys) == Successes(xs) + Successes(ys)
    decreases |ys|
  {
    if ys == [] {
      assert xs + ys == xs;
    } else {
      var init := ys[..|ys| - 1];
      assert (xs + ys)[..|xs + ys| - 1] == xs + init;
      SuccessesAppend(xs, init);
    }
  }

  /** When every fetch fails, nothing is collected. */
  lemma {:induction false} SuccessesAllFailed(responses: seq<FetchOutcome>)
    requires forall k :: 0 <= k < |responses| ==> responses[k] == FetchFailed
    ensures Successes(responses) == []
    decreases |responses|
  {
    if responses != [] {
      SuccessesAllFailed(responses[..|responses| - 1]);
    }
  }
}
