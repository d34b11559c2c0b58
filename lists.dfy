/** The array primitives the route editors are built from, as functions on
    sequences: `Array.prototype.filter` with a predicate, the filter by
    position that deletes one index, and the remove-then-insert move that
    `splice` (and dnd-kit's `arrayMove`) performs. */
module Lists {

  datatype Option<T> = None | Some(value: T) {
    /** JavaScript's `x || d` for a value that is either absent or truthy. */
    function GetOr(default: T): (r: T)
      ensures Some? ==> r == value
      ensures None? ==> r == default
    {
      match this
      case Some(v) => v
      case None => default
    }
  }

  /** `r` is obtained from `s` by deleting some elements, keeping the order
      of the rest. */
  ghost predicate SubsequenceOf<T>(r: seq<T>, s: seq<T>)
    decreases |s|
  {
    r == [] ||
    (s != [] && ((r[0] == s[0] && SubsequenceOf(r[1..], s[1..])) || SubsequenceOf(r, s[1..])))
  }

  /** `s.filter(keep)`: the elements that pass, in their original order. */
  function Filter<T(!new)>(s: seq<T>, keep: T -> bool): (r: seq<T>)
    ensures |r| <= |s|
    ensures forall x :: x in r <==> x in s && keep(x)
    ensures forall x :: keep(x) ==> multiset(r)[x] == multiset(s)[x]
    ensures forall x :: !keep(x) ==> multiset(r)[x] == 0
    decreases |s|
  {
    if s == [] then []
    else
      var rest := Filter(s[1..], keep);
      assert s == [s[0]] + s[1..];
      if keep(s[0]) then [s[0]] + rest else rest
  }

  lemma {:induction false} FilterIsSubsequence<T(!new)>(s: seq<T>, keep: T -> bool)
    ensures SubsequenceOf(Filter(s, keep), s)
    decreases |s|
  {
    if s != [] {
      FilterIsSubsequence(s[1..], keep);
      var r := Filter(s, keep);
      if keep(s[0]) {
        assert r[0] == s[0] && r[1..] == Filter(s[1..], keep);
      } else {
        assert r == Filter(s[1..], keep);
        SubsequenceSkip(r, s);
      }
    }
  }

  /** A subsequence of the tail is a subsequence of the whole. */
  lemma {:induction false} SubsequenceSkip<T>(r: seq<T>, s: seq<T>)
    requires s != [] && SubsequenceOf(r, s[1..])
    ensures SubsequenceOf(r, s)
  {
  }

  /** Filtering a second time with the same predicate changes nothing. */
  lemma {:induction false} FilterIdempotent<T(!new)>(s: seq<T>, keep: T -> bool)
    ensures Filter(Filter(s, keep), keep) == Filter(s, keep)
    decreases |s|
  {
    if s != [] {
      FilterIdempotent(s[1..], keep);
      var rest := Filter(s[1..], keep);
      if keep(s[0]) {
        assert ([s[0]] + rest)[1..] == rest;
      }
    }
  }

  /** When every element passes, the filter returns its input. */
  lemma {:induction false} FilterKeepsAll<T(!new)>(s: seq<T>, keep: T -> bool)
    requires forall x :: x in s ==> keep(x)
    ensures Filter(s, keep) == s
    decreases |s|
  {
    if s != [] {
      assert s == [s[0]] + s[1..];
      FilterKeepsAll(s[1..], keep);
    }
  }

  /** `s.filter((_, i) => i !== idx)`: position `idx` deleted, when there is
      one; any other index leaves the list as it is. */
  function RemoveAt<T>(s: seq<T>, idx: int): (r: seq<T>)
    ensures 0 <= idx < |s| ==> |r| == |s| - 1 && multiset(r) + multiset{s[idx]} == multiset(s)
    ensures 0 <= idx < |s| ==> forall k :: 0 <= k < |r| ==> r[k] == s[if k < idx then k else k + 1]
    ensures !(0 <= idx < |s|) ==> r == s
  {
    if 0 <= idx < |s| then
      assert s == s[..idx] + [s[idx]] + s[idx + 1..];
      s[..idx] + s[idx + 1..]
    else s
  }

  /** `s.splice(idx, 0, x)`, for an index inside the list or at its end. */
  function Insert<T>(s: seq<T>, idx: nat, x: T): (r: seq<T>)
    requires idx <= |s|
    ensures |r| == |s| + 1 && r[idx] == x
    ensures forall k :: 0 <= k < |r| && k != idx ==> r[k] == s[if k < idx then k else k - 1]
    ensures multiset(r) == multiset(s) + multiset{x}
  {
    assert s == s[..idx] + s[idx..];
    s[..idx] + [x] + s[idx..]
  }

  /** Deleting what was just inserted gives the list back. */
  lemma RemoveInserted<T>(s: seq<T>, idx: nat, x: T)
    requires idx <= |s|
    ensures RemoveAt(Insert(s, idx, x), idx) == s
  {
    var r := Insert(s, idx, x);
    assert r[..idx] == s[..idx] && r[idx + 1..] == s[idx..];
    assert s == s[..idx] + s[idx..];
  }

  lemma InsertRemoved<T>(s: seq<T>, idx: nat)
    requires idx < |s|
    ensures Insert(RemoveAt(s, idx), idx, s[idx]) == s
  {
    var rest := RemoveAt(s, idx);
    assert rest == s[..idx] + s[idx + 1..];
    assert rest[..idx] == s[..idx] && rest[idx..] == s[idx + 1..];
    assert s == s[..idx] + [s[idx]] + s[idx + 1..];
  }

  /** The move performed by `const [x] = a.splice(from, 1); a.splice(to, 0, x)`:
      take the element at `from` out, then put it back at `to`. */
  function Move<T>(s: seq<T>, from: nat, to: nat): (r: seq<T>)
    requires from < |s| && to < |s|
    ensures |r| == |s| && r[to] == s[from]
    ensures multiset(r) == multiset(s)
  {
    Insert(RemoveAt(s, from), to, s[from])
  }

  /** Where every element of the moved list comes from: the elements between
      the two positions shift by one towards `from`, the rest stay put. */
  lemma MoveAt<T>(s: seq<T>, from: nat, to: nat, k: nat)
    requires from < |s| && to < |s| && k < |s|
    ensures Move(s, from, to)[k] ==
      if k == to then s[from]
      else if from <= k < to then s[k + 1]
      else if to < k <= from then s[k - 1]
      else s[k]
  {
    var rest := RemoveAt(s, from);
    var r := Move(s, from, to);
    assert r == rest[..to] + [s[from]] + rest[to..];
    if k < to {
      assert r[k] == rest[k];
    } else if k > to {
      assert r[k] == rest[k - 1];
    }
  }

  /** Every element other than the moved one keeps its relative order: taking
      the moved element out again leaves what taking it out first left. */
  lemma MoveKeepsOthersInOrder<T>(s: seq<T>, from: nat, to: nat)
    requires from < |s| && to < |s|
    ensures RemoveAt(Move(s, from, to), to) == RemoveAt(s, from)
  {
    RemoveInserted(RemoveAt(s, from), to, s[from]);
  }

  /** Moving to the same place is the identity. */
  lemma MoveSamePlace<T>(s: seq<T>, i: nat)
    requires i < |s|
    ensures Move(s, i, i) == s
  {
    InsertRemoved(s, i);
  }

  /** Dragging the element back to where it came from undoes the move. */
  lemma MoveBack<T>(s: seq<T>, from: nat, to: nat)
    requires from < |s| && to < |s|
    ensures Move(Move(s, from, to), to, from) == s
  {
    var r := Move(s, from, to);
    MoveKeepsOthersInOrder(s, from, to);
    assert Move(r, to, from) == Insert(RemoveAt(s, from), from, s[from]);
    InsertRemoved(s, from);
  }
}
