/**
 * Facts about the sequence of ids of a record collection, shared by the book
 * and the user store: the linear search both perform, the maximum the user
 * store computes, and the ordering invariant both keep.
 */
module IdSeq {

  import opened Wrappers

  /** The ids of a record sequence, in order, read by the record's `key` projection. */
  function Ids<T>(s: seq<T>, key: T -> int): (r: seq<int>)
    ensures |r| == |s|
    ensures forall i :: 0 <= i < |s| ==> r[i] == key(s[i])
  {
    seq(|s|, i requires 0 <= i < |s| => key(s[i]))
  }

  /** Ids strictly increase along the collection; in particular they are pairwise distinct. */
  predicate Increasing(ids: seq<int>)
  {
    forall i, j :: 0 <= i < j < |ids| ==> ids[i] < ids[j]
  }

  /** The position `std::find_if` stops at when it looks for `id`: the first match, or none. */
  function IndexOf(ids: seq<int>, id: int): (r: Option<nat>)
    ensures r.Some? ==> r.value < |ids| && ids[r.value] == id
    ensures r.Some? ==> forall j :: 0 <= j < r.value ==> ids[j] != id
    ensures r.None? <==> forall j :: 0 <= j < |ids| ==> ids[j] != id
  {
    if |ids| == 0 then None
    else if ids[0] == id then Some(0)
    else match IndexOf(ids[1..], id)
      case None => None
      case Some(k) => Some(k + 1)
  }

  /** The largest id, the value of the element `std::max_element` picks under `a.id < b.id`. */
  function MaxId(ids: seq<int>): (m: int)
    requires |ids| > 0
    ensures forall i :: 0 <= i < |ids| ==> ids[i] <= m
    ensures exists i :: 0 <= i < |ids| && ids[i] == m
  {
    if |ids| == 1 then ids[0]
    else
      var rest := MaxId(ids[1..]);
      if ids[0] < rest then rest else ids[0]
  }

  /** Appending an id above every present one keeps the order. */
  lemma IncreasingAppend(ids: seq<int>, id: int)
    requires Increasing(ids)
    requires forall i :: 0 <= i < |ids| ==> ids[i] < id
    ensures Increasing(ids + [id])
  {
  }

  /**
   * Erasing position `i` keeps the survivors in order, and since ids are
   * distinct the erased id is no longer found.
   */
  lemma IncreasingRemove(ids: seq<int>, i: nat)
    requires Increasing(ids) && i < |ids|
    ensures Increasing(ids[..i] + ids[i + 1..])
    ensures IndexOf(ids[..i] + ids[i + 1..], ids[i]).None?
  {
  }
}
