/** The two pure helpers of the engine: `clampValue` and `resolveCards`. */
module Helpers {
  import opened Wrappers

  /** `Math.min(max, Math.max(min, value))`. */
  function ClampValue(value: int, min: int, max: int): (r: int)
    ensures min <= max ==> min <= r <= max
    ensures min <= value <= max ==> r == value
    ensures min <= max && value < min ==> r == min
    ensures max < value ==> r == max
    ensures max < min ==> r == max
  {
    var atLeastMin := if value < min then min else value;
    if max < atLeastMin then max else atLeastMin
  }

  /** Clamping twice into the same range is clamping once. */
  lemma ClampValueIdempotent(value: int, min: int, max: int)
    ensures ClampValue(ClampValue(value, min, max), min, max) == ClampValue(value, min, max)
  {
  }

  /**
   * `ids.map(resolver).filter(Boolean)`: resolve every id in order and drop the
   * ones that do not resolve (a resolver answer of None stands for null/undefined).
   */
  function ResolveCards<T>(ids: seq<string>, resolver: string -> Option<T>): (r: seq<T>)
    ensures |r| <= |ids|
    ensures forall i :: 0 <= i < |ids| && resolver(ids[i]).Some? ==> resolver(ids[i]).value in r
    ensures forall x :: x in r ==> exists i :: 0 <= i < |ids| && resolver(ids[i]) == Some(x)
    ensures (forall i :: 0 <= i < |ids| ==> resolver(ids[i]).Some?) ==>
      |r| == |ids| && forall i :: 0 <= i < |ids| ==> r[i] == resolver(ids[i]).value
  {
    if ids == [] then []
    else
      var rest := ResolveCards(ids[1..], resolver);
      assert forall i :: 1 <= i < |ids| ==> ids[i] == ids[1..][i - 1];
      match resolver(ids[0])
      case Some(c) => [c] + rest
      case None => rest
  }

  /**
   * Resolution works id by id in order: resolving `ids + [id]` appends the
   * resolution of `id` (if any) to the resolution of `ids`.
   */
  lemma {:induction false} ResolveCardsAppend<T>(ids: seq<string>, id: string, resolver: string -> Option<T>)
    ensures ResolveCards(ids + [id], resolver) ==
      ResolveCards(ids, resolver) + (if resolver(id).Some? then [resolver(id).value] else [])
  {
    if ids == [] {
      assert ids + [id] == [id];
    } else {
      assert (ids + [id])[1..] == ids[1..] + [id];
      ResolveCardsAppend(ids[1..], id, resolver);
    }
  }

  /** An empty id list resolves to an empty list. */
  lemma ResolveCardsEmpty<T>(resolver: string -> Option<T>)
    ensures ResolveCards([], resolver) == []
  {
  }
}
