/** ArrayHash, the keyed list the server keeps its users, spectators,
    connections and entities in. Its source is not part of this model; it is
    specified by what the server relies on: `push` appends, `lookup` finds the
    entry under a key, `remove` drops the entry with that key. */
module Keyed {
  import opened Wrappers

  /** `lookup(k)`: the position of the first entry under `k`. */
  function Find<T>(xs: seq<T>, key: T -> int, k: int): (r: Option<nat>)
    ensures r.Some? ==> r.value < |xs| && key(xs[r.value]) == k
    ensures r.Some? ==> forall j :: 0 <= j < r.value ==> key(xs[j]) != k
    ensures r.None? ==> forall j :: 0 <= j < |xs| ==> key(xs[j]) != k
  {
    if |xs| == 0 then None
    else if key(xs[0]) == k then Some(0)
    else match Find(xs[1..], key, k)
      case None => None
      case Some(i) => Some(i + 1)
  }

  predicate Has<T>(xs: seq<T>, key: T -> int, k: int) {
    Find(xs, key, k).Some?
  }

  /** `remove`: every entry under `k` goes, the others keep their order. */
  function Remove<T>(xs: seq<T>, key: T -> int, k: int): (r: seq<T>)
    ensures |r| <= |xs|
    ensures forall j :: 0 <= j < |r| ==> key(r[j]) != k
    ensures forall j :: 0 <= j < |xs| && key(xs[j]) != k ==> xs[j] in r
    ensures forall j :: 0 <= j < |r| ==> r[j] in xs
  {
    if |xs| == 0 then []
    else if key(xs[0]) == k then Remove(xs[1..], key, k)
    else [xs[0]] + Remove(xs[1..], key, k)
  }

  /** At most one entry per key. */
  predicate UniqueKeys<T>(xs: seq<T>, key: T -> int) {
    forall i, j :: 0 <= i < j < |xs| ==> key(xs[i]) != key(xs[j])
  }
}
