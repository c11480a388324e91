/** Small facts about sequence concatenation, stated once so that the proofs
    that need them do not ask the solver for extensional equality in a large
    context, and the one map over a sequence the model uses. */
module Seqs {
  /** `xs.map(f)`: `f` applied to each element, in order. */
  function Map<A, B>(xs: seq<A>, f: A -> B): (r: seq<B>)
    ensures |r| == |xs| && forall j :: 0 <= j < |xs| ==> r[j] == f(xs[j])
  {
    if |xs| == 0 then [] else [f(xs[0])] + Map(xs[1..], f)
  }

  lemma Assoc<T>(a: seq<T>, b: seq<T>, c: seq<T>)
    ensures (a + b) + c == a + (b + c)
  {
  }

  lemma HeadTail<T>(xs: seq<T>)
    requires |xs| > 0
    ensures [xs[0]] + xs[1..] == xs
  {
  }

  lemma DropCons<T>(x: T, xs: seq<T>)
    ensures ([x] + xs)[1..] == xs
  {
  }

  lemma SplitFirst<T>(xs: seq<T>, ys: seq<T>)
    requires |ys| > 0
    ensures xs + [ys[0]] + ys[1..] == xs + ys
  {
    assert ys == [ys[0]] + ys[1..];
  }
}
