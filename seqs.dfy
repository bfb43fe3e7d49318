/** Sequence helpers shared by the page scripts: the linear scans that
  * `Array.prototype.find`, `indexOf`, `getElementById` and `querySelector`
  * perform over an ordered collection. */
module Seqs {
  import opened Wrappers

  /** The index of the first occurrence of `x` in `xs`, if any. */
  function FirstIndexOf<T(==)>(xs: seq<T>, x: T): (r: Option<nat>)
    ensures r.None? <==> x !in xs
    ensures r.Some? ==> r.value < |xs| && xs[r.value] == x && x !in xs[..r.value]
  {
    if xs == [] then None
    else if xs[0] == x then Some(0)
    else
      match FirstIndexOf(xs[1..], x)
      case None => None
      case Some(i) =>
        assert xs[1..][..i] == xs[1..i + 1];
        Some(i + 1)
  }

  /** Any position of `x` with no earlier occurrence is the one FirstIndexOf finds. */
  lemma FirstIndexOfUnique<T>(xs: seq<T>, x: T, i: nat)
    requires i < |xs| && xs[i] == x && x !in xs[..i]
    ensures FirstIndexOf(xs, x) == Some(i)
  {
  }
}
