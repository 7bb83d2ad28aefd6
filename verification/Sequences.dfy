/** A few things about sequences in general. */
module Sequences {
  /** The sequence without its i-th element. */
  function Without<T>(xs: seq<T>, i: nat): seq<T>
    requires i < |xs|
  {
    xs[..i] + xs[i + 1..]
  }

  function Last<T>(xs: seq<T>): T
    requires xs != []
  {
    xs[|xs| - 1]
  }

  lemma Slices<T>(h: seq<T>, p: seq<T>, r: seq<T>)
    ensures (h + p + r)[..|h|] == h && (h + p + r)[|h|..|h| + |p|] == p && (h + p + r)[|h| + |p|..] == r
  {
  }
}
