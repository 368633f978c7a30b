/** Concatenating a list of lists: b"".join for byte chunks, "".join for
    strings, and the one-level flattening of nested result tables. */
module Seqs {

  /** All the inner sequences, one after another. */
  function Flatten<T>(xs: seq<seq<T>>): seq<T>
  {
    if xs == [] then [] else Flatten(xs[..|xs| - 1]) + xs[|xs| - 1]
  }

  lemma FlattenSnoc<T>(zs: seq<seq<T>>, x: seq<T>)
    ensures Flatten(zs + [x]) == Flatten(zs) + x
  {
    assert (zs + [x])[..|zs|] == zs;
  }

  /** One more inner sequence of a prefix adds its elements at the end. */
  lemma FlattenPrefixSnoc<T>(xs: seq<seq<T>>, i: nat)
    requires i < |xs|
    ensures Flatten(xs[..i + 1]) == Flatten(xs[..i]) + xs[i]
  {
    assert xs[..i + 1] == xs[..i] + [xs[i]];
    FlattenSnoc(xs[..i], xs[i]);
  }

  /** Extending the prefix of the second part by one element appends that element. */
  lemma AppendPrefixSnoc<T>(done: seq<T>, xs: seq<T>, j: nat)
    requires j < |xs|
    ensures done + xs[..j + 1] == (done + xs[..j]) + [xs[j]]
  {
    assert xs[..j + 1] == xs[..j] + [xs[j]];
  }

  /** Flattening distributes over concatenation. */
  lemma {:induction false} FlattenAppend<T>(xs: seq<seq<T>>, ys: seq<seq<T>>)
    ensures Flatten(xs + ys) == Flatten(xs) + Flatten(ys)
    decreases |ys|
  {
    if ys == [] {
      assert xs + ys == xs;
    } else {
      var init, last := ys[..|ys| - 1], ys[|ys| - 1];
      assert ys == init + [last];
      assert xs + ys == (xs + init) + [last];
      FlattenSnoc(xs + init, last);
      FlattenSnoc(init, last);
      FlattenAppend(xs, init);
    }
  }
}
