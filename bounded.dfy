/** An append-then-trim history: a list that keeps only its newest `cap`
    entries, dropping the oldest first.  The session's conversation buffer
    (a deque with maxlen 100) and the test dashboard's 20-entry detail list
    are both this structure. */
module Bounded {

  /** The newest `cap` entries of `xs`, in their original order. */
  function Window<T>(xs: seq<T>, cap: nat): (r: seq<T>)
    ensures |r| == if |xs| <= cap then |xs| else cap
  {
    if |xs| <= cap then xs else xs[|xs| - cap..]
  }

  /** Appending one entry to a history that is already trimmed. */
  function Push<T>(xs: seq<T>, x: T, cap: nat): (r: seq<T>)
  {
    Window(xs + [x], cap)
  }

  /** Trimming before or after an append makes no difference: pushing onto a
      trimmed history gives the trimmed full history. */
  lemma {:induction false} PushWindow<T>(xs: seq<T>, x: T, cap: nat)
    requires cap > 0
    ensures Push(Window(xs, cap), x, cap) == Window(xs + [x], cap)
  {
    if |xs| >= cap {
      var w := xs[|xs| - cap..];
      assert Window(xs, cap) == w;
      assert (w + [x])[1..] == w[1..] + [x];
      assert w[1..] == xs[|xs| + 1 - cap..];
      assert (xs + [x])[|xs| + 1 - cap..] == xs[|xs| + 1 - cap..] + [x];
    }
  }

  /** Pushing the entries of `ys` one by one, oldest first. */
  function PushAll<T>(xs: seq<T>, ys: seq<T>, cap: nat): (r: seq<T>)
    decreases |ys|
  {
    if ys == [] then xs else Push(PushAll(xs, ys[..|ys| - 1], cap), ys[|ys| - 1], cap)
  }

  /** Pushing one more entry of `ys` is one more push. */
  lemma PushAllPrefixSnoc<T>(xs: seq<T>, ys: seq<T>, i: nat, cap: nat)
    requires i < |ys|
    ensures PushAll(xs, ys[..i + 1], cap) == Push(PushAll(xs, ys[..i], cap), ys[i], cap)
  {
    assert ys[..i + 1][..i] == ys[..i];
  }

  /** Pushing entries one at a time onto an empty history keeps exactly the
      newest `cap` of them: the oldest are the ones dropped. */
  lemma {:induction false} PushAllIsWindow<T>(ys: seq<T>, cap: nat)
    requires cap > 0
    ensures PushAll([], ys, cap) == Window(ys, cap)
  {
    if ys != [] {
      var init := ys[..|ys| - 1];
      PushAllIsWindow(init, cap);
      PushWindow(init, ys[|ys| - 1], cap);
      assert init + [ys[|ys| - 1]] == ys;
    }
  }
}
