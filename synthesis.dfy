/** The Piper delivery paths of AudioProcessor (src/audio_module.py):
    cutting synthesized audio into fixed-size chunks for the audio queue,
    and batching streamed text three chunks at a time.  The synthesizer is
    an uninterpreted function from text to bytes, giving None where it
    raises; the stop event is a signal that, once set, stays set. */
module Synthesis {
  import opened Wrappers
  import opened Seqs

  newtype byte = x: int | 0 <= x < 256

  type Bytes = seq<byte>

  /** 4096 16-bit samples. */
  const ChunkSize: nat := 8192

  /** The consecutive slices of at most ChunkSize bytes, as range(0, len, 8192) walks them. */
  function Chunks(audio: Bytes): (r: seq<Bytes>)
    ensures audio == [] <==> r == []
    decreases |audio|
  {
    if audio == [] then []
    else if |audio| <= ChunkSize then [audio]
    else [audio[..ChunkSize]] + Chunks(audio[ChunkSize..])
  }

  /** Every chunk holds between one and ChunkSize bytes, and all but the
      last hold exactly ChunkSize. */
  lemma {:induction false} ChunkSizes(audio: Bytes)
    ensures forall k :: 0 <= k < |Chunks(audio)| ==> 0 < |Chunks(audio)[k]| <= ChunkSize
    ensures forall k :: 0 <= k < |Chunks(audio)| - 1 ==> |Chunks(audio)[k]| == ChunkSize
    decreases |audio|
  {
    if |audio| > ChunkSize {
      ChunkSizes(audio[ChunkSize..]);
      var r := Chunks(audio);
      assert forall k :: 1 <= k < |r| ==> r[k] == Chunks(audio[ChunkSize..])[k - 1];
    }
  }

  /** The chunks put back together are the audio. */
  lemma {:induction false} FlattenChunks(audio: Bytes)
    ensures Flatten(Chunks(audio)) == audio
    decreases |audio|
  {
    if |audio| > ChunkSize {
      var head, tail := audio[..ChunkSize], audio[ChunkSize..];
      assert Chunks(audio) == [head] + Chunks(tail);
      FlattenChunks(tail);
      FlattenAppend([head], Chunks(tail));
      FlattenSnoc([], head);
      assert [] + [head] == [head];
      assert audio == head + tail;
    } else if audio != [] {
      FlattenSnoc([], audio);
      assert [] + [audio] == [audio];
    }
  }

  /** The stop event: never set, or set from a given stop check on (checks
      are numbered in the order the code consults the event). */
  datatype StopSignal = Never | SetFrom(check: nat)
  {
    predicate IsSet(at: nat)
    {
      SetFrom? && check <= at
    }
  }

  /** The audio queue the delivery paths put chunks into. */
  class ChunkQueue {
    var items: seq<Bytes>

    constructor ()
      ensures items == []
    {
      items := [];
    }

    method Put(chunk: Bytes)
      modifies this
      ensures items == old(items) + [chunk]
    {
      items := items + [chunk];
    }
  }

  /** How many of `n` chunks get through when chunk k is guarded by stop
      check from + k. */
  function Reach(stop: StopSignal, from: nat, n: nat): (d: nat)
    ensures d <= n
  {
    match stop
    case Never => n
    case SetFrom(s) => if s <= from then 0 else if s - from < n then s - from else n
  }

  /** One pass of the delivery loop: queues the slice starting at i and
      returns where the next one starts. */
  method PutChunk(audio: Bytes, i: nat, queue: ChunkQueue) returns (end: nat)
    requires i < |audio|
    modifies queue
    ensures end == (if i + ChunkSize <= |audio| then i + ChunkSize else |audio|)
    ensures queue.items == old(queue.items) + [audio[i..end]]
    ensures Chunks(audio[i..]) == [audio[i..end]] + Chunks(audio[end..])
  {
    end := if i + ChunkSize <= |audio| then i + ChunkSize else |audio|;
    var rest := audio[i..];
    if |rest| <= ChunkSize {
      assert rest == audio[i..end] && audio[end..] == [];
    } else {
      assert rest[..ChunkSize] == audio[i..end];
      assert rest[ChunkSize..] == audio[end..];
    }
    queue.Put(audio[i..end]);
  }

  /** A stop seen at check from + k, with k chunks out, ends the delivery
      exactly at k. */
  lemma ReachAtStop(stop: StopSignal, from: nat, k: nat, n: nat)
    requires k <= Reach(stop, from, n) && stop.IsSet(from + k)
    ensures Reach(stop, from, n) == k
  {
  }

  /** The delivery loop: before each chunk one stop check; a set event ends
      the delivery early.  Returns whether every chunk went out and how many
      checks have been made. */
  method DeliverChunks(audio: Bytes, stop: StopSignal, checks: nat, queue: ChunkQueue) returns (ok: bool, after: nat)
    modifies queue
    ensures queue.items == old(queue.items) + Chunks(audio)[..Reach(stop, checks, |Chunks(audio)|)]
    ensures ok <==> Reach(stop, checks, |Chunks(audio)|) == |Chunks(audio)|
    ensures after >= checks
  {
    ghost var chunks := Chunks(audio);
    var i := 0;
    var k := 0;
    while i < |audio|
      invariant 0 <= i <= |audio|
      invariant 0 <= k <= |chunks|
      invariant Chunks(audio[i..]) == chunks[k..]
      invariant queue.items == old(queue.items) + chunks[..k]
      invariant k <= Reach(stop, checks, |chunks|)
      decreases |audio| - i
    {
      if stop.IsSet(checks + k) {
        ReachAtStop(stop, checks, k, |chunks|);
        return false, checks + k + 1;
      }
      var end := PutChunk(audio, i, queue);
      assert chunks[k] == audio[i..end] && chunks[k + 1..] == Chunks(audio[end..]);
      assert chunks[..k + 1] == chunks[..k] + [audio[i..end]];
      i := end;
      k := k + 1;
    }
    assert audio[i..] == [];
    assert chunks[..k] == chunks;
    return true, checks + k;
  }

  /** How many chunks _synthesize_piper queues: check 0 guards the whole
      delivery, check k + 1 guards chunk k. */
  function Delivered(stop: StopSignal, n: nat): (d: nat)
    ensures d <= n
  {
    if stop.IsSet(0) then 0 else Reach(stop, 1, n)
  }

  /** _synthesize_piper: synthesizes once, then queues the chunks in order
      while the stop event stays clear.  `synthesized` is what the engine
      returned for the text, None when it raised; the exception is caught
      and reported as failure with nothing queued.  True iff every chunk
      was queued. */
  method SynthesizePiper(engineReady: bool, synthesized: Option<Bytes>, stop: StopSignal, queue: ChunkQueue)
    returns (ok: bool)
    modifies queue
    ensures !engineReady || synthesized.None? ==> !ok && queue.items == old(queue.items)
    ensures engineReady && synthesized.Some? ==>
      var audio := synthesized.value;
      && queue.items == old(queue.items) + Chunks(audio)[..Delivered(stop, |Chunks(audio)|)]
      && (ok <==> stop.Never? || stop.check > |Chunks(audio)|)
  {
    if !engineReady {
      return false;
    }
    if synthesized.None? {
      return false;
    }
    if stop.IsSet(0) {
      return false;
    }
    var after;
    ok, after := DeliverChunks(synthesized.value, stop, 1, queue);
  }

  /** The batching state after some text chunks: the complete batches
      (each a group of chunks) and the chunks still buffered. */
  datatype Batching = Batching(groups: seq<seq<string>>, buffer: seq<string>)

  /** Empty chunks are skipped; the third buffered chunk completes a batch. */
  function Step(b: Batching, text: string): Batching
  {
    if text == "" then b
    else if |b.buffer + [text]| >= 3 then Batching(b.groups + [b.buffer + [text]], [])
    else Batching(b.groups, b.buffer + [text])
  }

  function Accumulate(texts: seq<string>): Batching
  {
    if texts == [] then Batching([], []) else Step(Accumulate(texts[..|texts| - 1]), texts[|texts| - 1])
  }

  /** The texts handed to the synthesizer: each complete batch, then the remainder if any. */
  function Batches(texts: seq<string>): (r: seq<string>)
  {
    var acc := Accumulate(texts);
    seq(|acc.groups|, k requires 0 <= k < |acc.groups| => Flatten(acc.groups[k]))
      + (if acc.buffer != [] then [Flatten(acc.buffer)] else [])
  }

  function NonEmpty(texts: seq<string>): seq<string>
  {
    if texts == [] then []
    else NonEmpty(texts[..|texts| - 1]) + (if texts[|texts| - 1] == "" then [] else [texts[|texts| - 1]])
  }

  /** The batches partition the non-empty chunks, in order. */
  lemma {:induction false} BatchingPartitions(texts: seq<string>)
    ensures Flatten(Accumulate(texts).groups) + Accumulate(texts).buffer == NonEmpty(texts)
    decreases |texts|
  {
    if texts != [] {
      var init := texts[..|texts| - 1];
      var last := texts[|texts| - 1];
      BatchingPartitions(init);
      var a := Accumulate(init);
      if last != "" && |a.buffer + [last]| >= 3 {
        var gs := a.groups + [a.buffer + [last]];
        assert gs[..|gs| - 1] == a.groups;
      }
    }
  }

  /** Every complete batch holds three chunks and fewer than three stay buffered. */
  lemma {:induction false} BatchSizes(texts: seq<string>)
    ensures forall k :: 0 <= k < |Accumulate(texts).groups| ==> |Accumulate(texts).groups[k]| == 3
    ensures |Accumulate(texts).buffer| < 3
    decreases |texts|
  {
    if texts != [] {
      BatchSizes(texts[..|texts| - 1]);
    }
  }

  /** No batch contains an empty chunk. */
  lemma {:induction false} NonEmptyHasNoEmpty(texts: seq<string>)
    ensures forall t :: t in NonEmpty(texts) ==> t != ""
    decreases |texts|
  {
    if texts != [] {
      NonEmptyHasNoEmpty(texts[..|texts| - 1]);
    }
  }

  lemma {:induction false} ConcatNonEmpty(texts: seq<string>)
    ensures Flatten(NonEmpty(texts)) == Flatten(texts)
    decreases |texts|
  {
    if texts != [] {
      var init := texts[..|texts| - 1];
      var last := texts[|texts| - 1];
      ConcatNonEmpty(init);
      FlattenAppend(NonEmpty(init), if last == "" then [] else [last]);
      if last != "" {
        assert [last][..0] == [];
      }
    }
  }

  function GroupTexts(gs: seq<seq<string>>): (r: seq<string>)
    ensures |r| == |gs|
  {
    seq(|gs|, k requires 0 <= k < |gs| => Flatten(gs[k]))
  }

  lemma {:induction false} ConcatGroups(gs: seq<seq<string>>)
    ensures Flatten(GroupTexts(gs)) == Flatten(Flatten(gs))
    decreases |gs|
  {
    if gs != [] {
      var init := gs[..|gs| - 1];
      ConcatGroups(init);
      assert GroupTexts(gs) == GroupTexts(init) + [Flatten(gs[|gs| - 1])];
      FlattenAppend(Flatten(init), gs[|gs| - 1]);
      FlattenAppend(GroupTexts(init), [Flatten(gs[|gs| - 1])]);
      assert [Flatten(gs[|gs| - 1])][..0] == [];
    }
  }

  /** Without a stop, the synthesized texts put together are the streamed text. */
  lemma ConcatBatches(texts: seq<string>)
    ensures Flatten(Batches(texts)) == Flatten(texts)
  {
    var acc := Accumulate(texts);
    BatchingPartitions(texts);
    ConcatNonEmpty(texts);
    ConcatGroups(acc.groups);
    assert Batches(texts) == GroupTexts(acc.groups) + (if acc.buffer != [] then [Flatten(acc.buffer)] else []);
    FlattenAppend(GroupTexts(acc.groups), if acc.buffer != [] then [Flatten(acc.buffer)] else []);
    FlattenAppend(Flatten(acc.groups), acc.buffer);
    if acc.buffer != [] {
      assert [Flatten(acc.buffer)][..0] == [];
    }
  }

  /** The chunks queued for a list of synthesized texts; a text whose
      synthesis raises contributes nothing. */
  function AudioFor(synth: string -> Option<Bytes>, batches: seq<string>): seq<Bytes>
  {
    if batches == [] then [] else AudioFor(synth, batches[..|batches| - 1]) + Chunks(synth(batches[|batches| - 1]).GetOr([]))
  }

  /** Every text of `batches` synthesizes without raising. */
  predicate AllSynthesize(synth: string -> Option<Bytes>, batches: seq<string>)
  {
    forall k :: 0 <= k < |batches| ==> synth(batches[k]).Some?
  }

  lemma AllSynthesizeAppend(synth: string -> Option<Bytes>, done: seq<string>, b: string)
    requires AllSynthesize(synth, done) && synth(b).Some?
    ensures AllSynthesize(synth, done + [b])
  {
    assert forall k :: 0 <= k < |done| ==> (done + [b])[k] == done[k];
  }

  /** How many leading texts synthesize before the first one that raises. */
  function Synthesized(synth: string -> Option<Bytes>, batches: seq<string>): (n: nat)
    ensures n <= |batches| && AllSynthesize(synth, batches[..n])
    ensures n < |batches| ==> synth(batches[n]).None?
    decreases |batches|
  {
    if batches == [] || synth(batches[0]).None? then 0 else 1 + Synthesized(synth, batches[1..])
  }

  /** Every text synthesizes iff none raises before the end. */
  lemma SynthesizedAll(synth: string -> Option<Bytes>, batches: seq<string>)
    ensures Synthesized(synth, batches) == |batches| <==> AllSynthesize(synth, batches)
  {
    if Synthesized(synth, batches) == |batches| {
      assert batches[..|batches|] == batches;
    }
  }

  /** When every text synthesizes, the audio up to the first failure is all of it. */
  lemma EverySynthesized(synth: string -> Option<Bytes>, batches: seq<string>)
    requires AllSynthesize(synth, batches)
    ensures AudioFor(synth, batches[..Synthesized(synth, batches)]) == AudioFor(synth, batches)
  {
    SynthesizedAll(synth, batches);
    assert batches[..|batches|] == batches;
  }

  /** A raising text right after texts that all synthesize is the first failure. */
  lemma FirstFailure(synth: string -> Option<Bytes>, done: seq<string>, b: string, batches: seq<string>)
    requires done + [b] <= batches && AllSynthesize(synth, done) && synth(b).None?
    ensures Synthesized(synth, batches) == |done| && batches[..|done|] == done
    ensures !AllSynthesize(synth, batches)
  {
    var n := Synthesized(synth, batches);
    assert batches[|done|] == (done + [b])[|done|] == b;
    assert batches[..|done|] == (done + [b])[..|done|] == done;
    assert forall k :: 0 <= k < |done| ==> synth(batches[k]).Some?;
    assert forall k :: 0 <= k < n ==> synth(batches[k]).Some?;
  }

  lemma {:induction false} AudioForPrefix(synth: string -> Option<Bytes>, a: seq<string>, b: seq<string>)
    requires a <= b
    ensures AudioFor(synth, a) <= AudioFor(synth, b)
    decreases |b|
  {
    if a != b {
      AudioForPrefix(synth, a, b[..|b| - 1]);
    }
  }

  /** Complete batches only grow as more chunks arrive. */
  lemma {:induction false} GroupsGrow(texts: seq<string>, i: nat)
    requires i <= |texts|
    ensures GroupTexts(Accumulate(texts[..i]).groups) <= GroupTexts(Accumulate(texts).groups)
    decreases |texts| - i
  {
    if i < |texts| {
      GroupsGrow(texts, i + 1);
      assert texts[..i + 1][..i] == texts[..i];
      var a := Accumulate(texts[..i]);
      var b := Accumulate(texts[..i + 1]);
      assert GroupTexts(a.groups) <= GroupTexts(b.groups);
    } else {
      assert texts[..i] == texts;
    }
  }

  /** Everything the generator path queues when nothing stops it. */
  function FullAudio(synth: string -> Option<Bytes>, texts: seq<string>): seq<Bytes>
  {
    AudioFor(synth, Batches(texts))
  }

  /** The audio of the complete batches only (a stop seen just before the
      final flush leaves out the remainder). */
  function CompleteAudio(synth: string -> Option<Bytes>, texts: seq<string>): seq<Bytes>
  {
    AudioFor(synth, GroupTexts(Accumulate(texts).groups))
  }

  lemma CompleteIsPrefix(synth: string -> Option<Bytes>, texts: seq<string>)
    ensures CompleteAudio(synth, texts) <= FullAudio(synth, texts)
  {
    AudioForPrefix(synth, GroupTexts(Accumulate(texts).groups), Batches(texts));
  }

  lemma PartialPrefix(x: seq<Bytes>, y: seq<Bytes>, d: nat, z: seq<Bytes>)
    requires x + y <= z && d <= |y|
    ensures x + y[..d] <= z
  {
    assert (x + y)[..|x| + d] == x + y[..d];
  }

  lemma AudioForLast(synth: string -> Option<Bytes>, bs: seq<string>, b: string)
    ensures AudioFor(synth, bs + [b]) == AudioFor(synth, bs) + Chunks(synth(b).GetOr([]))
  {
    assert (bs + [b])[..|bs|] == bs;
  }

  lemma GroupTextsLast(groups: seq<seq<string>>, g: seq<string>)
    ensures GroupTexts(groups + [g]) == GroupTexts(groups) + [Flatten(g)]
  {
  }

  lemma AccumulateNext(texts: seq<string>, i: nat)
    requires i < |texts|
    ensures Accumulate(texts[..i + 1]) == Step(Accumulate(texts[..i]), texts[i])
  {
    assert texts[..i + 1][..i] == texts[..i];
  }

  /** Completing a batch at chunk i: the new batch's audio follows the
      audio so far, and all of it is still a prefix of the complete audio. */
  lemma BatchCompleted(synth: string -> Option<Bytes>, texts: seq<string>, i: nat, groups: seq<seq<string>>, full: seq<string>)
    requires i < |texts| && texts[i] != ""
    requires Accumulate(texts[..i]).groups == groups
    requires full == Accumulate(texts[..i]).buffer + [texts[i]] && |full| >= 3
    ensures Accumulate(texts[..i + 1]) == Batching(groups + [full], [])
    ensures AudioFor(synth, GroupTexts(groups + [full])) == AudioFor(synth, GroupTexts(groups)) + Chunks(synth(Flatten(full)).GetOr([]))
    ensures GroupTexts(groups) + [Flatten(full)] <= Batches(texts)
    ensures AudioFor(synth, GroupTexts(groups + [full])) <= CompleteAudio(synth, texts)
  {
    AccumulateNext(texts, i);
    GroupTextsLast(groups, full);
    AudioForLast(synth, GroupTexts(groups), Flatten(full));
    GroupsGrow(texts, i + 1);
    AudioForPrefix(synth, GroupTexts(groups + [full]), GroupTexts(Accumulate(texts).groups));
    CompleteBatchesPrefix(texts);
    PrefixTransitive(GroupTexts(groups + [full]), GroupTexts(Accumulate(texts).groups), Batches(texts));
  }

  /** The complete batches come first among the synthesized texts. */
  lemma CompleteBatchesPrefix(texts: seq<string>)
    ensures GroupTexts(Accumulate(texts).groups) <= Batches(texts)
  {
  }

  lemma PrefixTransitive<T>(a: seq<T>, b: seq<T>, c: seq<T>)
    requires a <= b && b <= c
    ensures a <= c
  {
    assert c[..|a|] == b[..|a|];
  }

  /** One synthesis and the delivery of its audio after `sent` chunks:
      what has gone out stays within `limit` whenever the full batch does.
      A raising synthesis (None) fails with nothing queued. */
  method DeliverBatch(synthesized: Option<Bytes>, stop: StopSignal, checks: nat, ghost start: seq<Bytes>,
                      ghost sent: seq<Bytes>, ghost limit: seq<Bytes>, queue: ChunkQueue)
    returns (ok: bool, checks': nat, ghost sent': seq<Bytes>)
    requires queue.items == start + sent
    requires sent + Chunks(synthesized.GetOr([])) <= limit
    modifies queue
    ensures queue.items == start + sent' && sent' <= limit
    ensures synthesized.None? ==> !ok && sent' == sent
    ensures ok ==> sent' == sent + Chunks(synthesized.GetOr([]))
    ensures stop.Never? && synthesized.Some? ==> ok
  {
    if synthesized.None? {
      return false, checks, sent;
    }
    var audio := synthesized.value;
    ok, checks' := DeliverChunks(audio, stop, checks, queue);
    var d := Reach(stop, checks, |Chunks(audio)|);
    sent' := sent + Chunks(audio)[..d];
    PartialPrefix(sent, Chunks(audio), d, limit);
    if ok {
      assert Chunks(audio)[..d] == Chunks(audio);
    }
  }

  /** One pass of the text loop of _synthesize_generator_piper: a stop
      check, then buffering a non-empty chunk, and on the third buffered
      chunk a stop check, one synthesis and its delivery.  `go` is false
      when the stop event or a raising synthesis ended the pass; in the
      latter case what was queued before stays queued. */
  method BatchStep(texts: seq<string>, i: nat, synth: string -> Option<Bytes>, stop: StopSignal, checks: nat,
                   buffer: seq<string>, ghost groups: seq<seq<string>>, ghost start: seq<Bytes>, queue: ChunkQueue)
    returns (go: bool, checks': nat, buffer': seq<string>, ghost groups': seq<seq<string>>, ghost sent: seq<Bytes>)
    requires i < |texts|
    requires Batching(groups, buffer) == Accumulate(texts[..i])
    requires queue.items == start + AudioFor(synth, GroupTexts(groups))
    requires AudioFor(synth, GroupTexts(groups)) <= CompleteAudio(synth, texts)
    requires AllSynthesize(synth, GroupTexts(groups))
    modifies queue
    ensures queue.items == start + sent && sent <= CompleteAudio(synth, texts)
    ensures go ==> Batching(groups', buffer') == Accumulate(texts[..i + 1])
    ensures go ==> sent == AudioFor(synth, GroupTexts(groups')) && AllSynthesize(synth, GroupTexts(groups'))
    ensures stop.Never? && !go ==>
      !AllSynthesize(synth, Batches(texts)) && sent == AudioFor(synth, Batches(texts)[..Synthesized(synth, Batches(texts))])
  {
    groups' := groups;
    buffer' := buffer;
    sent := AudioFor(synth, GroupTexts(groups));
    if stop.IsSet(checks) {
      return false, checks, buffer', groups', sent;
    }
    checks' := checks + 1;
    AccumulateNext(texts, i);
    if texts[i] == "" {
      return true, checks', buffer', groups', sent;
    }
    buffer' := buffer' + [texts[i]];
    if |buffer'| < 3 {
      return true, checks', buffer', groups', sent;
    }
    var combined := Flatten(buffer');
    BatchCompleted(synth, texts, i, groups, buffer');
    ghost var done := groups + [buffer'];
    buffer' := [];
    if stop.IsSet(checks') {
      return false, checks', buffer', groups', sent;
    }
    checks' := checks' + 1;
    var delivered;
    delivered, checks', sent := DeliverBatch(synth(combined), stop, checks', start, sent, CompleteAudio(synth, texts), queue);
    if !delivered {
      if stop.Never? {
        FirstFailure(synth, GroupTexts(groups), combined, Batches(texts));
      }
      return false, checks', buffer', groups', sent;
    }
    GroupTextsLast(groups, done[|groups|]);
    AllSynthesizeAppend(synth, GroupTexts(groups), combined);
    return true, checks', buffer', done, sent;
  }

  /** The end of _synthesize_generator_piper: one stop check, then the
      remainder, if any, is synthesized and delivered; a raising synthesis
      fails with nothing more queued. */
  method FinalFlush(texts: seq<string>, synth: string -> Option<Bytes>, stop: StopSignal, checks: nat,
                    buffer: seq<string>, ghost groups: seq<seq<string>>, ghost start: seq<Bytes>,
                    ghost sent: seq<Bytes>, queue: ChunkQueue)
    returns (ok: bool, ghost sent': seq<Bytes>)
    requires Batching(groups, buffer) == Accumulate(texts)
    requires queue.items == start + sent && sent == AudioFor(synth, GroupTexts(groups))
    requires AllSynthesize(synth, GroupTexts(groups))
    modifies queue
    ensures queue.items == start + sent' && sent' <= FullAudio(synth, texts)
    ensures ok ==>
      (sent' == FullAudio(synth, texts) && AllSynthesize(synth, Batches(texts)))
      || (sent' == CompleteAudio(synth, texts) && AllSynthesize(synth, GroupTexts(groups)))
    ensures stop.Never? ==>
      (ok <==> AllSynthesize(synth, Batches(texts)))
      && sent' == AudioFor(synth, Batches(texts)[..Synthesized(synth, Batches(texts))])
  {
    sent' := sent;
    AudioForPrefix(synth, GroupTexts(groups), Batches(texts));
    if buffer != [] && !stop.IsSet(checks) {
      var combined := Flatten(buffer);
      assert Batches(texts) == GroupTexts(groups) + [combined];
      AudioForLast(synth, GroupTexts(groups), combined);
      var after;
      ok, after, sent' := DeliverBatch(synth(combined), stop, checks + 1, start, sent, FullAudio(synth, texts), queue);
      if synth(combined).None? {
        FirstFailure(synth, GroupTexts(groups), combined, Batches(texts));
      } else {
        AllSynthesizeAppend(synth, GroupTexts(groups), combined);
        EverySynthesized(synth, Batches(texts));
      }
      return;
    }
    assert buffer == [] ==> Batches(texts) == GroupTexts(groups);
    if buffer == [] {
      EverySynthesized(synth, Batches(texts));
    }
    return true, sent';
  }

  /** _synthesize_generator_piper.  Whatever is queued is a prefix of the
      full audio, and nothing queued is taken back; success means all of
      it with every text synthesized, or only the complete batches when
      the stop is seen just before the final flush.  With no stop the run
      succeeds iff every text synthesizes, and the queue holds the audio
      of the texts before the first that raises. */
  method SynthesizeGeneratorPiper(engineReady: bool, texts: seq<string>, synth: string -> Option<Bytes>,
                                  stop: StopSignal, queue: ChunkQueue) returns (ok: bool)
    modifies queue
    ensures old(queue.items) <= queue.items
    ensures !engineReady ==> !ok && queue.items == old(queue.items)
    ensures queue.items[|old(queue.items)|..] <= FullAudio(synth, texts)
    ensures ok ==>
      (queue.items[|old(queue.items)|..] == FullAudio(synth, texts) && AllSynthesize(synth, Batches(texts)))
      || (queue.items[|old(queue.items)|..] == CompleteAudio(synth, texts)
          && AllSynthesize(synth, GroupTexts(Accumulate(texts).groups)))
    ensures engineReady && stop.Never? ==>
      (ok <==> AllSynthesize(synth, Batches(texts)))
      && queue.items == old(queue.items) + AudioFor(synth, Batches(texts)[..Synthesized(synth, Batches(texts))])
  {
    if !engineReady {
      return false;
    }
    ghost var start := queue.items;
    ghost var sent: seq<Bytes> := [];
    CompleteIsPrefix(synth, texts);
    var checks := 0;
    var buffer: seq<string> := [];
    ghost var groups: seq<seq<string>> := [];
    for i := 0 to |texts|
      invariant Batching(groups, buffer) == Accumulate(texts[..i])
      invariant queue.items == start + sent
      invariant sent == AudioFor(synth, GroupTexts(groups))
      invariant sent <= CompleteAudio(synth, texts)
      invariant AllSynthesize(synth, GroupTexts(groups))
    {
      var go;
      go, checks, buffer, groups, sent := BatchStep(texts, i, synth, stop, checks, buffer, groups, start, queue);
      if !go {
        assert queue.items[|start|..] == sent;
        return false;
      }
    }
    assert texts[..|texts|] == texts;
    ok, sent := FinalFlush(texts, synth, stop, checks, buffer, groups, start, sent, queue);
    assert queue.items[|start|..] == sent;
  }
}
