/** Streaming 8 kHz audio as 16 kHz, and cutting the stream into recogniser frames. */
module Resampler {
  import opened Wrappers

  const LOW: int := -32768
  const HIGH: int := 32767

  /** A signed 16-bit sample. */
  type Sample = x: int | LOW <= x <= HIGH witness 0

  function Flatten<T>(chunks: seq<seq<T>>): seq<T> {
    if chunks == [] then [] else Flatten(chunks[..|chunks| - 1]) + chunks[|chunks| - 1]
  }

  /** The sample halfway between two others, rounded down. */
  function Mean(left: Sample, right: Sample): Sample { (left + right) / 2 }

  /** The k-th sample of the 16 kHz signal: a sample, or halfway to its successor; the last sample is held. */
  function At(signal: seq<Sample>, k: nat): Sample
    requires k < 2 * |signal|
  {
    var i := k / 2;
    if k % 2 == 0 then signal[i] else if i + 1 < |signal| then Mean(signal[i], signal[i + 1]) else signal[i]
  }

  /** The whole 16 kHz signal. */
  function Doubled(signal: seq<Sample>): seq<Sample> {
    seq(2 * |signal|, k requires 0 <= k < 2 * |signal| => At(signal, k))
  }

  /** What can be emitted before the successor of the last sample is known. */
  function Pending(signal: seq<Sample>): seq<Sample> {
    if signal == [] then [] else Doubled(signal)[..2 * |signal| - 2]
  }

  /** Each sample is followed by the floor of the mean with its successor, and the last is written twice. */
  lemma DoubledMeans(signal: seq<Sample>, i: nat)
    requires i < |signal|
    ensures |Doubled(signal)| == 2 * |signal|
    ensures Doubled(signal)[2 * i] == signal[i]
    ensures Doubled(signal)[2 * i + 1] == if i + 1 < |signal| then Mean(signal[i], signal[i + 1]) else signal[i]
  {}

  lemma PendingStep(signal: seq<Sample>, next: Sample)
    requires signal != []
    ensures Pending(signal + [next]) == Pending(signal) + [signal[|signal| - 1], Mean(signal[|signal| - 1], next)]
  {}

  lemma PendingEnds(signal: seq<Sample>)
    requires signal != []
    ensures Pending(signal) + [signal[|signal| - 1], signal[|signal| - 1]] == Doubled(signal)
  {}

  lemma FlattenStep<T>(chunks: seq<seq<T>>, chunk: seq<T>)
    ensures Flatten(chunks + [chunk]) == Flatten(chunks) + chunk
  {
    assert (chunks + [chunk])[..|chunks|] == chunks;
  }

  /**
   * Read the signal chunk by chunk, carrying one sample over each boundary. However it is cut into chunks,
   * what is written is the doubled signal.
   */
  method Upsample(chunks: seq<seq<Sample>>) returns (output: seq<seq<Sample>>)
    requires forall i :: 0 <= i < |chunks| ==> chunks[i] != []
    ensures Flatten(output) == Doubled(Flatten(chunks))
  {
    hide Flatten, Doubled, Pending;
    output := [];
    var previous: Option<Sample> := None;
    FlattenNothing<Sample>();
    NothingPending();
    assert chunks[..0] == [];
    for c := 0 to |chunks|
      invariant Flatten(output) == Pending(Flatten(chunks[..c]))
      invariant previous == if Flatten(chunks[..c]) == [] then None else Some(Flatten(chunks[..c])[|Flatten(chunks[..c])| - 1])
    {
      assert chunks[..c + 1] == chunks[..c] + [chunks[c]];
      FlattenStep(chunks[..c], chunks[c]);
      var written := Interpolate(Flatten(chunks[..c]), previous, chunks[c]);
      FlattenStep(output, written);
      output := output + [written];
      previous := Some(chunks[c][|chunks[c]| - 1]);
    }
    assert chunks[..|chunks|] == chunks;
    if previous.Some? {
      PendingEnds(Flatten(chunks));
      FlattenStep(output, [previous.value, previous.value]);
      output := output + [[previous.value, previous.value]];
    } else {
      NothingDoubled();
    }
  }

  lemma NothingDoubled()
    ensures Doubled([]) == []
  {}

  lemma FlattenNothing<T>()
    ensures Flatten<T>([]) == []
  {}

  lemma NothingPending()
    ensures Pending([]) == []
  {}

  lemma PendingOfOne(sample: Sample)
    ensures Pending([sample]) == []
  {}

  /** One chunk: the carried sample goes in front, and every sample with a successor is written with its mean. */
  method Interpolate(ghost before: seq<Sample>, previous: Option<Sample>, chunk: seq<Sample>) returns (output: seq<Sample>)
    requires chunk != []
    requires previous == if before == [] then None else Some(before[|before| - 1])
    ensures Pending(before) + output == Pending(before + chunk)
  {
    hide Pending, Mean;
    NothingPending();
    PendingOfOne(chunk[0]);
    var samples := (if previous.Some? then [previous.value] else []) + chunk;
    ghost var lead := if before == [] then [] else before[..|before| - 1];
    assert lead + samples == before + chunk;
    output := [];
    assert lead + samples[..1] == if before == [] then [chunk[0]] else before;
    assert Pending(before) + [] == Pending(before);
    for i := 0 to |samples| - 1
      invariant Pending(before) + output == Pending(lead + samples[..i + 1])
    {
      var left, right := samples[i], samples[i + 1];
      PendingStep(lead + samples[..i + 1], right);
      assert lead + samples[..i + 2] == lead + samples[..i + 1] + [right];
      assert Pending(before) + (output + [left, Mean(left, right)]) == Pending(before) + output + [left, Mean(left, right)];
      output := output + [left, Mean(left, right)];
    }
    assert samples[..|samples|] == samples;
  }

  /** Every interpolated sample lies between its neighbours, at most half a step below their exact mean. */
  lemma MeansLieBetween(signal: seq<Sample>, i: nat)
    requires i + 1 < |signal|
    ensures |Doubled(signal)| == 2 * |signal|
    ensures var left: int, right: int, m: int := signal[i], signal[i + 1], Doubled(signal)[2 * i + 1];
            (left <= m <= right || right <= m <= left) && 0 <= left + right - 2 * m <= 1
  {}

  // ---------------------------------------------------------------- frames

  type Byte = b: int | 0 <= b < 256

  /** The frames the recogniser is given and the bytes that wait for the next chunk. */
  datatype Cut = Cut(frames: seq<seq<Byte>>, waiting: seq<Byte>)

  /** Cut a stream of chunks into frames: no byte is lost or reordered, and less than a frame is left waiting. */
  method CutFrames(chunks: seq<seq<Byte>>, size: nat) returns (cut: Cut)
    requires size > 0
    ensures Flatten(cut.frames) + cut.waiting == Flatten(chunks)
    ensures |cut.waiting| < size && forall i :: 0 <= i < |cut.frames| ==> |cut.frames[i]| == size
    ensures |cut.frames| == |Flatten(chunks)| / size
  {
    hide Flatten;
    var frames: seq<seq<Byte>>, pending: seq<Byte> := [], [];
    FlattenNothing<Byte>();
    assert chunks[..0] == [];
    for c := 0 to |chunks|
      invariant Flatten(frames) + pending == Flatten(chunks[..c]) && |pending| < size
      invariant forall i :: 0 <= i < |frames| ==> |frames[i]| == size
    {
      assert chunks[..c + 1] == chunks[..c] + [chunks[c]];
      FlattenStep(chunks[..c], chunks[c]);
      pending := pending + chunks[c];
      while |pending| >= size
        invariant Flatten(frames) + pending == Flatten(chunks[..c + 1])
        invariant forall i :: 0 <= i < |frames| ==> |frames[i]| == size
        decreases |pending|
      {
        FrameMoves(frames, pending, size, Flatten(chunks[..c + 1]));
        frames, pending := frames + [pending[..size]], pending[size..];
      }
    }
    assert chunks[..|chunks|] == chunks;
    FramesHold(frames, size);
    WholeFrames(|Flatten(chunks)|, |frames|, size, |pending|);
    cut := Cut(frames, pending);
  }

  lemma FrameMoves(frames: seq<seq<Byte>>, pending: seq<Byte>, size: nat, all: seq<Byte>)
    requires size <= |pending| && Flatten(frames) + pending == all
    ensures Flatten(frames + [pending[..size]]) + pending[size..] == all
  {
    hide Flatten;
    FlattenStep(frames, pending[..size]);
    assert pending == pending[..size] + pending[size..];
  }

  lemma {:induction false} FramesHold(frames: seq<seq<Byte>>, size: nat)
    requires forall i :: 0 <= i < |frames| ==> |frames[i]| == size
    ensures |Flatten(frames)| == |frames| * size
  {
    if frames == [] {
      FlattenNothing<Byte>();
    } else {
      hide Flatten;
      var n := |frames| - 1;
      FramesHold(frames[..n], size);
      FlattenStep(frames[..n], frames[n]);
      assert frames[..n] + [frames[n]] == frames;
      assert (n + 1) * size == n * size + size;
    }
  }

  lemma WholeFrames(total: nat, frames: nat, size: nat, rest: nat)
    requires size > 0 && rest < size && total == frames * size + rest
    ensures total / size == frames
  {
    var q := total / size;
    assert q * size <= total < (q + 1) * size;
    assert q < frames ==> (q + 1) * size <= frames * size;
    assert q > frames ==> (frames + 1) * size <= q * size;
  }
}
