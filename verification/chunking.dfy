/**
 * Fixed-size chunking with zero padding of the last piece: the shape of every
 * audio loop of the form `for i in range(0, len(x), size)` whose short final
 * chunk is padded with silence.
 */
module Chunking {
  import opened Seqs

  /** Consecutive pieces of exactly size elements; the last one is completed with pad. */
  function PadChunks<T>(s: seq<T>, size: nat, pad: T): (r: seq<seq<T>>)
    requires size > 0
    ensures (|r| == 0) == (|s| == 0)
    ensures forall k :: 0 <= k < |r| ==> |r[k]| == size
    decreases |s|
  {
    if s == [] then []
    else if |s| >= size then [s[..size]] + PadChunks(s[size..], size, pad)
    else [s + Repeat(pad, size - |s|)]
  }

  lemma MulSucc(n: nat, size: nat)
    ensures (n + 1) * size == n * size + size
  {
  }

  /**
   * Concatenating the chunks gives back the input followed by fewer than size
   * padding elements, so there are exactly ceil(|s| / size) chunks.
   */
  lemma {:induction false} PadChunksFlatten<T>(s: seq<T>, size: nat, pad: T)
    requires size > 0
    ensures var r := PadChunks(s, size, pad);
      |Flatten(r)| == |r| * size && |s| <= |r| * size < |s| + size
      && Flatten(r) == s + Repeat(pad, |r| * size - |s|)
    decreases |s|
  {
    var r := PadChunks(s, size, pad);
    if s == [] {
    } else if |s| >= size {
      var rest := PadChunks(s[size..], size, pad);
      PadChunksFlatten(s[size..], size, pad);
      assert r[0] == s[..size] && r[1..] == rest;
      MulSucc(|rest|, size);
      assert s == s[..size] + s[size..];
    } else {
      assert r[1..] == [];
    }
  }

  /** The chunks still to produce once the elements before i are done. */
  function RemainingChunks<T>(s: seq<T>, size: nat, pad: T, i: nat): seq<seq<T>>
    requires size > 0
  {
    if i < |s| then PadChunks(s[i..], size, pad) else []
  }

  /** The chunk that starts at i: the next size elements, padded when fewer are left. */
  function ChunkAt<T>(s: seq<T>, size: nat, pad: T, i: nat): (r: seq<T>)
    requires size > 0 && i < |s|
    ensures |r| == size
  {
    var end := if i + size <= |s| then i + size else |s|;
    var chunk := s[i..end];
    if |chunk| < size then chunk + Repeat(pad, size - |chunk|) else chunk
  }

  /** Producing the chunk at i and stepping i by size leaves the chunks after it. */
  lemma RemainingStep<T>(s: seq<T>, size: nat, pad: T, i: nat)
    requires size > 0 && i < |s|
    ensures RemainingChunks(s, size, pad, i) == [ChunkAt(s, size, pad, i)] + RemainingChunks(s, size, pad, i + size)
  {
    var rest := s[i..];
    if |rest| >= size {
      assert PadChunks(rest, size, pad) == [rest[..size]] + PadChunks(rest[size..], size, pad);
      assert rest[..size] == s[i..i + size];
      if i + size < |s| {
        assert rest[size..] == s[i + size..];
      } else {
        assert rest[size..] == [];
      }
    } else {
      assert PadChunks(rest, size, pad) == [rest + Repeat(pad, size - |rest|)];
      assert s[i..|s|] == rest;
    }
  }

  /** A loop that emits the chunk at i moves it from the chunks still to produce to the chunks produced. */
  lemma EmitStep<T>(all: seq<seq<T>>, done: seq<seq<T>>, s: seq<T>, size: nat, pad: T, i: nat)
    requires size > 0 && i < |s|
    requires all == done + RemainingChunks(s, size, pad, i)
    ensures all == (done + [ChunkAt(s, size, pad, i)]) + RemainingChunks(s, size, pad, i + size)
  {
    RemainingStep(s, size, pad, i);
  }
}
