/**
 * Captured audio.  The input stream delivers mono chunks of float samples;
 * the audio callback copies each chunk into the recorder's buffer, and the
 * post-stop pipeline concatenates the buffer into one flat sample array
 * (`np.concatenate(audio_data, axis=0).flatten()`).  Samples are modelled as
 * exact reals, not as 32-bit floats.
 */
module Audio {

  type Sample = real
  type Chunk = seq<Sample>

  /** The speech engine: the whole flat sample array in, text out. */
  type Engine = seq<Sample> -> string

  /** Capture rate in samples per second, mono (both programs use 16 kHz). */
  const SAMPLE_RATE: nat := 16000

  /** Total number of samples in a buffer of chunks. */
  function TotalSamples(chunks: seq<Chunk>): nat
  {
    if chunks == [] then 0 else |chunks[0]| + TotalSamples(chunks[1..])
  }

  /** Concatenation of the chunks, in capture order. */
  function Flatten(chunks: seq<Chunk>): (audio: seq<Sample>)
    ensures |audio| == TotalSamples(chunks)
    ensures chunks != [] ==> audio[..|chunks[0]|] == chunks[0]
  {
    if chunks == [] then [] else chunks[0] + Flatten(chunks[1..])
  }

  /** Flattening distributes over concatenation of buffers. */
  lemma {:induction false} FlattenAppend(a: seq<Chunk>, b: seq<Chunk>)
    ensures Flatten(a + b) == Flatten(a) + Flatten(b)
  {
    if a != [] {
      assert (a + b)[1..] == a[1..] + b;
      FlattenAppend(a[1..], b);
    } else {
      assert a + b == b;
    }
  }

  /** Appending a chunk appends its samples to the flat array. */
  lemma FlattenSnoc(chunks: seq<Chunk>, c: Chunk)
    ensures Flatten(chunks + [c]) == Flatten(chunks) + c
  {
    FlattenAppend(chunks, [c]);
    assert Flatten([c]) == c + Flatten([]);
  }

  /** A one-chunk buffer flattens to that chunk. */
  lemma FlattenSingle(c: Chunk)
    ensures Flatten([c]) == c
  {
    assert Flatten([c]) == c + Flatten([]);
  }

  /** Sum of the squared samples: `np.sum(audio ** 2)`. */
  function SumSquares(audio: seq<Sample>): (r: real)
    ensures r >= 0.0
  {
    if audio == [] then 0.0 else audio[0] * audio[0] + SumSquares(audio[1..])
  }

  /** A buffer of silence (all samples zero) carries no energy. */
  lemma {:induction false} SumSquaresOfSilence(audio: seq<Sample>)
    requires forall k :: 0 <= k < |audio| ==> audio[k] == 0.0
    ensures SumSquares(audio) == 0.0
  {
    if audio != [] {
      SumSquaresOfSilence(audio[1..]);
    }
  }

  /** A constant signal of amplitude `v` has energy |audio| * v * v. */
  lemma {:induction false} SumSquaresOfConstant(audio: seq<Sample>, v: Sample)
    requires forall k :: 0 <= k < |audio| ==> audio[k] == v
    ensures SumSquares(audio) == (|audio| as real) * v * v
  {
    if audio != [] {
      SumSquaresOfConstant(audio[1..], v);
    }
  }
}
