/**
 * What `stop_recording` does with the buffer once recording has stopped.
 * The minimal program (dictator.py) rejects an empty buffer and otherwise
 * hands the concatenated samples to the engine; the menu-bar program
 * (dictator_app.py) first applies a duration gate and an energy gate.  Both
 * strip the engine's text and accept it only when something is left.
 * The outcome stands for what the user sees: a rejection message, or the
 * text being copied to the clipboard and pasted.
 */
module Pipeline {
  import opened Audio
  import opened PyText

  datatype Outcome =
    | NotRecording          // stop_recording's guard: nothing was being recorded
    | NoAudio               // the buffer holds no chunk
    | TooShort              // menu-bar program only: below MIN_AUDIO_DURATION
    | NoSound               // menu-bar program only: RMS below MIN_AUDIO_ENERGY
    | NoSpeech              // the stripped engine text is empty
    | Pasted(text: string)  // accepted: copied to the clipboard and pasted

  /** Minimum length of a recording, in seconds (menu-bar program). */
  const MIN_AUDIO_DURATION: real := 0.5
  /** Minimum root-mean-square amplitude of a recording (menu-bar program). */
  const MIN_AUDIO_ENERGY: real := 0.001

  /** `len(audio) / SAMPLE_RATE < MIN_AUDIO_DURATION` */
  predicate TooShortAudio(audio: seq<Sample>)
  {
    (|audio| as real) / (SAMPLE_RATE as real) < MIN_AUDIO_DURATION
  }

  /** At 16 kHz the half-second gate is exactly "fewer than 8000 samples". */
  lemma TooShortIffUnder8000(audio: seq<Sample>)
    ensures TooShortAudio(audio) <==> |audio| < 8000
  {
  }

  /**
   * `sqrt(mean(audio ** 2)) < MIN_AUDIO_ENERGY`, with the square root
   * removed by squaring both sides (both are non-negative).
   */
  predicate Quiet(audio: seq<Sample>)
    requires audio != []
    ensures Quiet(audio) <==> SumSquares(audio) < MIN_AUDIO_ENERGY * MIN_AUDIO_ENERGY * (|audio| as real)
  {
    SumSquares(audio) / (|audio| as real) < MIN_AUDIO_ENERGY * MIN_AUDIO_ENERGY
  }

  /** `text = raw.strip()`, then `if text:` accept it. */
  function Accept(raw: string): (r: Outcome)
    ensures r.Pasted? || r == NoSpeech
    ensures r == NoSpeech <==> AllSpace(raw)
    ensures r.Pasted? ==> r.text == Strip(raw) && r.text != []
  {
    StripEmptyIff(raw);
    var text := Strip(raw);
    if text != [] then Pasted(text) else NoSpeech
  }

  /** Post-stop pipeline of dictator.py: no duration or energy gate. */
  function Transcribe(chunks: seq<Chunk>, transcribe: Engine): (r: Outcome)
    ensures r == NoAudio <==> chunks == []
    ensures r == NoAudio || r == NoSpeech || r.Pasted?
    ensures r == NoSpeech <==> chunks != [] && AllSpace(transcribe(Flatten(chunks)))
    ensures r.Pasted? ==> r.text == Strip(transcribe(Flatten(chunks)))
    ensures r.Pasted? ==> r.text != [] && !IsSpace(r.text[0]) && !IsSpace(r.text[|r.text| - 1])
  {
    if chunks == [] then NoAudio else Accept(transcribe(Flatten(chunks)))
  }

  /** Post-stop pipeline of dictator_app.py: both gates before the engine. */
  function TranscribeGated(chunks: seq<Chunk>, transcribe: Engine): (r: Outcome)
    ensures r == NoAudio <==> chunks == []
    ensures r == TooShort <==> chunks != [] && TotalSamples(chunks) < 8000
    ensures r != NotRecording
    ensures r == NoSound <==> chunks != [] && TotalSamples(chunks) >= 8000 && Quiet(Flatten(chunks))
    ensures r == NoSpeech <==> chunks != [] && TotalSamples(chunks) >= 8000 && !Quiet(Flatten(chunks))
                               && AllSpace(transcribe(Flatten(chunks)))
    ensures r.Pasted? ==> TotalSamples(chunks) >= 8000 && r.text != []
    ensures r.Pasted? ==> r.text == Strip(transcribe(Flatten(chunks)))
  {
    if chunks == [] then NoAudio
    else
      var audio := Flatten(chunks);
      TooShortIffUnder8000(audio);
      if TooShortAudio(audio) then TooShort
      else if Quiet(audio) then NoSound
      else Accept(transcribe(audio))
  }

  /**
   * dictator.py has no gate: any non-empty buffer, however short or quiet,
   * is pasted as soon as the engine returns a non-space character.
   */
  lemma UngatedPastesAnySpeech(chunks: seq<Chunk>, transcribe: Engine)
    requires chunks != []
    requires !AllSpace(transcribe(Flatten(chunks)))
    ensures Transcribe(chunks, transcribe) == Pasted(Strip(transcribe(Flatten(chunks))))
  {
  }

  /**
   * The gates of dictator_app.py only ever reject: whenever a buffer gets
   * past them the outcome is the one dictator.py would produce.
   */
  lemma GatesOnlyReject(chunks: seq<Chunk>, transcribe: Engine)
    ensures var g := TranscribeGated(chunks, transcribe);
            g == TooShort || g == NoSound || g == Transcribe(chunks, transcribe)
  {
  }

  /**
   * A rejection before the engine call does not depend on the engine: the
   * engine is not consulted for an empty, short or quiet buffer.
   */
  lemma GateRejectionIgnoresEngine(chunks: seq<Chunk>, e1: Engine, e2: Engine)
    requires TranscribeGated(chunks, e1) in {NoAudio, TooShort, NoSound}
    ensures TranscribeGated(chunks, e2) == TranscribeGated(chunks, e1)
  {
  }

  predicate SilentChunks(chunks: seq<Chunk>)
  {
    forall i, k :: 0 <= i < |chunks| && 0 <= k < |chunks[i]| ==> chunks[i][k] == 0.0
  }

  lemma {:induction false} FlattenSilent(chunks: seq<Chunk>)
    requires SilentChunks(chunks)
    ensures forall k :: 0 <= k < |Flatten(chunks)| ==> Flatten(chunks)[k] == 0.0
  {
    if chunks != [] {
      assert SilentChunks(chunks[1..]) by {
        forall i, k | 0 <= i < |chunks| - 1 && 0 <= k < |chunks[1..][i]|
          ensures chunks[1..][i][k] == 0.0
        {
          assert chunks[1..][i] == chunks[i + 1];
        }
      }
      FlattenSilent(chunks[1..]);
      assert Flatten(chunks) == chunks[0] + Flatten(chunks[1..]);
    }
  }

  /** A buffer of pure zeros, of any length, is never transcribed. */
  lemma SilenceNeverTranscribed(chunks: seq<Chunk>, transcribe: Engine)
    requires SilentChunks(chunks)
    ensures TranscribeGated(chunks, transcribe) in {NoAudio, TooShort, NoSound}
  {
    var audio := Flatten(chunks);
    if chunks != [] && !TooShortAudio(audio) {
      FlattenSilent(chunks);
      SumSquaresOfSilence(audio);
    }
  }

  /**
   * A single constant chunk of at least half a second, loud enough, passes
   * both gates: its outcome is the engine's accepted or empty text.
   */
  lemma LoudChunkReachesEngine(chunk: Chunk, amplitude: Sample, transcribe: Engine)
    requires |chunk| >= 8000
    requires forall k :: 0 <= k < |chunk| ==> chunk[k] == amplitude
    requires amplitude * amplitude >= MIN_AUDIO_ENERGY * MIN_AUDIO_ENERGY
    ensures TranscribeGated([chunk], transcribe) == Accept(transcribe(chunk))
  {
    FlattenSingle(chunk);
    SumSquaresOfConstant(chunk, amplitude);
    var n := |chunk| as real;
    assert SumSquares(chunk) == n * (amplitude * amplitude);
    assert SumSquares(chunk) / n == amplitude * amplitude;
    assert !Quiet(chunk);
    TooShortIffUnder8000(chunk);
  }
}
