/**
 * dictator.py: the minimal program.  Its module globals `recording`,
 * `toggle_mode`, `shift_held` and `audio_data` become the fields of a
 * Recorder; the keyboard listener's callbacks and the audio callback become
 * its methods.  `stop_recording`, which the key handlers run on a new thread,
 * runs synchronously here and returns what it did.
 */
module Dictator {
  import opened Wrappers
  import opened Audio
  import opened Keys
  import opened Pipeline

  class Recorder {
    var recording: bool
    var toggleMode: bool
    var shiftHeld: bool
    var audioData: seq<Chunk>

    /** Continuous mode is only ever armed while recording. */
    ghost predicate Valid()
      reads this
    {
      toggleMode ==> recording
    }

    function CurrentMode(): Mode
      reads this
    {
      if !recording then Idle else if toggleMode then Continuous else Momentary
    }

    constructor ()
      ensures Valid() && CurrentMode() == Idle
      ensures !recording && !toggleMode && !shiftHeld && audioData == []
    {
      recording, toggleMode, shiftHeld, audioData := false, false, false, [];
    }

    /** A repeated start is a no-op; a real one begins with an empty buffer. */
    method StartRecording()
      modifies this
      ensures Valid()
      ensures old(recording) ==> unchanged(this)
      ensures !old(recording) ==> recording && audioData == []
      ensures toggleMode == old(toggleMode) && shiftHeld == old(shiftHeld)
    {
      if recording {
        return;
      }
      recording := true;
      audioData := [];
    }

    /** The input stream's callback: keeps a chunk only while recording. */
    method Callback(chunk: Chunk)
      requires Valid()
      modifies this`audioData
      ensures Valid()
      ensures audioData == if recording then old(audioData) + [chunk] else old(audioData)
      ensures recording ==> Flatten(audioData) == Flatten(old(audioData)) + chunk
    {
      if recording {
        FlattenSnoc(audioData, chunk);
        audioData := audioData + [chunk];
      }
    }

    /**
     * A stop when not recording does nothing; otherwise recording ends and
     * the buffer goes through the ungated pipeline.
     */
    method StopRecording(transcribe: Engine) returns (outcome: Outcome)
      requires !toggleMode
      modifies this`recording
      ensures Valid() && !recording
      ensures !old(recording) ==> outcome == NotRecording
      ensures old(recording) ==> outcome == Transcribe(audioData, transcribe)
    {
      if !recording {
        return NotRecording;
      }
      recording := false;
      if audioData == [] {
        return NoAudio;
      }
      var audio := Flatten(audioData);
      var text := PyText.Strip(transcribe(audio));
      if text != [] {
        outcome := Pasted(text);
      } else {
        outcome := NoSpeech;
      }
    }

    /**
     * `on_press`.  The hold key stops continuous recording; with shift held
     * it starts continuous recording; otherwise it starts (or keeps) a
     * momentary one.  `stopped` is the outcome of a stop it dispatched.
     */
    method OnPress(key: Key, transcribe: Engine) returns (stopped: Option<Outcome>)
      requires Valid()
      modifies this
      ensures Valid()
      ensures key != Hold ==> stopped == None && recording == old(recording)
                              && toggleMode == old(toggleMode) && audioData == old(audioData)
      ensures shiftHeld == (old(shiftHeld) || key == Shift)
      ensures key == Hold && old(toggleMode) ==>
                CurrentMode() == Idle && audioData == old(audioData)
                && stopped == Some(Transcribe(old(audioData), transcribe))
      ensures key == Hold && !old(toggleMode) ==>
                stopped == None
                && CurrentMode() == (if old(shiftHeld) then Continuous else Momentary)
                && audioData == (if old(recording) then old(audioData) else [])
    {
      if key == Shift {
        shiftHeld := true;
      }
      stopped := None;
      if key == Hold {
        if toggleMode {
          toggleMode := false;
          var o := StopRecording(transcribe);
          stopped := Some(o);
        } else if shiftHeld {
          toggleMode := true;
          StartRecording();
        } else {
          StartRecording();
        }
      }
    }

    /**
     * `on_release`.  Releasing shift only clears `shiftHeld`; releasing the
     * hold key stops unless continuous mode is armed or shift is held.
     */
    method OnRelease(key: Key, transcribe: Engine) returns (stopped: Option<Outcome>)
      requires Valid()
      modifies this
      ensures Valid()
      ensures shiftHeld == (old(shiftHeld) && key != Shift)
      ensures toggleMode == old(toggleMode) && audioData == old(audioData)
      ensures key == Hold && !old(toggleMode) && !old(shiftHeld) ==>
                CurrentMode() == Idle
                && stopped == Some(if old(recording) then Transcribe(audioData, transcribe) else NotRecording)
      ensures !(key == Hold && !old(toggleMode) && !old(shiftHeld)) ==>
                stopped == None && recording == old(recording)
    {
      if key == Shift {
        shiftHeld := false;
      }
      stopped := None;
      if key == Hold && !toggleMode && !shiftHeld {
        var o := StopRecording(transcribe);
        stopped := Some(o);
      }
    }
  }

  /**
   * Shift, then the hold key, starts continuous recording; releasing the
   * hold key keeps it going; the next press of the hold key stops it and
   * transcribes what was captured; the release after that is a no-op stop.
   */
  method ContinuousScenario(chunk: Chunk, transcribe: Engine)
    returns (afterArm: Mode, afterRelease: Mode, stop: Option<Outcome>, lateStop: Option<Outcome>)
    ensures afterArm == Continuous && afterRelease == Continuous
    ensures stop == Some(Transcribe([chunk], transcribe))
    ensures lateStop == Some(NotRecording)
  {
    var r := new Recorder();
    var s := r.OnPress(Shift, transcribe);
    s := r.OnPress(Hold, transcribe);
    afterArm := r.CurrentMode();
    r.Callback(chunk);
    s := r.OnRelease(Shift, transcribe);
    s := r.OnRelease(Hold, transcribe);
    afterRelease := r.CurrentMode();
    stop := r.OnPress(Hold, transcribe);
    lateStop := r.OnRelease(Hold, transcribe);
  }

  /** Hold to record: press, one chunk arrives, release transcribes it. */
  method MomentaryScenario(chunk: Chunk, transcribe: Engine)
    returns (during: Mode, after: Mode, stop: Option<Outcome>)
    ensures during == Momentary && after == Idle
    ensures stop == Some(Transcribe([chunk], transcribe))
  {
    var r := new Recorder();
    var s := r.OnPress(Hold, transcribe);
    during := r.CurrentMode();
    r.Callback(chunk);
    stop := r.OnRelease(Hold, transcribe);
    after := r.CurrentMode();
  }

  /**
   * Shift is consulted only at the hold key's edges: pressing shift during a
   * momentary recording and releasing the hold key before shift leaves the
   * recording running, and releasing shift afterwards does not stop it.
   */
  method ShiftHeldReleaseScenario(transcribe: Engine)
    returns (afterHoldRelease: Mode, afterShiftRelease: Mode, stops: seq<Option<Outcome>>)
    ensures afterHoldRelease == Momentary && afterShiftRelease == Momentary
    ensures stops == [None, None, None, None]
  {
    var r := new Recorder();
    var s1 := r.OnPress(Hold, transcribe);
    var s2 := r.OnPress(Shift, transcribe);
    var s3 := r.OnRelease(Hold, transcribe);
    afterHoldRelease := r.CurrentMode();
    var s4 := r.OnRelease(Shift, transcribe);
    afterShiftRelease := r.CurrentMode();
    stops := [s1, s2, s3, s4];
  }

  /**
   * Two starts with no stop between them make one recording session: the
   * second start keeps the chunks captured since the first.
   */
  method DoubleStartScenario(chunk: Chunk) returns (buffer: seq<Chunk>, recording: bool)
    ensures recording && buffer == [chunk]
  {
    var r := new Recorder();
    r.StartRecording();
    r.Callback(chunk);
    r.StartRecording();
    buffer, recording := r.audioData, r.recording;
  }

  /**
   * A momentary recording becomes continuous without stopping: with shift
   * pressed during the recording, releasing the hold key does not stop it,
   * and pressing the hold key again arms continuous mode while keeping the
   * chunk already captured.
   */
  method MomentaryToContinuousScenario(chunk: Chunk, transcribe: Engine)
    returns (after: Mode, buffer: seq<Chunk>, stops: seq<Option<Outcome>>)
    ensures after == Continuous && buffer == [chunk]
    ensures stops == [None, None, None, None]
  {
    var r := new Recorder();
    var s1 := r.OnPress(Hold, transcribe);
    r.Callback(chunk);
    var s2 := r.OnPress(Shift, transcribe);
    var s3 := r.OnRelease(Hold, transcribe);
    var s4 := r.OnPress(Hold, transcribe);
    after, buffer := r.CurrentMode(), r.audioData;
    stops := [s1, s2, s3, s4];
  }
}
