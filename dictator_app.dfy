/**
 * dictator_app.py: the menu-bar program.  Same recorder and key policy as
 * dictator.py, with a duration and an energy gate before the engine, a
 * bounded newest-first history of accepted transcriptions, truncated
 * previews of them, and a plain-text history document.
 */
module DictatorApp {
  import opened Wrappers
  import opened Audio
  import opened Keys
  import opened Pipeline

  /** `MAX_HISTORY`: the history deque's `maxlen`. */
  const MAX_HISTORY: nat := 10
  /** Preview length of the console line. */
  const CONSOLE_PREVIEW: nat := 60
  /** Preview length of menu items and of the "Copied!" notification. */
  const MENU_PREVIEW: nat := 50

  /** A history entry: the `%I:%M %p` time of the transcription and its text. */
  datatype Entry = Entry(timestamp: string, text: string)

  // ---------------------------------------------------------------- history

  /**
   * `history.appendleft(e)` on a deque of maxlen MAX_HISTORY: `e` becomes the
   * newest entry, the others move back one place, and the oldest falls off
   * when the deque was full.
   */
  function PushNewest(h: seq<Entry>, e: Entry): (r: seq<Entry>)
    ensures |r| == if |h| < MAX_HISTORY then |h| + 1 else MAX_HISTORY
    ensures r[0] == e
    ensures forall i :: 1 <= i < |r| ==> r[i] == h[i - 1]
  {
    var all := [e] + h;
    all[..if |all| < MAX_HISTORY then |all| else MAX_HISTORY]
  }

  function Reversed<T>(s: seq<T>): (r: seq<T>)
    ensures |r| == |s|
  {
    if s == [] then [] else Reversed(s[1..]) + [s[0]]
  }

  /** The history after a run of accepted transcriptions, in order. */
  function PushAll(h: seq<Entry>, es: seq<Entry>): seq<Entry>
    decreases es
  {
    if es == [] then h else PushAll(PushNewest(h, es[0]), es[1..])
  }

  function Min(a: nat, b: nat): nat { if a < b then a else b }

  /**
   * The history holds the last MAX_HISTORY entries ever pushed, newest first.
   */
  lemma {:induction false} PushAllNewestFirst(h: seq<Entry>, es: seq<Entry>)
    requires |h| <= MAX_HISTORY
    ensures PushAll(h, es) == (Reversed(es) + h)[..Min(|es| + |h|, MAX_HISTORY)]
    decreases es
  {
    if es != [] {
      var h' := PushNewest(h, es[0]);
      PushAllNewestFirst(h', es[1..]);
      var n := Min(|es| + |h|, MAX_HISTORY);
      var rest := Reversed(es[1..]);
      assert Reversed(es) == rest + [es[0]];
      assert Min(|es[1..]| + |h'|, MAX_HISTORY) == n;
      forall i | 0 <= i < n
        ensures (rest + h')[i] == (Reversed(es) + h)[i]
      {
        if i > |rest| {
          assert (rest + h')[i] == h'[i - |rest|] == h[i - |rest| - 1];
        }
      }
    }
  }

  // --------------------------------------------------------------- previews

  /** `text[:limit] + "..." if len(text) > limit else text` */
  function Preview(text: string, limit: nat): (r: string)
    ensures |text| <= limit ==> r == text
    ensures |text| > limit ==> |r| == limit + 3 && r[..limit] == text[..limit] && r[limit..] == "..."
  {
    if |text| > limit then text[..limit] + "..." else text
  }

  /** A preview is never longer than the limit plus the ellipsis. */
  lemma PreviewBounded(text: string, limit: nat)
    ensures |Preview(text, limit)| <= limit + 3
    ensures |Preview(text, limit)| <= |text| + 2
  {
  }

  /**
   * The menu item and the notification show a text of at most 50 characters
   * in full and cut anything longer to 53 characters; the console line does
   * the same at 60 and 63.
   */
  lemma MenuAndConsolePreviews(text: string)
    ensures |text| <= MENU_PREVIEW ==> Preview(text, MENU_PREVIEW) == text
    ensures |text| > MENU_PREVIEW ==> |Preview(text, MENU_PREVIEW)| == 53
    ensures |text| <= CONSOLE_PREVIEW ==> Preview(text, CONSOLE_PREVIEW) == text
    ensures |text| > CONSOLE_PREVIEW ==> |Preview(text, CONSOLE_PREVIEW)| == 63
  {
  }

  // ------------------------------------------------------- history document

  function Rule(c: char, n: nat): (r: string)
    ensures |r| == n && forall k :: 0 <= k < n ==> r[k] == c
  {
    seq(n, _ => c)
  }

  /** The five header lines of the history document, for a given date. */
  function Header(date: string): seq<string>
  {
    [Rule('=', 50), "  VOICE DICTATOR - History", "  " + date, Rule('=', 50), ""]
  }

  /** The five lines written for one entry. */
  function Block(e: Entry): seq<string>
  {
    ["[" + e.timestamp + "]", e.text, "", Rule('-', 30), ""]
  }

  // --------------------------------------------------------------- recorder

  class Recorder {
    var recording: bool
    var toggleMode: bool
    var shiftHeld: bool
    var audioData: seq<Chunk>
    var history: seq<Entry>

    ghost predicate Valid()
      reads this
    {
      (toggleMode ==> recording) && |history| <= MAX_HISTORY
    }

    function CurrentMode(): Mode
      reads this
    {
      if !recording then Idle else if toggleMode then Continuous else Momentary
    }

    constructor ()
      ensures Valid() && CurrentMode() == Idle
      ensures !recording && !toggleMode && !shiftHeld && audioData == [] && history == []
    {
      recording, toggleMode, shiftHeld, audioData, history := false, false, false, [], [];
    }

    /** A repeated start is a no-op; a real one begins with an empty buffer. */
    method StartRecording()
      requires |history| <= MAX_HISTORY
      modifies this
      ensures Valid()
      ensures old(recording) ==> unchanged(this)
      ensures !old(recording) ==> recording && audioData == []
      ensures toggleMode == old(toggleMode) && shiftHeld == old(shiftHeld) && history == old(history)
    {
      if recording {
        return;
      }
      recording := true;
      audioData := [];
    }

    /** The input stream's callback: keeps a chunk only while recording. */
    method Callback(chunk: Chunk)
      requires Valid()
      modifies this`audioData
      ensures Valid()
      ensures audioData == if recording then old(audioData) + [chunk] else old(audioData)
      ensures recording ==> Flatten(audioData) == Flatten(old(audioData)) + chunk
    {
      if recording {
        FlattenSnoc(audioData, chunk);
        audioData := audioData + [chunk];
      }
    }

    /**
     * A stop when not recording does nothing.  Otherwise recording ends, the
     * buffer goes through both gates and the engine, and accepted text
     * becomes the newest history entry, stamped with `timestamp`.
     */
    method StopRecording(transcribe: Engine, timestamp: string) returns (outcome: Outcome)
      requires Valid() && !toggleMode
      modifies this`recording, this`history
      ensures Valid() && !recording
      ensures !old(recording) ==> outcome == NotRecording
      ensures old(recording) ==> outcome == TranscribeGated(audioData, transcribe)
      ensures history == if outcome.Pasted? then PushNewest(old(history), Entry(timestamp, outcome.text))
                         else old(history)
    {
      if !recording {
        return NotRecording;
      }
      recording := false;
      if audioData == [] {
        return NoAudio;
      }
      var audio := Flatten(audioData);
      var duration := (|audio| as real) / (SAMPLE_RATE as real);
      if duration < MIN_AUDIO_DURATION {
        return TooShort;
      }
      if SumSquares(audio) / (|audio| as real) < MIN_AUDIO_ENERGY * MIN_AUDIO_ENERGY {
        return NoSound;
      }
      var text := PyText.Strip(transcribe(audio));
      if text != [] {
        history := PushNewest(history, Entry(timestamp, text));
        outcome := Pasted(text);
      } else {
        outcome := NoSpeech;
      }
    }

    /** `on_press`, with the key policy of dictator.py. */
    method OnPress(key: Key, transcribe: Engine, timestamp: string) returns (stopped: Option<Outcome>)
      requires Valid()
      modifies this
      ensures Valid()
      ensures key != Hold ==> stopped == None && recording == old(recording) && toggleMode == old(toggleMode)
                              && audioData == old(audioData)
      ensures shiftHeld == (old(shiftHeld) || key == Shift)
      ensures key == Hold && old(toggleMode) ==>
                CurrentMode() == Idle && audioData == old(audioData)
                && stopped == Some(TranscribeGated(old(audioData), transcribe))
      ensures key == Hold && !old(toggleMode) ==>
                stopped == None
                && CurrentMode() == (if old(shiftHeld) then Continuous else Momentary)
                && audioData == (if old(recording) then old(audioData) else [])
      ensures history == if stopped.Some? && stopped.value.Pasted?
                         then PushNewest(old(history), Entry(timestamp, stopped.value.text))
                         else old(history)
    {
      if key == Shift {
        shiftHeld := true;
      }
      stopped := None;
      if key == Hold {
        if toggleMode {
          toggleMode := false;
          var o := StopRecording(transcribe, timestamp);
          stopped := Some(o);
        } else if shiftHeld {
          toggleMode := true;
          StartRecording();
        } else {
          StartRecording();
        }
      }
    }

    /** `on_release`, with the key policy of dictator.py. */
    method OnRelease(key: Key, transcribe: Engine, timestamp: string) returns (stopped: Option<Outcome>)
      requires Valid()
      modifies this
      ensures Valid()
      ensures shiftHeld == (old(shiftHeld) && key != Shift)
      ensures toggleMode == old(toggleMode) && audioData == old(audioData)
      ensures key == Hold && !old(toggleMode) && !old(shiftHeld) ==>
                CurrentMode() == Idle
                && stopped == Some(if old(recording) then TranscribeGated(audioData, transcribe) else NotRecording)
      ensures !(key == Hold && !old(toggleMode) && !old(shiftHeld)) ==>
                stopped == None && recording == old(recording)
      ensures history == if stopped.Some? && stopped.value.Pasted?
                         then PushNewest(old(history), Entry(timestamp, stopped.value.text))
                         else old(history)
    {
      if key == Shift {
        shiftHeld := false;
      }
      stopped := None;
      if key == Hold && !toggleMode && !shiftHeld {
        var o := StopRecording(transcribe, timestamp);
        stopped := Some(o);
      }
    }

    /** "Clear History": empties the history and nothing else. */
    method ClearHistory()
      requires Valid()
      modifies this`history
      ensures Valid() && history == []
    {
      history := [];
    }

    /**
     * The lines of the document "Open in TextEdit" shows: nothing for an
     * empty history, otherwise five header lines and five lines per entry,
     * newest entry first.
     */
    method OpenInTextEdit(date: string) returns (doc: Option<seq<string>>)
      ensures doc == None <==> history == []
      ensures doc.Some? ==> |doc.value| == 5 + 5 * |history| && doc.value[..5] == Header(date)
      ensures doc.Some? ==> forall i :: 0 <= i < |history| ==> doc.value[5 + 5 * i .. 10 + 5 * i] == Block(history[i])
    {
      if history == [] {
        return None;
      }
      var lines := [];
      lines := lines + [Rule('=', 50)];
      lines := lines + ["  VOICE DICTATOR - History"];
      lines := lines + ["  " + date];
      lines := lines + [Rule('=', 50)];
      lines := lines + [""];
      var i := 0;
      while i < |history|
        invariant 0 <= i <= |history|
        invariant |lines| == 5 + 5 * i && lines[..5] == Header(date)
        invariant forall j :: 0 <= j < i ==> lines[5 + 5 * j .. 10 + 5 * j] == Block(history[j])
      {
        var e := history[i];
        ghost var before := lines;
        lines := lines + ["[" + e.timestamp + "]"];
        lines := lines + [e.text];
        lines := lines + [""];
        lines := lines + [Rule('-', 30)];
        lines := lines + [""];
        assert lines == before + Block(e);
        forall j | 0 <= j < i
          ensures lines[5 + 5 * j .. 10 + 5 * j] == Block(history[j])
        {
          assert lines[5 + 5 * j .. 10 + 5 * j] == before[5 + 5 * j .. 10 + 5 * j];
        }
        assert lines[5 + 5 * i .. 10 + 5 * i] == Block(e);
        i := i + 1;
      }
      doc := Some(lines);
    }
  }

  // -------------------------------------------------------------- scenarios

  /**
   * A tap of the hold key that captures under half a second of audio is
   * rejected as too short, whatever the engine would say, and the history
   * is left as it was.
   */
  method ShortTapScenario(chunk: Chunk, transcribe: Engine, timestamp: string)
    returns (stop: Option<Outcome>, history: seq<Entry>)
    requires |chunk| < 8000
    ensures stop == Some(TooShort) && history == []
  {
    var r := new Recorder();
    var s := r.OnPress(Hold, transcribe, timestamp);
    r.Callback(chunk);
    FlattenSingle(chunk);
    stop := r.OnRelease(Hold, transcribe, timestamp);
    history := r.history;
  }

  /**
   * Hold to record: a loud enough chunk of at least half a second whose
   * transcription has a non-space character is pasted, stripped, and becomes
   * the newest history entry.
   */
  method AcceptedScenario(chunk: Chunk, amplitude: Sample, transcribe: Engine, timestamp: string)
    returns (stop: Option<Outcome>, history: seq<Entry>)
    requires |chunk| >= 8000
    requires forall k :: 0 <= k < |chunk| ==> chunk[k] == amplitude
    requires amplitude * amplitude >= MIN_AUDIO_ENERGY * MIN_AUDIO_ENERGY
    requires !PyText.AllSpace(transcribe(chunk))
    ensures stop == Some(Pasted(PyText.Strip(transcribe(chunk))))
    ensures history == [Entry(timestamp, PyText.Strip(transcribe(chunk)))]
  {
    LoudChunkReachesEngine(chunk, amplitude, transcribe);
    ghost var text := PyText.Strip(transcribe(chunk));
    assert TranscribeGated([chunk], transcribe) == Pasted(text);
    var r := new Recorder();
    var s := r.OnPress(Hold, transcribe, timestamp);
    assert r.recording && !r.toggleMode && !r.shiftHeld && r.audioData == [] && r.history == [];
    r.Callback(chunk);
    assert r.audioData == [chunk];
    stop := r.OnRelease(Hold, transcribe, timestamp);
    assert stop == Some(Pasted(text));
    history := r.history;
  }
}
