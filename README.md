# voice-dictator, modelled in Dafny

The modelled program is a hotkey-driven dictation tool in two variants. `dictator.py` is minimal. `dictator_app.py` runs from the menu bar.
Holding the hold key records from the microphone, and releasing it transcribes the recording and pastes the text.
Pressing the hold key with shift held starts continuous recording, which the next press of the hold key stops.
The menu-bar variant also rejects recordings that are too short or too quiet. It keeps the last ten transcriptions newest first, shows truncated previews of them, and can render them as a plain-text document.

The model follows the programs' structure:

- `PyText` (`pytext.dfy`): Python's `str.strip()`, which both programs apply to the engine's text.
- `Audio` (`audio.dfy`): chunks of samples, their concatenation, and the sum of squares behind the energy gate.
- `Pipeline` (`pipeline.dfy`): what happens after a stop, as two functions. `Transcribe` covers `dictator.py` and `TranscribeGated` covers `dictator_app.py`. Lemmas relate the two functions.
- `Keys` (`keys.dfy`): the keys the handlers distinguish, and the recording modes (idle, momentary, continuous).
- `Dictator` (`dictator.dfy`): the module globals of `dictator.py` (`recording`, `toggle_mode`, `shift_held`, `audio_data`) as the fields of a class `Recorder`. Its methods are `start_recording`, the audio callback, `stop_recording`, `on_press` and `on_release`. Scenario methods drive a fresh recorder through key sequences.
- `DictatorApp` (`dictator_app.dfy`): the same for `dictator_app.py`, plus the `history` deque as a field, `clear_history`, the preview truncation and the lines built by `open_in_textedit`.

Both recorder classes keep the invariant `Valid()`: continuous mode is only armed while recording, and the app's history never holds more than `MAX_HISTORY` entries. Every method keeps it. `StopRecording` requires continuous mode to be off, because each of its callers clears `toggle_mode` or tests it first.
`stop_recording` runs on a new thread in the source. In the model it runs synchronously, and the key handler that dispatched it returns its outcome.
The speech engine is a parameter `transcribe: seq<real> -> string`. The timestamp and the date from `datetime.now()` are string parameters.

Three behaviours of the code are worth knowing:

- A momentary recording can turn into a continuous one without stopping. Press the hold key, press shift, release the hold key, then press the hold key again. The release does not stop the recording, because shift is held. The second press sets `toggle_mode`, and `start_recording` is a no-op, so the chunks captured so far are kept. `OnPress` states this: after a hold press with shift held and continuous mode off, the mode is `Continuous`, whether the recorder was idle or recording momentarily. `Dictator.MomentaryToContinuousScenario` walks through the sequence.
- Releasing the hold key calls `stop_recording` whenever neither `toggle_mode` nor `shift_held` is set, even when nothing is recording. That stop is then a no-op, and `OnRelease` returns `Some(NotRecording)`.
- Neither program catches an error from the engine or from opening the input device. The engine is therefore a total function in the model, and opening the stream is not modelled.

## Model

| member | source | states |
|---|---|---|
| PyText.Strip | dictator.py:78 | the stripped text is a contiguous piece of the input. Only whitespace (Python's `isspace` set) lies outside it, and a non-empty result has no whitespace at either end |
| PyText.StripLeft | dictator_app.py:118 | leading whitespace removal: the result is a suffix of the input, what was dropped is all whitespace, and the result does not start with whitespace |
| PyText.StripRight | dictator_app.py:118 | trailing whitespace removal: the result is a prefix of the input, what was dropped is all whitespace, and the result does not end with whitespace |
| PyText.StripTrimmed | dictator_app.py:118 | a string with no whitespace at either end is left unchanged by strip |
| PyText.StripIdempotent | dictator.py:78 | stripping twice gives the same text as stripping once |
| PyText.StripEmptyIff | dictator.py:80 | the stripped text is empty exactly when the engine's text is all whitespace |
| Audio.Flatten | dictator.py:74 | the concatenated audio has as many samples as all chunks together, and starts with the first chunk |
| Audio.FlattenAppend | dictator_app.py:102 | concatenating a buffer made of two parts gives the two parts' samples, one after the other |
| Audio.FlattenSnoc | dictator.py:46-48 | a chunk appended by the callback appears, in order, at the end of the concatenated audio |
| Audio.SumSquares | dictator_app.py:111 | the sum of squared samples behind the RMS energy is never negative |
| Audio.SumSquaresOfSilence | dictator_app.py:111-112 | an all-zero buffer has zero energy |
| Audio.SumSquaresOfConstant | dictator_app.py:111 | a constant signal of amplitude v over n samples has energy n*v*v |
| Pipeline.TooShortIffUnder8000 | dictator_app.py:104-108 | at 16000 Hz, the 0.5 s duration gate rejects exactly the buffers with fewer than 8000 samples |
| Pipeline.Accept | dictator_app.py:117-120 | engine text is accepted exactly when it is not all whitespace, and the accepted text is the non-empty stripped text |
| Pipeline.Transcribe | dictator.py:69-91 | dictator.py's pipeline: `NoAudio` exactly for an empty buffer, and `NoSpeech` exactly for a non-empty buffer whose engine text is all whitespace. Otherwise it pastes `Strip` of the engine's text on the concatenated buffer: non-empty, with no whitespace at either end. There is never a duration or energy rejection |
| Pipeline.UngatedPastesAnySpeech | dictator.py:69-83 | any non-empty buffer, however short or quiet, is pasted once the engine returns a non-whitespace character |
| Pipeline.TranscribeGated | dictator_app.py:97-137 | dictator_app.py's pipeline: `NoAudio` exactly for an empty buffer, and `TooShort` exactly for a non-empty buffer under 8000 samples. `NoSound` exactly for a buffer of at least 8000 samples that is `Quiet`. `NoSpeech` exactly when the buffer passes both gates and the engine text is all whitespace. Pasted text is `Strip` of the engine's text on the concatenated buffer, is non-empty, and has at least 8000 samples behind it |
| Pipeline.Quiet | dictator_app.py:111-112 | the energy gate: the RMS is below 0.001 exactly when the sum of squares is below 0.001² times the number of samples |
| Pipeline.GatesOnlyReject | dictator_app.py:104-118 | the gated pipeline either rejects as too short or too quiet, or gives the same outcome as dictator.py's pipeline |
| Pipeline.GateRejectionIgnoresEngine | dictator_app.py:97-114 | an empty, short or quiet buffer is rejected before the engine: the outcome is the same for every engine |
| Pipeline.FlattenSilent | dictator_app.py:102 | concatenating chunks of zeros gives only zeros |
| Pipeline.SilenceNeverTranscribed | dictator_app.py:110-114 | a buffer of pure zeros, of any length, is never transcribed (it is empty, too short or too quiet) |
| Pipeline.LoudChunkReachesEngine | dictator_app.py:104-118 | a constant chunk of at least 8000 samples whose squared amplitude reaches the squared energy threshold passes both gates and reaches the engine |
| Dictator.Recorder.constructor | dictator.py:23-26 | initially idle: not recording, no toggle, no shift, empty buffer |
| Dictator.Recorder.StartRecording | dictator.py:38-43 | a start while recording changes nothing. Otherwise `recording` becomes true and the buffer becomes empty, and nothing else changes |
| Dictator.Recorder.Callback | dictator.py:46-48 | a chunk is appended only while recording, so the concatenated audio grows by exactly that chunk. Otherwise the buffer is unchanged |
| Dictator.Recorder.StopRecording | dictator.py:60-91 | called with continuous mode off, as both callers ensure. A stop while not recording reports `NotRecording`. Otherwise recording ends and the outcome is `Transcribe` of the buffer. The invariant holds afterwards |
| Dictator.Recorder.OnPress | dictator.py:94-112 | a shift press only sets `shift_held`, and any other non-hold key changes nothing. For a hold press: in continuous mode it stops and transcribes, and the mode becomes idle. Otherwise, with shift held, the mode becomes continuous, and without shift it becomes momentary; a buffer is kept if a recording was already running. The invariant is kept |
| Dictator.Recorder.OnRelease | dictator.py:115-122 | a shift release only clears `shift_held`. A hold release stops (the mode becomes idle) exactly when neither toggle nor shift is set; otherwise nothing but `shift_held` changes |
| Dictator.ContinuousScenario | dictator.py:94-122 | shift then hold gives continuous mode. It survives the hold release even after shift was released first, on the toggle alone. The next hold press stops and transcribes the captured chunk, and the following release's stop is a no-op |
| Dictator.MomentaryScenario | dictator.py:100-122 | hold press gives momentary mode. A chunk arrives, and the release makes the mode idle and transcribes exactly that chunk |
| Dictator.ShiftHeldReleaseScenario | dictator.py:115-122 | releasing the hold key while shift is held does not stop a momentary recording, and neither does the later shift release |
| Dictator.MomentaryToContinuousScenario | dictator.py:100-121 | hold press, shift press, hold release, hold press: no stop is dispatched, and the recorder ends in continuous mode with the chunk captured during the momentary part still in its buffer |
| Dictator.DoubleStartScenario | dictator.py:38-48 | two starts with no stop between them make one session: the chunk captured after the first start is kept |
| DictatorApp.PushNewest | dictator_app.py:127 | `appendleft` on the maxlen-10 deque: the new entry is first, the older ones shift back one place, and the length becomes min(old + 1, 10), dropping the oldest |
| DictatorApp.PushAllNewestFirst | dictator_app.py:53 | after any run of accepted transcriptions, the history is the last ten entries ever pushed, newest first |
| DictatorApp.Preview | dictator_app.py:122 | a text within the limit is shown as it is. A longer one is shown as its first `limit` characters followed by "..." (limit 60 on the console line) |
| DictatorApp.PreviewBounded | dictator_app.py:157 | a preview is at most limit + 3 characters long, and at most 2 longer than the text |
| DictatorApp.MenuAndConsolePreviews | dictator_app.py:171 | with the program's limits: a text of at most 50 characters is shown in full in menu items and the notification, and a longer one is cut to 53 characters. The console line does the same at 60 and 63 |
| DictatorApp.Recorder.constructor | dictator_app.py:47-53 | initially idle, with an empty buffer and an empty history |
| DictatorApp.Recorder.StartRecording | dictator_app.py:64-75 | a start while recording changes nothing. Otherwise `recording` becomes true and the buffer becomes empty; toggle, shift and history are unchanged |
| DictatorApp.Recorder.Callback | dictator_app.py:73-75 | a chunk is appended only while recording, and the concatenated audio grows by exactly that chunk |
| DictatorApp.Recorder.StopRecording | dictator_app.py:87-137 | called with continuous mode off, as both callers ensure. A stop while not recording reports `NotRecording` and leaves the history unchanged. Otherwise the outcome is `TranscribeGated` of the buffer. Accepted text becomes the newest history entry with its timestamp; any rejection leaves the history unchanged |
| DictatorApp.Recorder.OnPress | dictator_app.py:213-230 | the key policy of `Dictator.Recorder.OnPress`, with the gated pipeline. The history changes only by a push of the text a dispatched stop accepted |
| DictatorApp.Recorder.OnRelease | dictator_app.py:233-240 | the key policy of `Dictator.Recorder.OnRelease`, with the gated pipeline. The history changes only by a push of the text a dispatched stop accepted |
| DictatorApp.Recorder.ClearHistory | dictator_app.py:204-206 | the history becomes empty, and the invariant is kept |
| DictatorApp.Recorder.OpenInTextEdit | dictator_app.py:175-194 | nothing for an empty history. Otherwise the document has 5 header lines with the date, then, in history order, 5 lines per entry: timestamp in brackets, text, blank, 30 dashes, blank |
| DictatorApp.ShortTapScenario | dictator_app.py:97-108 | a tap that captures under 8000 samples is rejected as too short, and the history stays empty |
| DictatorApp.AcceptedScenario | dictator_app.py:97-137 | a loud enough chunk of at least 8000 samples whose transcription has a non-whitespace character is pasted stripped, and becomes the only history entry |

## Left out

- Loading the Whisper model and `model.transcribe`: the engine is a foreign library, modelled as the parameter `transcribe`.
- The `sounddevice` input stream (open, start, stop, close): audio I/O. The stream's callback is the `Callback` method.
- `threading.Thread` for each stop, and the races between the key listener, the audio thread and the stop threads: concurrency. Stops run synchronously.
- `pyperclip.copy` and the simulated Cmd+V keystrokes: clipboard and OS side effects. They are the `Pasted(text)` outcome.
- `rumps` menu building (`update_menu`, `make_copy_callback`, `DictatorApp`), `update_icon`, notifications, the AppKit activation policy and `quit_app`: GUI. The truncation they use is `Preview`.
- `"\n".join(lines)`, the temporary file and `subprocess.run(["open", ...])` in `open_in_textedit`: file and process I/O. The model stops at the list of lines.
- `datetime.now()` and its formatting: the clock. The timestamp and the date are parameters.
- Coloured console output, the `print` calls and `main`: presentation and start-up.
- Audio.SumSquares: samples are exact reals, not 32-bit floats, so rounding in `audio ** 2` and `np.mean` is not modelled.
- Pipeline.Quiet: the square root is removed by comparing the mean square with the squared threshold, which is equivalent over the reals but not bit-for-bit in floating point.
